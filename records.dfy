/** The plain records that tasks pass around: what Nova's `to_dict()` returns and
    what the migration tasks read with `info["key"]`. */
module Records {
  import opened Wrappers

  /** One value of a serialised record. */
  datatype Field =
    | Text(s: string)
    | Int(i: int)
    | Real(r: real)
    | Bool(b: bool)
    | Null
    | List(items: seq<Field>)

  /** A Python dict as its entries, in the dict's iteration order. */
  type Record = seq<(string, Field)>

  /** `rec[key]`: the value of the first entry with that key, or None where Python
      raises KeyError. */
  function Get(rec: Record, key: string): Option<Field> {
    if rec == [] then None
    else if rec[0].0 == key then Some(rec[0].1)
    else Get(rec[1..], key)
  }

  /** Get finds the first entry with the key, and fails exactly when no entry has it. */
  lemma {:induction false} GetFindsFirstEntry(rec: Record, key: string)
    ensures Get(rec, key).None? <==> forall i :: 0 <= i < |rec| ==> rec[i].0 != key
    ensures Get(rec, key).Some? ==>
      exists i :: (0 <= i < |rec| && rec[i] == (key, Get(rec, key).value) &&
        forall j :: 0 <= j < i ==> rec[j].0 != key)
  {
    if rec != [] && rec[0].0 != key {
      GetFindsFirstEntry(rec[1..], key);
      assert forall i :: 1 <= i < |rec| ==> rec[i] == rec[1..][i - 1];
      if Get(rec, key).Some? {
        var i :| 0 <= i < |rec[1..]| && rec[1..][i] == (key, Get(rec, key).value) &&
          forall j :: 0 <= j < i ==> rec[1..][j].0 != key;
        assert rec[i + 1] == (key, Get(rec, key).value);
      }
    }
  }

  /** The numeric value Python's `==` compares for int, float and bool. */
  function NumberOf(f: Field): Option<real> {
    match f
    case Int(i) => Some(i as real)
    case Real(r) => Some(r)
    case Bool(b) => Some(if b then 1.0 else 0.0)
    case _ => None
  }

  /** Python's `==` on these values: numbers compare across int, float and bool,
      lists compare element-wise, other kinds never equal one another. */
  predicate PyEq(a: Field, b: Field)
    decreases a
  {
    if NumberOf(a).Some? && NumberOf(b).Some? then NumberOf(a) == NumberOf(b)
    else match (a, b)
      case (Text(s), Text(t)) => s == t
      case (Null, Null) => true
      case (List(xs), List(ys)) =>
        |xs| == |ys| && forall i :: 0 <= i < |xs| ==> PyEq(xs[i], ys[i])
      case _ => false
  }

  lemma {:induction false} PyEqReflexive(a: Field)
    ensures PyEq(a, a)
    decreases a
  {
    match a
    case List(xs) =>
      forall i | 0 <= i < |xs| ensures PyEq(xs[i], xs[i]) {
        PyEqReflexive(xs[i]);
      }
    case _ =>
  }

  /** Python truthiness: the values for which `x or 0` yields 0. */
  predicate Falsy(f: Field) {
    match f
    case Text(s) => s == ""
    case Int(i) => i == 0
    case Real(r) => r == 0.0
    case Bool(b) => !b
    case Null => true
    case List(xs) => xs == []
  }
}
