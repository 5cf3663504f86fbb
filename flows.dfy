/** Task descriptors, flows and the binding store, as the flow builders of
    pumphouse/tasks construct them. The engine that runs flows (the external
    taskflow library) is not modelled; a flow here is what a builder hands to it. */
module Flows {
  import opened Wrappers
  import opened Records

  /** The cloud handles a task was constructed with (BaseCloudTask holds one,
      BaseCloudsTask two, a sync point none). */
  datatype Ctx = NoCloud | Src | Dst | SrcAndDst

  /** The task classes the builders instantiate. */
  datatype Kind =
    | SyncPointTask
    | StartEventTask
    | RetrieveServerTask
    | SuspendServerTask
    | BootServerFromImageTask
    | TerminateServerTask
    | SuccessEventTask
    | RetrieveFlavorTask
    | EnsureFlavorTask

  /** One task as the engine sees it: its name, its class, the cloud it talks to,
      the bindings bound to its `execute` arguments (`rebind` / `requires`), in
      order, and the binding its result is stored under (`provides`). */
  datatype TaskSpec = TaskSpec(
    name: string,
    kind: Kind,
    ctx: Ctx,
    inputs: seq<string>,
    output: Option<string>)

  datatype Pattern = Linear | Unordered | Graph

  /** A task, or a taskflow pattern holding tasks and nested flows in the order
      they were added. */
  datatype Flow = Atom(task: TaskSpec) | Composite(pattern: Pattern, name: string, items: seq<Flow>)

  /** What the store holds: the ids the builders seed, or records tasks return. */
  datatype Value = Ident(id: string) | Info(rec: Record)

  function Atoms(ts: seq<TaskSpec>): seq<Flow> {
    seq(|ts|, i requires 0 <= i < |ts| => Atom(ts[i]))
  }

  /** A `linear_flow.Flow`, `unordered_flow.Flow` or `graph_flow.Flow` under
      construction: `add` appends to it in place. */
  class FlowBuilder {
    const pattern: Pattern
    const name: string
    var items: seq<Flow>

    constructor (pattern: Pattern, name: string)
      ensures this.pattern == pattern && this.name == name && items == []
    {
      this.pattern := pattern;
      this.name := name;
      items := [];
    }

    /** `flow.add(*fs)` */
    method Add(fs: seq<Flow>)
      modifies this
      ensures items == old(items) + fs
    {
      items := items + fs;
    }

    /** The flow as it stands. */
    function AsFlow(): Flow
      reads this
    {
      Composite(pattern, name, items)
    }
  }

  /** The binding store (`context.store`, a dict written in place). */
  class Store {
    var entries: map<string, Value>

    constructor (entries: map<string, Value>)
      ensures this.entries == entries
    {
      this.entries := entries;
    }

    /** `store[key] = v` */
    method Set(key: string, v: Value)
      modifies this
      ensures entries == old(entries)[key := v]
    {
      entries := entries[key := v];
    }
  }

  /** Some task before position `i` provides binding `b`. */
  predicate ProvidedBefore(flow: seq<TaskSpec>, i: int, b: string)
    requires 0 <= i <= |flow|
  {
    exists j :: 0 <= j < i && flow[j].output == Some(b)
  }

  /** Every binding a task of a linear flow reads is seeded into the store by the
      builder, supplied from outside the flow, or provided by an earlier task. */
  predicate WellFormed(flow: seq<TaskSpec>, seeded: set<string>, external: set<string>) {
    forall i, b :: 0 <= i < |flow| && b in flow[i].inputs ==>
      b in seeded || b in external || ProvidedBefore(flow, i, b)
  }

  /** The bindings a leading sync point waits for (none without one). */
  function Gated(flow: seq<TaskSpec>): set<string> {
    if |flow| > 0 && flow[0].kind == SyncPointTask then set b | b in flow[0].inputs else {}
  }

  predicate DistinctNames(flow: seq<TaskSpec>) {
    forall i, j :: 0 <= i < j < |flow| ==> flow[i].name != flow[j].name
  }

  /** No binding is provided by two tasks. */
  predicate SingleProviders(flow: seq<TaskSpec>) {
    forall i, j :: 0 <= i < j < |flow| && flow[i].output.Some? ==> flow[i].output != flow[j].output
  }

  /** No task of the flow provides `b`: it has to come from elsewhere. */
  predicate NeverProvided(flow: seq<TaskSpec>, b: string) {
    forall i :: 0 <= i < |flow| ==> flow[i].output != Some(b)
  }

  /** Running flow `g` after flow `f`: the bindings `g` expects from outside may
      be provided by `f` instead. */
  lemma SequenceWellFormed(f: seq<TaskSpec>, g: seq<TaskSpec>, seeded: set<string>, external: set<string>,
                           fSeeded: set<string>, fExternal: set<string>, gSeeded: set<string>, gExternal: set<string>)
    requires WellFormed(f, fSeeded, fExternal) && WellFormed(g, gSeeded, gExternal)
    requires fSeeded <= seeded && gSeeded <= seeded && fExternal <= external
    requires forall b :: b in gExternal ==> b in external || ProvidedBefore(f, |f|, b)
    ensures WellFormed(f + g, seeded, external)
  {
    var fg := f + g;
    forall i, b | 0 <= i < |fg| && b in fg[i].inputs
      ensures b in seeded || b in external || ProvidedBefore(fg, i, b)
    {
      if i < |f| {
        assert fg[i] == f[i];
        if ProvidedBefore(f, i, b) {
          var j :| 0 <= j < i && f[j].output == Some(b);
          assert fg[j] == f[j];
        }
      } else {
        var k := i - |f|;
        assert fg[i] == g[k];
        if b in gExternal && b !in external {
          var j :| 0 <= j < |f| && f[j].output == Some(b);
          assert fg[j] == f[j];
        } else if ProvidedBefore(g, k, b) {
          var j :| 0 <= j < k && g[j].output == Some(b);
          assert fg[j + |f|] == g[j];
        }
      }
    }
  }

  /** Binding names built on one prefix are equal only if their suffixes are. */
  lemma {:induction false} PrefixCancels(p: string)
    ensures forall a, b :: p + a == p + b ==> a == b
  {
    forall a, b | p + a == p + b ensures a == b {
      assert a == (p + a)[|p|..];
      assert b == (p + b)[|p|..];
    }
  }

  /** Names whose prefixes differ at some position are different. */
  lemma {:induction false} PrefixesDiverge(p: string, q: string, k: nat)
    requires k < |p| && k < |q| && p[k] != q[k]
    ensures forall x, y :: p + x != q + y
  {
    forall x, y ensures p + x != q + y {
      assert (p + x)[k] == p[k];
      assert (q + y)[k] == q[k];
    }
  }
}
