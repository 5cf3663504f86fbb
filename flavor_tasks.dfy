/** pumphouse/tasks/flavor.py: retrieve a flavor from the source, ensure it at the
    destination (find by name and verify field by field, or create it), and the
    builder that wires the two into a linear flow. */
module FlavorTasks {
  import opened Wrappers
  import opened Records
  import opened Flows
  import opened Nova

  // ---------------------------------------------------------------------------
  // verify: compare an existing destination flavor with the source record.

  datatype VerifyOutcome = Matches | Differs(key: string) | Missing(key: string)

  /** The keys `verify` does not compare. */
  predicate Skipped(key: string) {
    key == "links" || key == "id"
  }

  /** One step of `verify`: the destination entry (key, v) against the source
      record. A destination key the source lacks is Python's KeyError. */
  function CheckEntry(key: string, v: Field, src: Record): VerifyOutcome {
    if Skipped(key) then Matches
    else match Get(src, key)
      case None => Missing(key)
      case Some(w) => if PyEq(v, w) then Matches else Differs(key)
  }

  /** `verify`'s loop over the destination flavor's items, in order, stopping at
      the first entry that is missing from or differs from the source. */
  function Verify(dst: Record, src: Record): (r: VerifyOutcome)
    ensures r.Missing? ==> !Skipped(r.key) && Get(src, r.key).None?
    ensures r.Differs? ==> !Skipped(r.key) && Get(src, r.key).Some?
    decreases |dst|
  {
    if dst == [] then Matches
    else
      var c := CheckEntry(dst[0].0, dst[0].1, src);
      if c == Matches then Verify(dst[1..], src) else c
  }

  /** verify succeeds iff every destination entry other than `links` and `id` has
      an equal value under the same key in the source. */
  lemma {:induction false} VerifyMatchesIff(dst: Record, src: Record)
    ensures Verify(dst, src) == Matches <==>
      forall i :: 0 <= i < |dst| && !Skipped(dst[i].0) ==>
        Get(src, dst[i].0).Some? && PyEq(dst[i].1, Get(src, dst[i].0).value)
    decreases |dst|
  {
    if dst != [] {
      VerifyMatchesIff(dst[1..], src);
      assert forall i :: 1 <= i < |dst| ==> dst[i] == dst[1..][i - 1];
    }
  }

  /** When verify fails, it names the first destination key, in iteration
      order, that is missing from the source or whose value differs. */
  lemma {:induction false} VerifyNamesFirstFailure(dst: Record, src: Record)
    requires Verify(dst, src) != Matches
    ensures exists i :: (0 <= i < |dst| &&
      Verify(dst, src) == CheckEntry(dst[i].0, dst[i].1, src) &&
      Verify(dst, src).key == dst[i].0 && !Skipped(dst[i].0) &&
      forall j :: 0 <= j < i ==> CheckEntry(dst[j].0, dst[j].1, src) == Matches)
    decreases |dst|
  {
    if CheckEntry(dst[0].0, dst[0].1, src) == Matches {
      VerifyNamesFirstFailure(dst[1..], src);
      var i :| 0 <= i < |dst[1..]| &&
        Verify(dst[1..], src) == CheckEntry(dst[1..][i].0, dst[1..][i].1, src) &&
        Verify(dst[1..], src).key == dst[1..][i].0 && !Skipped(dst[1..][i].0) &&
        forall j :: 0 <= j < i ==> CheckEntry(dst[1..][j].0, dst[1..][j].1, src) == Matches;
      assert forall j :: 1 <= j < i + 1 ==> dst[j] == dst[1..][j - 1];
      assert Verify(dst, src) == CheckEntry(dst[i + 1].0, dst[i + 1].1, src);
    } else {
      assert Verify(dst, src) == CheckEntry(dst[0].0, dst[0].1, src);
    }
  }

  /** Keys present only in the source are never compared: two source records
      that agree on the destination's keys verify alike. */
  lemma {:induction false} VerifyIgnoresSourceOnlyKeys(dst: Record, src: Record, src': Record)
    requires forall i :: 0 <= i < |dst| ==> Get(src, dst[i].0) == Get(src', dst[i].0)
    ensures Verify(dst, src) == Verify(dst, src')
    decreases |dst|
  {
    if dst != [] {
      assert forall i :: 1 <= i < |dst| ==> dst[i] == dst[1..][i - 1];
      VerifyIgnoresSourceOnlyKeys(dst[1..], src, src');
    }
  }

  // ---------------------------------------------------------------------------
  // execute's search: the first destination flavor with the source's name.

  predicate NameMatches(flavor: Record, name: Field) {
    Get(flavor, NAME_KEY).Some? && PyEq(Get(flavor, NAME_KEY).value, name)
  }

  function FindByName(flavors: seq<Record>, name: Field): (r: Option<nat>)
    ensures r.Some? ==>
      r.value < |flavors| && NameMatches(flavors[r.value], name) &&
      forall j :: 0 <= j < r.value ==> !NameMatches(flavors[j], name)
    ensures r.None? ==> forall j :: 0 <= j < |flavors| ==> !NameMatches(flavors[j], name)
  {
    if flavors == [] then None
    else if NameMatches(flavors[0], name) then Some(0)
    else
      assert forall j :: 1 <= j < |flavors| ==> flavors[j] == flavors[1..][j - 1];
      match FindByName(flavors[1..], name)
      case None => None
      case Some(i) => Some(i + 1)
  }

  // ---------------------------------------------------------------------------
  // create_flavor's argument mapping.

  /** The fields `create_flavor` reads, in the order Python evaluates them:
      `id` first (only when the id is preserved), then the call's arguments. */
  function CreateKeys(preservId: bool): seq<string> {
    (if preservId then [ID_KEY] else []) +
    [NAME_KEY, RAM_KEY, VCPUS_KEY, DISK_KEY, EPHEMERAL_KEY, SWAP_KEY, RXTX_KEY, IS_PUBLIC_KEY]
  }

  /** `info[k]` for each key in turn; the first missing key is the KeyError. */
  function Lookup(info: Record, keys: seq<string>): (r: Result<seq<Field>, string>)
    ensures r.Success? <==> forall i :: 0 <= i < |keys| ==> Get(info, keys[i]).Some?
    ensures r.Success? ==>
      |r.value| == |keys| && forall i :: 0 <= i < |keys| ==> Get(info, keys[i]) == Some(r.value[i])
    ensures r.Failure? ==>
      exists i :: (0 <= i < |keys| && keys[i] == r.error && Get(info, keys[i]).None? &&
        forall j :: 0 <= j < i ==> Get(info, keys[j]).Some?)
  {
    if keys == [] then Success([])
    else match Get(info, keys[0])
      case None => Failure(keys[0])
      case Some(v) =>
        assert forall i :: 1 <= i < |keys| ==> keys[i] == keys[1..][i - 1];
        match Lookup(info, keys[1..])
        case Failure(k) =>
          assert exists i :: (0 <= i < |keys| && keys[i] == k && Get(info, keys[i]).None? &&
            forall j :: 0 <= j < i ==> Get(info, keys[j]).Some?);
          Failure(k)
        case Success(vs) => Success([v] + vs)
  }

  /** `swap or 0` */
  function SwapOrZero(swap: Field): Field {
    if Falsy(swap) then Int(0) else swap
  }

  /** `swap or 0` is still `==` to the swap it was given when that swap is truthy
      or a number: a falsy number is a zero, and `0 == 0.0 == False`. */
  lemma SwapOrZeroEqualsNumber(swap: Field)
    requires !Falsy(swap) || NumberOf(swap).Some?
    ensures PyEq(SwapOrZero(swap), swap)
  {
    PyEqReflexive(swap);
  }

  /** The arguments `create_flavor` passes to `nova.flavors.create`: the source
      id only when `preservId`, otherwise "auto"; a falsy swap becomes 0; the
      other fields verbatim. */
  function CreateArgs(info: Record, preservId: bool): (r: Result<FlavorArgs, string>)
    ensures r.Success? <==> forall k :: k in CreateKeys(preservId) ==> Get(info, k).Some?
    ensures r.Failure? ==> r.error in CreateKeys(preservId) && Get(info, r.error).None?
    ensures r.Failure? ==>
      exists i :: (0 <= i < |CreateKeys(preservId)| && CreateKeys(preservId)[i] == r.error &&
        forall j :: 0 <= j < i ==> Get(info, CreateKeys(preservId)[j]).Some?)
    ensures r.Success? ==>
      && r.value.flavorId == (if preservId then Get(info, ID_KEY).value else AUTO)
      && Get(info, NAME_KEY) == Some(r.value.name)
      && Get(info, RAM_KEY) == Some(r.value.ram)
      && Get(info, VCPUS_KEY) == Some(r.value.vcpus)
      && Get(info, DISK_KEY) == Some(r.value.disk)
      && Get(info, EPHEMERAL_KEY) == Some(r.value.ephemeral)
      && Get(info, SWAP_KEY).Some? && r.value.swap == SwapOrZero(Get(info, SWAP_KEY).value)
      && Get(info, RXTX_KEY) == Some(r.value.rxtxFactor)
      && Get(info, IS_PUBLIC_KEY) == Some(r.value.isPublic)
  {
    var keys := CreateKeys(preservId);
    var o := if preservId then 1 else 0;
    assert forall i :: 0 <= i < 8 ==> keys[o + i] == CreateKeys(false)[i];
    match Lookup(info, keys)
    case Failure(k) =>
      assert k in keys && Get(info, k).None?;
      Failure(k)
    case Success(vs) =>
      Success(FlavorArgs(
        name := vs[o],
        ram := vs[o + 1],
        vcpus := vs[o + 2],
        disk := vs[o + 3],
        flavorId := if preservId then vs[0] else AUTO,
        ephemeral := vs[o + 4],
        swap := SwapOrZero(vs[o + 5]),
        rxtxFactor := vs[o + 6],
        isPublic := vs[o + 7]))
  }

  // ---------------------------------------------------------------------------
  // EnsureFlavor.execute

  datatype EnsureOutcome =
    | Verified(rec: Record)
    | Created(rec: Record)
    | Conflict(key: string)
    | MissingKey(key: string)

  /** What `EnsureFlavor.execute` returns against the destination's flavor list
      `flavors`; `autoId` is the id Nova would assign to a new flavor. A source
      record without a name fails with KeyError either way: in the loop when the
      list is non-empty, in `create_flavor` when it is empty. */
  function Ensure(flavors: seq<Record>, info: Record, autoId: string): (e: EnsureOutcome)
    ensures e.MissingKey? ==> Get(info, e.key).None?
    ensures e.Verified? ==> e.rec in flavors
    ensures e.Created? ==> Get(e.rec, NAME_KEY) == Get(info, NAME_KEY)
  {
    match Get(info, NAME_KEY)
    case None => MissingKey(NAME_KEY)
    case Some(name) =>
      match FindByName(flavors, name)
      case Some(i) =>
        (match Verify(flavors[i], info)
         case Matches => Verified(flavors[i])
         case Differs(k) => Conflict(k)
         case Missing(k) => MissingKey(k))
      case None =>
        (match CreateArgs(info, false)
         case Failure(k) => MissingKey(k)
         case Success(args) => Created(FlavorRecord(args, autoId)))
  }

  /** A name match decides the outcome: the verification of the first
      destination flavor with the source's name, and never a creation. On
      success the destination's record is returned, not the source's. */
  lemma EnsureOnNameMatch(flavors: seq<Record>, info: Record, autoId: string, i: nat)
    requires Get(info, NAME_KEY).Some? && i < |flavors|
    requires NameMatches(flavors[i], Get(info, NAME_KEY).value)
    requires forall j :: 0 <= j < i ==> !NameMatches(flavors[j], Get(info, NAME_KEY).value)
    ensures !Ensure(flavors, info, autoId).Created?
    ensures Ensure(flavors, info, autoId).Verified? <==> Verify(flavors[i], info) == Matches
    ensures Ensure(flavors, info, autoId).Verified? ==> Ensure(flavors, info, autoId).rec == flavors[i]
    ensures Ensure(flavors, info, autoId).Conflict? <==> Verify(flavors[i], info).Differs?
    ensures Ensure(flavors, info, autoId) == match Verify(flavors[i], info)
      case Matches => Verified(flavors[i])
      case Differs(k) => Conflict(k)
      case Missing(k) => MissingKey(k)
  {
    var found := FindByName(flavors, Get(info, NAME_KEY).value);
    assert found == Some(i);
  }

  /** Creation happens exactly when no destination flavor has the source's name
      (and the source has every field `create_flavor` reads); the created
      record never keeps the source id. */
  lemma EnsureCreatesIffNoMatch(flavors: seq<Record>, info: Record, autoId: string)
    ensures Ensure(flavors, info, autoId).Created? <==>
      && Get(info, NAME_KEY).Some?
      && (forall j :: 0 <= j < |flavors| ==> !NameMatches(flavors[j], Get(info, NAME_KEY).value))
      && CreateArgs(info, false).Success?
    ensures Ensure(flavors, info, autoId).Created? ==>
      Get(Ensure(flavors, info, autoId).rec, ID_KEY) == Some(Text(autoId))
  {
    if Get(info, NAME_KEY).Some? {
      var name := Get(info, NAME_KEY).value;
      var found := FindByName(flavors, name);
      if found.Some? {
        assert NameMatches(flavors[found.value], name);
      } else if CreateArgs(info, false).Success? {
        assert CreateArgs(info, false).value.flavorId == AUTO;
      }
    }
  }

  /** The record Nova makes from the create arguments verifies against the
      source record it was made from, and carries its name, when the source's swap
      is truthy or a number (a falsy number is replaced by `0`, which is still
      `==` to it). */
  lemma CreatedRecordVerifies(info: Record, autoId: string)
    requires CreateArgs(info, false).Success?
    requires !Falsy(Get(info, SWAP_KEY).value) || NumberOf(Get(info, SWAP_KEY).value).Some?
    ensures NameMatches(FlavorRecord(CreateArgs(info, false).value, autoId), Get(info, NAME_KEY).value)
    ensures Verify(FlavorRecord(CreateArgs(info, false).value, autoId), info) == Matches
  {
    var args := CreateArgs(info, false).value;
    var rec := FlavorRecord(args, autoId);
    PyEqReflexive(args.name);
    assert Get(rec, NAME_KEY) == Some(args.name);
    forall k | 0 <= k < |rec| && !Skipped(rec[k].0)
      ensures Get(info, rec[k].0).Some? && PyEq(rec[k].1, Get(info, rec[k].0).value)
    {
      PyEqReflexive(rec[k].1);
      if k == 1 { assert rec[k] == (NAME_KEY, args.name); }
      else if k == 2 { assert rec[k] == (RAM_KEY, args.ram); }
      else if k == 3 { assert rec[k] == (VCPUS_KEY, args.vcpus); }
      else if k == 4 { assert rec[k] == (DISK_KEY, args.disk); }
      else if k == 5 { assert rec[k] == (EPHEMERAL_KEY, args.ephemeral); }
      else if k == 6 {
        assert rec[k] == (SWAP_KEY, args.swap);
        SwapOrZeroEqualsNumber(Get(info, SWAP_KEY).value);
      }
      else if k == 7 { assert rec[k] == (RXTX_KEY, args.rxtxFactor); }
      else { assert k == 8 && rec[k] == (IS_PUBLIC_KEY, args.isPublic); }
    }
    VerifyMatchesIff(rec, info);
  }

  /** Ensure is idempotent: once it has created a flavor from a source whose swap
      is truthy or a number, running it again against the grown list finds and
      verifies that flavor instead of creating another. */
  lemma EnsureAgainVerifies(flavors: seq<Record>, info: Record, autoId: string, autoId': string)
    requires Ensure(flavors, info, autoId).Created?
    requires !Falsy(Get(info, SWAP_KEY).value) || NumberOf(Get(info, SWAP_KEY).value).Some?
    ensures Ensure(flavors + [Ensure(flavors, info, autoId).rec], info, autoId') ==
      Verified(Ensure(flavors, info, autoId).rec)
  {
    var name := Get(info, NAME_KEY).value;
    var rec := FlavorRecord(CreateArgs(info, false).value, autoId);
    var grown := flavors + [rec];
    CreatedRecordVerifies(info, autoId);
    assert FindByName(flavors, name).None?;
    assert forall j :: 0 <= j < |flavors| ==> grown[j] == flavors[j];
    assert grown[|flavors|] == rec;
    assert FindByName(grown, name) == Some(|flavors|);
  }

  // ---------------------------------------------------------------------------
  // The tasks, as operations on a cloud.

  /** `RetrieveFlavor.execute`: the source flavor's record. */
  method RetrieveFlavor(cloud: Cloud, flavorId: string) returns (r: Result<Record, Error>)
    modifies cloud`calls
    ensures cloud.calls == old(cloud.calls) + [FlavorsGet(flavorId)]
    ensures r == match FindFlavor(cloud.flavors, flavorId)
                 case Some(rec) => Success(rec)
                 case None => Failure(NotFound(flavorId))
    ensures r.Success? ==> r.value in cloud.flavors && Get(r.value, ID_KEY) == Some(Text(flavorId))
  {
    r := cloud.GetFlavor(flavorId);
  }

  /** `EnsureFlavor.create_flavor`: create the flavor and emit a "create" event. */
  method CreateFlavor(cloud: Cloud, events: EventSink, info: Record, preservId: bool, autoId: string)
    returns (r: Result<Record, string>)
    modifies cloud`calls, cloud`flavors, events
    ensures CreateArgs(info, preservId).Failure? ==>
      && r == Failure(CreateArgs(info, preservId).error)
      && cloud.flavors == old(cloud.flavors) && cloud.calls == old(cloud.calls)
      && events.emitted == old(events.emitted)
    ensures CreateArgs(info, preservId).Success? ==>
      var args := CreateArgs(info, preservId).value;
      var rec := FlavorRecord(args, autoId);
      && r == Success(rec)
      && cloud.flavors == old(cloud.flavors) + [rec]
      && cloud.calls == old(cloud.calls) + [FlavorsCreate(args)]
      && events.emitted == old(events.emitted) + [FlavorCreated(AssignedId(args, autoId), rec)]
  {
    var args :- CreateArgs(info, preservId);
    var rec := cloud.CreateFlavor(args, autoId);
    events.Emit(FlavorCreated(AssignedId(args, autoId), rec));
    r := Success(rec);
  }

  /** `EnsureFlavor.execute`: list the destination's flavors, verify the first
      one named like the source, or else create it (never preserving the id).
      Creation, and with it the "create" event, happens only on that path. */
  method EnsureFlavor(cloud: Cloud, events: EventSink, info: Record, autoId: string)
    returns (out: EnsureOutcome)
    modifies cloud`calls, cloud`flavors, events
    ensures out == Ensure(old(cloud.flavors), info, autoId)
    ensures out.Created? ==>
      var args := CreateArgs(info, false).value;
      && cloud.flavors == old(cloud.flavors) + [out.rec]
      && cloud.calls == old(cloud.calls) + [FlavorsList, FlavorsCreate(args)]
      && events.emitted == old(events.emitted) + [FlavorCreated(AssignedId(args, autoId), out.rec)]
    ensures !out.Created? ==>
      && cloud.flavors == old(cloud.flavors)
      && cloud.calls == old(cloud.calls) + [FlavorsList]
      && events.emitted == old(events.emitted)
  {
    var flavors := cloud.ListFlavors();
    var i := 0;
    while i < |flavors|
      invariant 0 <= i <= |flavors|
      invariant flavors == cloud.flavors == old(cloud.flavors)
      invariant cloud.calls == old(cloud.calls) + [FlavorsList]
      invariant events.emitted == old(events.emitted)
      invariant i > 0 ==> Get(info, NAME_KEY).Some?
      invariant forall j :: 0 <= j < i ==> !NameMatches(flavors[j], Get(info, NAME_KEY).value)
    {
      var name := Get(info, NAME_KEY);
      if name.None? {
        return MissingKey(NAME_KEY);
      }
      if NameMatches(flavors[i], name.value) {
        EnsureOnNameMatch(flavors, info, autoId, i);
        out := match Verify(flavors[i], info)
               case Matches => Verified(flavors[i])
               case Differs(k) => Conflict(k)
               case Missing(k) => MissingKey(k);
        return;
      }
      i := i + 1;
    }
    var created := CreateFlavor(cloud, events, info, false, autoId);
    out := match created
           case Success(rec) => Created(rec)
           case Failure(k) => MissingKey(k);
  }

  // ---------------------------------------------------------------------------
  // migrate_flavor

  function FlavorBinding(flavorId: string): string { "flavor-" + flavorId }
  function FlavorRetrieve(flavorId: string): string { FlavorBinding(flavorId) + "-retrieve" }
  function FlavorEnsure(flavorId: string): string { FlavorBinding(flavorId) + "-ensure" }

  function RetrieveFlavorSpec(flavorId: string): TaskSpec {
    TaskSpec(FlavorBinding(flavorId), RetrieveFlavorTask, Src,
             [FlavorRetrieve(flavorId)], Some(FlavorBinding(flavorId)))
  }

  function EnsureFlavorSpec(flavorId: string): TaskSpec {
    TaskSpec(FlavorEnsure(flavorId), EnsureFlavorTask, Dst,
             [FlavorBinding(flavorId)], Some(FlavorEnsure(flavorId)))
  }

  /** The tasks `migrate_flavor` adds, in order. */
  function FlavorFlow(flavorId: string): seq<TaskSpec> {
    [RetrieveFlavorSpec(flavorId), EnsureFlavorSpec(flavorId)]
  }

  /** `migrate_flavor`: the linear flow Retrieve(src) then Ensure(dst), and the
      store seeded with `flavor-{id}-retrieve`, its only write. */
  method MigrateFlavor(store: Store, flavorId: string) returns (flow: FlowBuilder)
    modifies store
    ensures fresh(flow) && flow.pattern == Linear && flow.name == "migrate-flavor-" + flavorId
    ensures flow.items == Atoms(FlavorFlow(flavorId))
    ensures store.entries == old(store.entries)[FlavorRetrieve(flavorId) := Ident(flavorId)]
  {
    flow := new FlowBuilder(Linear, "migrate-flavor-" + flavorId);
    flow.Add([Atom(RetrieveFlavorSpec(flavorId)), Atom(EnsureFlavorSpec(flavorId))]);
    store.Set(FlavorRetrieve(flavorId), Ident(flavorId));
  }

  /** The flavor flow reads only its seed and what its first task provides;
      names and providers are distinct; it ends by providing the ensure binding. */
  lemma FlavorFlowWellFormed(flavorId: string)
    ensures var f := FlavorFlow(flavorId);
      && WellFormed(f, {FlavorRetrieve(flavorId)}, {})
      && DistinctNames(f) && SingleProviders(f)
      && NeverProvided(f, FlavorRetrieve(flavorId))
      && f[|f| - 1].output == Some(FlavorEnsure(flavorId))
  {
    var f := FlavorFlow(flavorId);
    PrefixCancels(FlavorBinding(flavorId));
    assert f[0].output == Some(FlavorBinding(flavorId));
  }
}
