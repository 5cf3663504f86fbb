/** pumphouse/tasks/server.py: the server tasks, as operations on a cloud, and the
    two builders that wire them into a linear flow ("image" and "snapshot"). */
module ServerTasks {
  import opened Wrappers
  import opened Records
  import opened Flows
  import opened Nova

  // ---------------------------------------------------------------------------
  // Binding and task names: fixed functions of the ids.

  function ServerBinding(serverId: string): string { "server-" + serverId }
  function ServerSync(serverId: string): string { ServerBinding(serverId) + "-sync" }
  function ServerRetrieve(serverId: string): string { ServerBinding(serverId) + "-retrieve" }
  function ServerSuspend(serverId: string): string { ServerBinding(serverId) + "-suspend" }
  function ServerBoot(serverId: string): string { ServerBinding(serverId) + "-boot" }
  function ServerTerminate(serverId: string): string { ServerBinding(serverId) + "-terminate" }
  function ServerStartEvent(serverId: string): string { ServerBinding(serverId) + "-start-event" }
  function ServerFinishEvent(serverId: string): string { ServerBinding(serverId) + "-finish-event" }
  function ImageEnsure(imageId: string): string { "image-" + imageId + "-ensure" }
  /** The snapshot strategy keys its image binding by the server id. */
  function SnapshotEnsure(serverId: string): string { "snapshot-" + serverId + "-ensure" }
  function FlavorEnsure(flavorId: string): string { "flavor-" + flavorId + "-ensure" }
  function FlowName(serverId: string): string { "migrate-server-" + serverId }

  // ---------------------------------------------------------------------------
  // The task descriptors the builders add. Note that the suspend task is named
  // after the retrieve binding and the retrieve task after the server binding.

  function SyncPointSpec(serverId: string, imageEnsure: string, flavorEnsure: string): TaskSpec {
    TaskSpec(ServerSync(serverId), SyncPointTask, NoCloud, [imageEnsure, flavorEnsure], None)
  }

  function StartEventSpec(serverId: string): TaskSpec {
    TaskSpec(ServerStartEvent(serverId), StartEventTask, Src, [ServerBinding(serverId)], None)
  }

  function RetrieveServerSpec(serverId: string): TaskSpec {
    TaskSpec(ServerBinding(serverId), RetrieveServerTask, Src,
             [ServerBinding(serverId)], Some(ServerRetrieve(serverId)))
  }

  function SuspendServerSpec(serverId: string): TaskSpec {
    TaskSpec(ServerRetrieve(serverId), SuspendServerTask, Src,
             [ServerRetrieve(serverId)], Some(ServerSuspend(serverId)))
  }

  function BootServerSpec(serverId: string, imageEnsure: string, flavorEnsure: string): TaskSpec {
    TaskSpec(ServerBoot(serverId), BootServerFromImageTask, Dst,
             [ServerSuspend(serverId), imageEnsure, flavorEnsure], Some(ServerBoot(serverId)))
  }

  function TerminateServerSpec(serverId: string): TaskSpec {
    TaskSpec(ServerTerminate(serverId), TerminateServerTask, Src, [ServerSuspend(serverId)], None)
  }

  function SuccessEventSpec(serverId: string): TaskSpec {
    TaskSpec(ServerFinishEvent(serverId), SuccessEventTask, SrcAndDst,
             [ServerRetrieve(serverId), ServerBoot(serverId)], None)
  }

  /** The tasks `reprovision_server` adds, in order. */
  function ImageFlow(serverId: string, imageId: string, flavorId: string): seq<TaskSpec> {
    var imageEnsure, flavorEnsure := ImageEnsure(imageId), FlavorEnsure(flavorId);
    [ SyncPointSpec(serverId, imageEnsure, flavorEnsure),
      RetrieveServerSpec(serverId),
      SuspendServerSpec(serverId),
      BootServerSpec(serverId, imageEnsure, flavorEnsure),
      TerminateServerSpec(serverId) ]
  }

  /** The tasks `reprovision_server_with_snapshot` adds, in order. */
  function SnapshotFlow(serverId: string, flavorId: string): seq<TaskSpec> {
    var imageEnsure, flavorEnsure := SnapshotEnsure(serverId), FlavorEnsure(flavorId);
    [ SyncPointSpec(serverId, imageEnsure, flavorEnsure),
      StartEventSpec(serverId),
      RetrieveServerSpec(serverId),
      SuspendServerSpec(serverId),
      BootServerSpec(serverId, imageEnsure, flavorEnsure),
      TerminateServerSpec(serverId),
      SuccessEventSpec(serverId) ]
  }

  // ---------------------------------------------------------------------------
  // The builders.

  /** `reprovision_server`: a linear flow of the image strategy, and the store
      seeded with the server id. The store object is returned as it was given. */
  method ReprovisionServer(store: Store, serverId: string, imageId: string, flavorId: string)
    returns (flow: FlowBuilder, sameStore: Store)
    modifies store
    ensures fresh(flow) && flow.pattern == Linear && flow.name == FlowName(serverId)
    ensures flow.items == Atoms(ImageFlow(serverId, imageId, flavorId))
    ensures store.entries == old(store.entries)[ServerBinding(serverId) := Ident(serverId)]
    ensures sameStore == store
  {
    var imageEnsure, flavorEnsure := ImageEnsure(imageId), FlavorEnsure(flavorId);
    flow := new FlowBuilder(Linear, FlowName(serverId));
    flow.Add([Atom(SyncPointSpec(serverId, imageEnsure, flavorEnsure))]);
    flow.Add([Atom(RetrieveServerSpec(serverId))]);
    flow.Add([Atom(SuspendServerSpec(serverId))]);
    flow.Add([Atom(BootServerSpec(serverId, imageEnsure, flavorEnsure))]);
    flow.Add([Atom(TerminateServerSpec(serverId))]);
    store.Set(ServerBinding(serverId), Ident(serverId));
    sameStore := store;
  }

  /** `reprovision_server_with_snapshot`: the snapshot strategy's linear flow. */
  method ReprovisionServerWithSnapshot(store: Store, serverId: string, flavorId: string)
    returns (flow: FlowBuilder, sameStore: Store)
    modifies store
    ensures fresh(flow) && flow.pattern == Linear && flow.name == FlowName(serverId)
    ensures flow.items == Atoms(SnapshotFlow(serverId, flavorId))
    ensures store.entries == old(store.entries)[ServerBinding(serverId) := Ident(serverId)]
    ensures sameStore == store
  {
    var imageEnsure, flavorEnsure := SnapshotEnsure(serverId), FlavorEnsure(flavorId);
    flow := new FlowBuilder(Linear, FlowName(serverId));
    flow.Add([Atom(SyncPointSpec(serverId, imageEnsure, flavorEnsure))]);
    flow.Add([Atom(StartEventSpec(serverId))]);
    flow.Add([Atom(RetrieveServerSpec(serverId))]);
    flow.Add([Atom(SuspendServerSpec(serverId))]);
    flow.Add([Atom(BootServerSpec(serverId, imageEnsure, flavorEnsure))]);
    flow.Add([Atom(TerminateServerSpec(serverId))]);
    flow.Add([Atom(SuccessEventSpec(serverId))]);
    store.Set(ServerBinding(serverId), Ident(serverId));
    sameStore := store;
  }

  // ---------------------------------------------------------------------------
  // Properties of the built flows.

  /** The image flow is SyncPoint, RetrieveServer, SuspendServer,
      BootServerFromImage, TerminateServer, against those clouds. */
  lemma ImageFlowShape(serverId: string, imageId: string, flavorId: string)
    ensures var f := ImageFlow(serverId, imageId, flavorId);
      && |f| == 5
      && f[0].kind == SyncPointTask && f[0].ctx == NoCloud
      && f[1].kind == RetrieveServerTask && f[1].ctx == Src
      && f[2].kind == SuspendServerTask && f[2].ctx == Src
      && f[3].kind == BootServerFromImageTask && f[3].ctx == Dst
      && f[4].kind == TerminateServerTask && f[4].ctx == Src
      && f[0].inputs == [ImageEnsure(imageId), FlavorEnsure(flavorId)]
  {
  }

  /** Every task-local name of one server differs from the others, and none of
      them is an image, snapshot or flavor binding. */
  lemma ServerNamesApart(serverId: string)
    ensures forall a, b :: ServerBinding(serverId) + a == ServerBinding(serverId) + b ==> a == b
    ensures forall x, y :: ServerBinding(serverId) + x != "image-" + y
    ensures forall x, y :: ServerBinding(serverId) + x != "snapshot-" + y
    ensures forall x, y :: ServerBinding(serverId) + x != "flavor-" + y
  {
    PrefixCancels(ServerBinding(serverId));
    forall x, y ensures ServerBinding(serverId) + x != "image-" + y {
      PrefixesDiverge(ServerBinding(serverId), "image-", 0);
    }
    forall x, y ensures ServerBinding(serverId) + x != "snapshot-" + y {
      PrefixesDiverge(ServerBinding(serverId), "snapshot-", 1);
    }
    forall x, y ensures ServerBinding(serverId) + x != "flavor-" + y {
      PrefixesDiverge(ServerBinding(serverId), "flavor-", 0);
    }
  }

  /** What tells a server's names apart: each is `server-{id}` followed by a
      suffix with a length of its own, except that `-sync` and `-boot` share a
      length and differ in their second character. */
  lemma NameLengths(serverId: string)
    ensures var n := |ServerBinding(serverId)|;
      && |ServerSync(serverId)| == n + 5 && |ServerStartEvent(serverId)| == n + 12
      && |ServerRetrieve(serverId)| == n + 9 && |ServerSuspend(serverId)| == n + 8
      && |ServerBoot(serverId)| == n + 5 && |ServerTerminate(serverId)| == n + 10
      && |ServerFinishEvent(serverId)| == n + 13
      && ServerSync(serverId)[n + 1] == 's' && ServerBoot(serverId)[n + 1] == 'b'
  {
    var p := ServerBinding(serverId);
    assert ServerSync(serverId)[|p| + 1] == "-sync"[1];
    assert ServerBoot(serverId)[|p| + 1] == "-boot"[1];
  }

  /** What tells a server's names from the other bindings: they start "se",
      while the image, snapshot and flavor bindings start "i", "sn" and "f". */
  lemma NameHeads(serverId: string, imageId: string, flavorId: string)
    ensures forall name :: (name in {ServerBinding(serverId), ServerRetrieve(serverId), ServerSuspend(serverId),
        ServerBoot(serverId)}) ==> |name| >= 2 && name[0] == 's' && name[1] == 'e'
    ensures ImageEnsure(imageId)[0] == 'i' && FlavorEnsure(flavorId)[0] == 'f'
    ensures |SnapshotEnsure(serverId)| >= 2 && SnapshotEnsure(serverId)[0] == 's' && SnapshotEnsure(serverId)[1] == 'n'
  {
    var p := ServerBinding(serverId);
    forall x: string ensures (p + x)[0] == 's' && (p + x)[1] == 'e' {
      assert (p + x)[0] == p[0] && (p + x)[1] == p[1];
    }
  }

  /** Every input of the image flow is the seeded server binding, an output of an
      earlier task, or one of the two ensure bindings the leading sync point waits
      for. */
  lemma ImageFlowWellFormed(serverId: string, imageId: string, flavorId: string)
    ensures Gated(ImageFlow(serverId, imageId, flavorId)) == {ImageEnsure(imageId), FlavorEnsure(flavorId)}
    ensures WellFormed(ImageFlow(serverId, imageId, flavorId), {ServerBinding(serverId)},
                       {ImageEnsure(imageId), FlavorEnsure(flavorId)})
  {
    var f := ImageFlow(serverId, imageId, flavorId);
    forall i, b | 0 <= i < |f| && b in f[i].inputs
      ensures b == ServerBinding(serverId) || b in {ImageEnsure(imageId), FlavorEnsure(flavorId)} ||
              ProvidedBefore(f, i, b)
    {
      if i == 2 {
        assert f[1].output == Some(b);
      } else if (i == 3 || i == 4) && b == ServerSuspend(serverId) {
        assert f[2].output == Some(b);
      }
    }
  }

  /** The three bindings the image flow takes from outside are provided by no
      task of the flow. */
  lemma ImageFlowExternals(serverId: string, imageId: string, flavorId: string)
    ensures NeverProvided(ImageFlow(serverId, imageId, flavorId), ServerBinding(serverId))
    ensures NeverProvided(ImageFlow(serverId, imageId, flavorId), ImageEnsure(imageId))
    ensures NeverProvided(ImageFlow(serverId, imageId, flavorId), FlavorEnsure(flavorId))
  {
    NameHeads(serverId, imageId, flavorId);
    NameLengths(serverId);
  }

  /** Within the image flow, task names are pairwise distinct and no binding is
      provided twice. */
  lemma ImageFlowDistinct(serverId: string, imageId: string, flavorId: string)
    ensures DistinctNames(ImageFlow(serverId, imageId, flavorId))
    ensures SingleProviders(ImageFlow(serverId, imageId, flavorId))
  {
    var f := ImageFlow(serverId, imageId, flavorId);
    var n := |ServerBinding(serverId)|;
    NameLengths(serverId);
    forall i, j | 0 <= i < j < |f| ensures f[i].name != f[j].name {
      if i == 0 && j == 3 {
        assert f[i].name[n + 1] != f[j].name[n + 1];
      } else {
        assert |f[i].name| != |f[j].name|;
      }
    }
  }

  /** The snapshot flow: the image binding is keyed by the server id, a start
      event reading the server binding follows the sync point, and a success
      event reading the retrieve and boot bindings comes last; in between are the
      same four tasks as in the image flow. */
  lemma SnapshotFlowShape(serverId: string, flavorId: string)
    ensures var f := SnapshotFlow(serverId, flavorId);
      && |f| == 7
      && f[0].kind == SyncPointTask
      && f[0].inputs == [SnapshotEnsure(serverId), FlavorEnsure(flavorId)]
      && f[1].kind == StartEventTask && f[1].ctx == Src && f[1].inputs == [ServerBinding(serverId)]
      && f[2] == RetrieveServerSpec(serverId) && f[3] == SuspendServerSpec(serverId)
      && f[4] == BootServerSpec(serverId, SnapshotEnsure(serverId), FlavorEnsure(flavorId))
      && f[5] == TerminateServerSpec(serverId)
      && f[6].kind == SuccessEventTask && f[6].ctx == SrcAndDst
      && f[6].inputs == [ServerRetrieve(serverId), ServerBoot(serverId)]
  {
  }

  /** The snapshot flow's inputs are seeded, provided earlier, or waited for by
      the sync point. */
  lemma SnapshotFlowWellFormed(serverId: string, flavorId: string)
    ensures Gated(SnapshotFlow(serverId, flavorId)) == {SnapshotEnsure(serverId), FlavorEnsure(flavorId)}
    ensures WellFormed(SnapshotFlow(serverId, flavorId), {ServerBinding(serverId)},
                       {SnapshotEnsure(serverId), FlavorEnsure(flavorId)})
  {
    var f := SnapshotFlow(serverId, flavorId);
    forall i, b | 0 <= i < |f| && b in f[i].inputs
      ensures b == ServerBinding(serverId) || b in {SnapshotEnsure(serverId), FlavorEnsure(flavorId)} ||
              ProvidedBefore(f, i, b)
    {
      if i == 3 {
        assert f[2].output == Some(b);
      } else if (i == 4 || i == 5) && b == ServerSuspend(serverId) {
        assert f[3].output == Some(b);
      } else if i == 6 && b == ServerRetrieve(serverId) {
        assert f[2].output == Some(b);
      } else if i == 6 {
        assert f[4].output == Some(b);
      }
    }
  }

  /** The three bindings the snapshot flow takes from outside are provided by no
      task of the flow. */
  lemma SnapshotFlowExternals(serverId: string, flavorId: string)
    ensures NeverProvided(SnapshotFlow(serverId, flavorId), ServerBinding(serverId))
    ensures NeverProvided(SnapshotFlow(serverId, flavorId), SnapshotEnsure(serverId))
    ensures NeverProvided(SnapshotFlow(serverId, flavorId), FlavorEnsure(flavorId))
  {
    NameHeads(serverId, serverId, flavorId);
    NameLengths(serverId);
  }

  lemma SnapshotFlowDistinct(serverId: string, flavorId: string)
    ensures DistinctNames(SnapshotFlow(serverId, flavorId))
    ensures SingleProviders(SnapshotFlow(serverId, flavorId))
  {
    var f := SnapshotFlow(serverId, flavorId);
    var n := |ServerBinding(serverId)|;
    NameLengths(serverId);
    forall i, j | 0 <= i < j < |f| ensures f[i].name != f[j].name {
      if i == 0 && j == 4 {
        assert f[i].name[n + 1] != f[j].name[n + 1];
      } else {
        assert |f[i].name| != |f[j].name|;
      }
    }
  }

  // ---------------------------------------------------------------------------
  // The tasks, as operations on a cloud.

  /** `RetrieveServer.execute`: the fetched server's record, unchanged. */
  method RetrieveServer(cloud: Cloud, serverId: string) returns (r: Result<ServerInfo, Error>)
    modifies cloud`calls
    ensures cloud.calls == old(cloud.calls) + [ServersGet(serverId)]
    ensures serverId in cloud.servers ==> r == Success(cloud.servers[serverId])
    ensures serverId !in cloud.servers ==> r == Failure(NotFound(serverId))
  {
    r := cloud.GetServer(serverId);
  }

  /** `SuspendServer.execute`: suspend the server named in the input, wait until
      it is SUSPENDED, return its record. */
  method SuspendServer(cloud: Cloud, serverInfo: ServerInfo) returns (r: Result<ServerInfo, Error>)
    requires cloud.Valid()
    modifies cloud`calls, cloud`servers
    ensures cloud.Valid()
    ensures var id := serverInfo.id;
      if id in old(cloud.servers) then
        && cloud.servers == old(cloud.servers)[id := old(cloud.servers)[id].(status := Suspended)]
        && cloud.calls == old(cloud.calls) + [ServersSuspend(id), ServersGet(id)]
        && r == Success(cloud.servers[id]) && r.value.status == Suspended
      else
        && cloud.servers == old(cloud.servers)
        && cloud.calls == old(cloud.calls) + [ServersSuspend(id)]
        && r == Failure(NotFound(id))
  {
    var err := cloud.SuspendServer(serverInfo.id);
    if err.Some? {
      return Failure(err.value);
    }
    r := cloud.GetServer(serverInfo.id);
  }

  /** `SuspendServer.revert`: resume the server, wait until it is ACTIVE. The
      `result` and `flow_failures` arguments are not used by the source. */
  method RevertSuspendServer(cloud: Cloud, serverInfo: ServerInfo) returns (r: Result<ServerInfo, Error>)
    requires cloud.Valid()
    modifies cloud`calls, cloud`servers
    ensures cloud.Valid()
    ensures var id := serverInfo.id;
      if id in old(cloud.servers) then
        && cloud.servers == old(cloud.servers)[id := old(cloud.servers)[id].(status := Active)]
        && cloud.calls == old(cloud.calls) + [ServersResume(id), ServersGet(id)]
        && r == Success(cloud.servers[id]) && r.value.status == Active
      else
        && cloud.servers == old(cloud.servers)
        && cloud.calls == old(cloud.calls) + [ServersResume(id)]
        && r == Failure(NotFound(id))
  {
    var err := cloud.ResumeServer(serverInfo.id);
    if err.Some? {
      return Failure(err.value);
    }
    r := cloud.GetServer(serverInfo.id);
  }

  /** Executing the suspend task and then reverting it leaves an ACTIVE server
      exactly as it was, having issued one suspend and one resume. */
  method SuspendThenRevert(cloud: Cloud, serverInfo: ServerInfo) returns (r: Result<ServerInfo, Error>)
    requires cloud.Valid()
    requires serverInfo.id in cloud.servers && cloud.servers[serverInfo.id].status == Active
    modifies cloud`calls, cloud`servers
    ensures cloud.servers == old(cloud.servers)
    ensures cloud.calls == old(cloud.calls) +
      [ServersSuspend(serverInfo.id), ServersGet(serverInfo.id), ServersResume(serverInfo.id), ServersGet(serverInfo.id)]
    ensures r == Success(old(cloud.servers)[serverInfo.id])
  {
    var suspended := SuspendServer(cloud, serverInfo);
    r := RevertSuspendServer(cloud, suspended.value);
  }

  /** `BootServerFromImage.execute`: create a server from the source server's
      name and the ensured image's and flavor's ids, wait until it is ACTIVE,
      return its record. `newId` is the id the destination assigns. */
  method BootServerFromImage(cloud: Cloud, serverInfo: ServerInfo, imageInfo: Record, flavorInfo: Record, newId: string)
    returns (r: Result<ServerInfo, Error>)
    requires cloud.Valid() && newId !in cloud.servers
    modifies cloud`calls, cloud`servers
    ensures cloud.Valid()
    ensures Get(imageInfo, ID_KEY).None? || Get(flavorInfo, ID_KEY).None? ==>
      && r == Failure(KeyError(ID_KEY))
      && cloud.servers == old(cloud.servers) && cloud.calls == old(cloud.calls)
    ensures Get(imageInfo, ID_KEY).Some? && Get(flavorInfo, ID_KEY).Some? ==>
      var image, flavor := Get(imageInfo, ID_KEY).value, Get(flavorInfo, ID_KEY).value;
      var booted := ServerInfo(newId, serverInfo.name, Active, image, flavor);
      && cloud.servers == old(cloud.servers)[newId := booted]
      && cloud.calls == old(cloud.calls) + [ServersCreate(serverInfo.name, image, flavor), ServersGet(newId)]
      && r == Success(booted)
  {
    var image := Get(imageInfo, ID_KEY);
    if image.None? {
      return Failure(KeyError(ID_KEY));
    }
    var flavor := Get(flavorInfo, ID_KEY);
    if flavor.None? {
      return Failure(KeyError(ID_KEY));
    }
    cloud.CreateServer(serverInfo.name, image.value, flavor.value, newId);
    r := cloud.GetServer(newId);
  }

  /** `TerminateServer.execute`: delete the source server. */
  method TerminateServer(cloud: Cloud, serverInfo: ServerInfo) returns (err: Option<Error>)
    requires cloud.Valid()
    modifies cloud`calls, cloud`servers
    ensures cloud.Valid()
    ensures cloud.servers == old(cloud.servers) - {serverInfo.id}
    ensures serverInfo.id !in cloud.servers
    ensures cloud.calls == old(cloud.calls) + [ServersDelete(serverInfo.id)]
    ensures err == if serverInfo.id in old(cloud.servers) then None else Some(NotFound(serverInfo.id))
  {
    err := cloud.DeleteServer(serverInfo.id);
  }
}
