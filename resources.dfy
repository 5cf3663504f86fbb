/** pumphouse/tasks/resources.py: the flow that migrates a tenant's servers, each
    through the flow `server_resources.migrate_server` builds for it, skipping the
    servers whose binding the store already holds. `server_resources` is not part
    of this model: `migrate_server` is a parameter, a function from the store and
    a server id to the flows it returns and the store it leaves behind. */
module Resources {
  import opened Flows
  import opened ServerTasks

  /** What one call of `migrate_server(context, server_id)` yields: the resource
      flows to add to the outer flow, the server's own flow, and the store after
      the call (it writes the bindings it seeds). */
  datatype ServerStep = ServerStep(resources: seq<Flow>, flow: Flow, store: map<string, Value>)

  type MigrateServer = (map<string, Value>, string) -> ServerStep

  /** The loop's accumulated state: the resource flows added to the outer flow,
      the server flows added to the unordered flow, the ids migrated, the store. */
  datatype Composition = Composition(
    resources: seq<Flow>,
    serverFlows: seq<Flow>,
    migrated: seq<string>,
    store: map<string, Value>)

  /** The loop of `migrate_resources` over the listed servers `servers`, starting
      from `store0`: a server is migrated only when its binding is not in the
      store as the loop reaches it. Each migrated server adds exactly one server
      flow. */
  function Compose(store0: map<string, Value>, servers: seq<string>, migrate: MigrateServer): (c: Composition)
    ensures |c.serverFlows| == |c.migrated| <= |servers|
    ensures forall k :: 0 <= k < |c.migrated| ==> c.migrated[k] in servers
    decreases |servers|
  {
    if servers == [] then Composition([], [], [], store0)
    else
      var init := servers[..|servers| - 1];
      var id := servers[|servers| - 1];
      var c := Compose(store0, init, migrate);
      assert forall x :: x in init ==> x in servers;
      if ServerBinding(id) in c.store then c
      else
        var step := migrate(c.store, id);
        Composition(c.resources + step.resources, c.serverFlows + [step.flow], c.migrated + [id], step.store)
  }

  /** `migrate_resources(context, tenant_id)`, given the listing of the tenant's
      servers: a graph flow holding every migrated server's resource flows and,
      last, the unordered flow of the server flows. */
  method MigrateResources(store: Store, tenantId: string, servers: seq<string>, migrate: MigrateServer)
    returns (flow: FlowBuilder)
    modifies store
    ensures fresh(flow) && flow.pattern == Graph && flow.name == "migrate-resources-" + tenantId
    ensures var c := Compose(old(store.entries), servers, migrate);
      && flow.items == c.resources + [Composite(Unordered, "migrate-servers-" + tenantId, c.serverFlows)]
      && store.entries == c.store
  {
    flow := new FlowBuilder(Graph, "migrate-resources-" + tenantId);
    var serversFlow := new FlowBuilder(Unordered, "migrate-servers-" + tenantId);
    var i := 0;
    while i < |servers|
      invariant 0 <= i <= |servers|
      invariant fresh(flow) && fresh(serversFlow)
      invariant flow.pattern == Graph && flow.name == "migrate-resources-" + tenantId
      invariant serversFlow.pattern == Unordered && serversFlow.name == "migrate-servers-" + tenantId
      invariant var c := Compose(old(store.entries), servers[..i], migrate);
        flow.items == c.resources && serversFlow.items == c.serverFlows && store.entries == c.store
    {
      assert servers[..i + 1][..i] == servers[..i];
      var id := servers[i];
      if ServerBinding(id) !in store.entries {
        var step := migrate(store.entries, id);
        flow.Add(step.resources);
        serversFlow.Add([step.flow]);
        store.entries := step.store;
      }
      i := i + 1;
    }
    assert servers[..i] == servers;
    flow.Add([serversFlow.AsFlow()]);
  }

  /** A tenant whose servers all have bindings already gets an outer flow holding
      only an empty unordered flow, and the store is left as it was. */
  lemma {:induction false} NothingToMigrate(store0: map<string, Value>, servers: seq<string>, migrate: MigrateServer)
    requires forall id :: id in servers ==> ServerBinding(id) in store0
    ensures Compose(store0, servers, migrate) == Composition([], [], [], store0)
    decreases |servers|
  {
    if servers != [] {
      NothingToMigrate(store0, servers[..|servers| - 1], migrate);
    }
  }

  /** `migrate_server` never drops a binding from the store. */
  ghost predicate KeepsBindings(migrate: MigrateServer) {
    forall m: map<string, Value>, id :: m.Keys <= migrate(m, id).store.Keys
  }

  /** `migrate_server` writes the server's own binding. */
  ghost predicate BindsServer(migrate: MigrateServer) {
    forall m, id :: ServerBinding(id) in migrate(m, id).store
  }

  /** `migrate_server` writes no other server's binding. */
  ghost predicate BindsNoOtherServer(migrate: MigrateServer) {
    forall m, id, x :: ServerBinding(x) in migrate(m, id).store ==> ServerBinding(x) in m || x == id
  }

  /** The servers to migrate, in listing order: those whose binding is not in the
      initial store, each once (a repeated listing is migrated at its first
      occurrence). */
  function Pending(store0: map<string, Value>, servers: seq<string>): seq<string>
    decreases |servers|
  {
    if servers == [] then []
    else
      var init := servers[..|servers| - 1];
      var id := servers[|servers| - 1];
      Pending(store0, init) + (if ServerBinding(id) !in store0 && id !in init then [id] else [])
  }

  /** After the loop, with a `migrate_server` that writes its own binding and only
      that server binding, a server's binding is in the store exactly when the
      server was listed or the binding was there to begin with. */
  lemma {:induction false} ComposeBindings(store0: map<string, Value>, servers: seq<string>, migrate: MigrateServer)
    requires KeepsBindings(migrate) && BindsServer(migrate) && BindsNoOtherServer(migrate)
    ensures forall x :: ServerBinding(x) in Compose(store0, servers, migrate).store <==>
      (x in servers || ServerBinding(x) in store0)
    decreases |servers|
  {
    if servers != [] {
      var init := servers[..|servers| - 1];
      ComposeBindings(store0, init, migrate);
      assert servers == init + [servers[|servers| - 1]];
    }
  }

  /** Exactly the pending servers are migrated, in listing order, each once. */
  lemma {:induction false} MigratesPending(store0: map<string, Value>, servers: seq<string>, migrate: MigrateServer)
    requires KeepsBindings(migrate) && BindsServer(migrate) && BindsNoOtherServer(migrate)
    ensures Compose(store0, servers, migrate).migrated == Pending(store0, servers)
    decreases |servers|
  {
    if servers != [] {
      var init := servers[..|servers| - 1];
      MigratesPending(store0, init, migrate);
      ComposeBindings(store0, init, migrate);
    }
  }

  /** No server is migrated twice, and none whose binding the store held. */
  lemma {:induction false} PendingIsFresh(store0: map<string, Value>, servers: seq<string>)
    ensures forall k :: 0 <= k < |Pending(store0, servers)| ==>
      Pending(store0, servers)[k] in servers && ServerBinding(Pending(store0, servers)[k]) !in store0
    ensures forall k, l :: 0 <= k < l < |Pending(store0, servers)| ==>
      Pending(store0, servers)[k] != Pending(store0, servers)[l]
    decreases |servers|
  {
    if servers != [] {
      var init := servers[..|servers| - 1];
      PendingIsFresh(store0, init);
      assert forall x :: x in init ==> x in servers;
      var q := Pending(store0, init);
      var id := servers[|servers| - 1];
      if ServerBinding(id) !in store0 && id !in init {
        var p := q + [id];
        assert forall k :: 0 <= k < |q| ==> p[k] == q[k];
      }
    }
  }
}
