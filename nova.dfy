/** The compute API the tasks call (`cloud.nova.servers.*`, `cloud.nova.flavors.*`)
    and the event sink (`events.emit`), reduced to the state they change. Every API
    call is recorded in `calls`, so that "issued exactly once" can be stated.
    `utils.wait_for` is taken as atomic: a suspend, resume or create reaches its
    final status at once and the wait is the single `get` that observes it. */
module Nova {
  import opened Wrappers
  import opened Records

  datatype Status = Active | Suspended | OtherStatus(name: string)

  /** `server.to_dict()`, reduced to the fields the tasks read. */
  datatype ServerInfo = ServerInfo(id: string, name: string, status: Status, image: Field, flavor: Field)

  /** How a call fails: Nova's NotFound, or the KeyError of reading a record
      field that is not there. */
  datatype Error = NotFound(id: string) | KeyError(key: string)

  /** The keyword arguments of `nova.flavors.create`. */
  datatype FlavorArgs = FlavorArgs(
    name: Field,
    ram: Field,
    vcpus: Field,
    disk: Field,
    flavorId: Field,
    ephemeral: Field,
    swap: Field,
    rxtxFactor: Field,
    isPublic: Field)

  datatype ApiCall =
    | ServersGet(id: string)
    | ServersSuspend(id: string)
    | ServersResume(id: string)
    | ServersCreate(name: string, image: Field, flavor: Field)
    | ServersDelete(id: string)
    | FlavorsGet(flavorId: string)
    | FlavorsList
    | FlavorsCreate(args: FlavorArgs)

  const ID_KEY := "id"
  const NAME_KEY := "name"
  const RAM_KEY := "ram"
  const VCPUS_KEY := "vcpus"
  const DISK_KEY := "disk"
  const EPHEMERAL_KEY := "OS-FLV-EXT-DATA:ephemeral"
  const SWAP_KEY := "swap"
  const RXTX_KEY := "rxtx_factor"
  const IS_PUBLIC_KEY := "os-flavor-access:is_public"
  const AUTO := Text("auto")

  /** The id of a flavor created from `args`: the one asked for, or the
      generated `autoId` when asked for "auto". */
  function AssignedId(args: FlavorArgs, autoId: string): Field {
    if args.flavorId == AUTO then Text(autoId) else args.flavorId
  }

  /** The record of a flavor Nova created from `args`; `autoId` is the id Nova
      generates when asked for "auto". */
  function FlavorRecord(args: FlavorArgs, autoId: string): Record {
    [ (ID_KEY, AssignedId(args, autoId)),
      (NAME_KEY, args.name),
      (RAM_KEY, args.ram),
      (VCPUS_KEY, args.vcpus),
      (DISK_KEY, args.disk),
      (EPHEMERAL_KEY, args.ephemeral),
      (SWAP_KEY, args.swap),
      (RXTX_KEY, args.rxtxFactor),
      (IS_PUBLIC_KEY, args.isPublic) ]
  }

  /** The first flavor whose id is `flavorId`. */
  function FindFlavor(flavors: seq<Record>, flavorId: string): (r: Option<Record>)
    ensures r.Some? <==> exists i :: 0 <= i < |flavors| && Get(flavors[i], ID_KEY) == Some(Text(flavorId))
    ensures r.Some? ==> r.value in flavors && Get(r.value, ID_KEY) == Some(Text(flavorId))
  {
    if flavors == [] then None
    else if Get(flavors[0], ID_KEY) == Some(Text(flavorId)) then Some(flavors[0])
    else
      var r := FindFlavor(flavors[1..], flavorId);
      assert forall i :: 1 <= i < |flavors| ==> flavors[i] == flavors[1..][i - 1];
      r
  }

  /** One cloud (the source or the destination). */
  class Cloud {
    var servers: map<string, ServerInfo>
    var flavors: seq<Record>
    var calls: seq<ApiCall>

    /** Servers are keyed by their own id. */
    ghost predicate Valid()
      reads this
    {
      forall id :: id in servers ==> servers[id].id == id
    }

    constructor (servers: map<string, ServerInfo>, flavors: seq<Record>)
      requires forall id :: id in servers ==> servers[id].id == id
      ensures Valid()
      ensures this.servers == servers && this.flavors == flavors && calls == []
    {
      this.servers := servers;
      this.flavors := flavors;
      calls := [];
    }

    /** `nova.servers.get(id)` */
    method GetServer(id: string) returns (r: Result<ServerInfo, Error>)
      modifies this`calls
      ensures calls == old(calls) + [ServersGet(id)]
      ensures r == if id in servers then Success(servers[id]) else Failure(NotFound(id))
    {
      calls := calls + [ServersGet(id)];
      r := if id in servers then Success(servers[id]) else Failure(NotFound(id));
    }

    /** `nova.servers.suspend(id)`, together with the status change it causes. */
    method SuspendServer(id: string) returns (err: Option<Error>)
      requires Valid()
      modifies this`calls, this`servers
      ensures Valid()
      ensures calls == old(calls) + [ServersSuspend(id)]
      ensures err == if id in old(servers) then None else Some(NotFound(id))
      ensures servers == if id in old(servers) then old(servers)[id := old(servers)[id].(status := Suspended)] else old(servers)
    {
      calls := calls + [ServersSuspend(id)];
      if id in servers {
        servers := servers[id := servers[id].(status := Suspended)];
        err := None;
      } else {
        err := Some(NotFound(id));
      }
    }

    /** `nova.servers.resume(id)`, together with the status change it causes. */
    method ResumeServer(id: string) returns (err: Option<Error>)
      requires Valid()
      modifies this`calls, this`servers
      ensures Valid()
      ensures calls == old(calls) + [ServersResume(id)]
      ensures err == if id in old(servers) then None else Some(NotFound(id))
      ensures servers == if id in old(servers) then old(servers)[id := old(servers)[id].(status := Active)] else old(servers)
    {
      calls := calls + [ServersResume(id)];
      if id in servers {
        servers := servers[id := servers[id].(status := Active)];
        err := None;
      } else {
        err := Some(NotFound(id));
      }
    }

    /** `nova.servers.create(name, image, flavor)`; the new server becomes ACTIVE.
        `newId` is the id Nova assigns. */
    method CreateServer(name: string, image: Field, flavor: Field, newId: string)
      requires Valid() && newId !in servers
      modifies this`calls, this`servers
      ensures Valid()
      ensures calls == old(calls) + [ServersCreate(name, image, flavor)]
      ensures servers == old(servers)[newId := ServerInfo(newId, name, Active, image, flavor)]
    {
      calls := calls + [ServersCreate(name, image, flavor)];
      servers := servers[newId := ServerInfo(newId, name, Active, image, flavor)];
    }

    /** `nova.servers.delete(id)` */
    method DeleteServer(id: string) returns (err: Option<Error>)
      requires Valid()
      modifies this`calls, this`servers
      ensures Valid()
      ensures calls == old(calls) + [ServersDelete(id)]
      ensures err == if id in old(servers) then None else Some(NotFound(id))
      ensures servers == old(servers) - {id}
    {
      calls := calls + [ServersDelete(id)];
      err := if id in servers then None else Some(NotFound(id));
      servers := servers - {id};
    }

    /** `nova.flavors.get(flavor_id).to_dict()` */
    method GetFlavor(flavorId: string) returns (r: Result<Record, Error>)
      modifies this`calls
      ensures calls == old(calls) + [FlavorsGet(flavorId)]
      ensures r == match FindFlavor(flavors, flavorId)
                   case Some(rec) => Success(rec)
                   case None => Failure(NotFound(flavorId))
    {
      calls := calls + [FlavorsGet(flavorId)];
      r := match FindFlavor(flavors, flavorId)
           case Some(rec) => Success(rec)
           case None => Failure(NotFound(flavorId));
    }

    /** `nova.flavors.list()` */
    method ListFlavors() returns (fs: seq<Record>)
      modifies this`calls
      ensures calls == old(calls) + [FlavorsList]
      ensures fs == flavors
    {
      calls := calls + [FlavorsList];
      fs := flavors;
    }

    /** `nova.flavors.create(...)`: the new flavor joins the list. */
    method CreateFlavor(args: FlavorArgs, autoId: string) returns (rec: Record)
      modifies this`calls, this`flavors
      ensures calls == old(calls) + [FlavorsCreate(args)]
      ensures rec == FlavorRecord(args, autoId)
      ensures flavors == old(flavors) + [rec]
    {
      calls := calls + [FlavorsCreate(args)];
      rec := FlavorRecord(args, autoId);
      flavors := flavors + [rec];
    }
  }

  datatype Event = FlavorCreated(id: Field, data: Record)

  /** `events.emit`: the events emitted so far, in order. */
  class EventSink {
    var emitted: seq<Event>

    constructor ()
      ensures emitted == []
    {
      emitted := [];
    }

    method Emit(e: Event)
      modifies this
      ensures emitted == old(emitted) + [e]
    {
      emitted := emitted + [e];
    }
  }
}
