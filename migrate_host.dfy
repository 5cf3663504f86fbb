/** scripts/migrate_host.py: locating the Fuel API endpoint in the datacenter
    inventory, and the checks `main` makes before touching the host (the host
    must be in the inventory and tagged as part of the source cloud). The
    inventory is a parsed YAML document; its mappings are association lists in
    the dict's iteration order, and `notes` and `tags` are lists of tags. */
module MigrateHost {
  import opened Wrappers

  const SOURCE_CLOUD_TAG := "source"
  const FUEL_MASTER_NODE_TAG := "fuel.master"
  const FUEL_API_IFACE_TAG := "fuel.api"

  datatype Iface = Iface(tags: seq<string>, ip: seq<string>)
  datatype Host = Host(notes: seq<string>, interfaces: seq<(string, Iface)>)
  datatype Inventory = Inventory(hosts: seq<(string, Host)>)

  /** How the lookups fail. With no Fuel master, or no API interface on it,
      Python raises UnboundLocalError on the variable the loop never bound; an
      API interface with no address is the IndexError of `ip[0]`; an unknown host
      reference is the KeyError of `inventory['hosts'][hostname]`; a host without
      the source tag is the script's own `Error`. */
  datatype LookupError =
    | NoFuelMaster
    | NoFuelApiInterface
    | EmptyIpList(ifaceRef: string)
    | UnknownHost(hostRef: string)
    | NotSourceHost(hostRef: string)

  predicate IsMaster(h: Host) { FUEL_MASTER_NODE_TAG in h.notes }
  predicate IsApi(f: Iface) { FUEL_API_IFACE_TAG in f.tags }

  /** Host `i` is the last one tagged as the Fuel master. */
  predicate LastMasterAt(hosts: seq<(string, Host)>, i: int) {
    0 <= i < |hosts| && IsMaster(hosts[i].1) && forall j :: i < j < |hosts| ==> !IsMaster(hosts[j].1)
  }

  /** Interface `i` is the last one tagged for the Fuel API. */
  predicate LastApiAt(ifaces: seq<(string, Iface)>, i: int) {
    0 <= i < |ifaces| && IsApi(ifaces[i].1) && forall j :: i < j < |ifaces| ==> !IsApi(ifaces[j].1)
  }

  predicate NoApi(ifaces: seq<(string, Iface)>) {
    forall i :: 0 <= i < |ifaces| ==> !IsApi(ifaces[i].1)
  }

  /** Every interface tagged for the Fuel API has an address. */
  predicate AllApiAddressed(ifaces: seq<(string, Iface)>) {
    forall i :: 0 <= i < |ifaces| && IsApi(ifaces[i].1) ==> ifaces[i].1.ip != []
  }

  /** Interface `i` is the first one tagged for the Fuel API that has no address. */
  predicate FirstUnaddressedAt(ifaces: seq<(string, Iface)>, i: int) {
    0 <= i < |ifaces| && IsApi(ifaces[i].1) && ifaces[i].1.ip == [] && AllApiAddressed(ifaces[..i])
  }

  /** The first loop of `get_fuel_endpoint` over `hosts`: the last host tagged as
      the Fuel master, later ones overriding earlier ones. */
  function LastMaster(hosts: seq<(string, Host)>): (r: Option<Host>)
    ensures r.Some? ==> IsMaster(r.value)
    decreases |hosts|
  {
    if hosts == [] then None
    else if IsMaster(hosts[|hosts| - 1].1) then Some(hosts[|hosts| - 1].1)
    else LastMaster(hosts[..|hosts| - 1])
  }

  /** The master found is the last host tagged as one; there is none exactly
      when no host is tagged. */
  lemma {:induction false} LastMasterIsLast(hosts: seq<(string, Host)>)
    ensures LastMaster(hosts).None? <==> forall i :: 0 <= i < |hosts| ==> !IsMaster(hosts[i].1)
    ensures LastMaster(hosts).Some? ==>
      exists i :: LastMasterAt(hosts, i) && hosts[i].1 == LastMaster(hosts).value
    decreases |hosts|
  {
    if hosts != [] {
      var init := hosts[..|hosts| - 1];
      LastMasterIsLast(init);
      assert forall i :: 0 <= i < |init| ==> init[i] == hosts[i];
      if IsMaster(hosts[|hosts| - 1].1) {
        assert LastMasterAt(hosts, |hosts| - 1);
      } else if LastMaster(init).Some? {
        var i :| LastMasterAt(init, i) && init[i].1 == LastMaster(init).value;
        assert LastMasterAt(hosts, i);
      }
    }
  }

  /** The second loop over the master's interfaces: the first address of the
      last interface tagged for the Fuel API, failing at the first such interface
      (in order) that has no address. None when no interface is tagged. */
  function ScanIfaces(ifaces: seq<(string, Iface)>): (r: Result<Option<string>, LookupError>)
    ensures r.Failure? ==> r.error.EmptyIpList?
    decreases |ifaces|
  {
    if ifaces == [] then Success(None)
    else
      var last := ifaces[|ifaces| - 1];
      var r := ScanIfaces(ifaces[..|ifaces| - 1]);
      if r.Failure? then r
      else if !IsApi(last.1) then r
      else if last.1.ip == [] then Failure(EmptyIpList(last.0))
      else Success(Some(last.1.ip[0]))
  }

  /** The scan fails at the first API interface without an address; otherwise
      every API interface has one, and the result is the first address of the
      last of them, or none exactly when there is no API interface. */
  lemma {:induction false} ScanIfacesMeaning(ifaces: seq<(string, Iface)>)
    ensures ScanIfaces(ifaces).Failure? ==>
      exists i :: FirstUnaddressedAt(ifaces, i) && ScanIfaces(ifaces).error == EmptyIpList(ifaces[i].0)
    ensures ScanIfaces(ifaces).Success? ==> AllApiAddressed(ifaces)
    ensures ScanIfaces(ifaces) == Success(None) <==> NoApi(ifaces)
    ensures ScanIfaces(ifaces).Success? && ScanIfaces(ifaces).value.Some? ==>
      exists i :: LastApiAt(ifaces, i) && ScanIfaces(ifaces).value.value == ifaces[i].1.ip[0]
    decreases |ifaces|
  {
    if ifaces != [] {
      var init := ifaces[..|ifaces| - 1];
      var k := |ifaces| - 1;
      var last := ifaces[k];
      ScanIfacesMeaning(init);
      assert forall i :: 0 <= i < |init| ==> init[i] == ifaces[i];
      var r := ScanIfaces(init);
      if r.Failure? {
        var i :| FirstUnaddressedAt(init, i) && r.error == EmptyIpList(init[i].0);
        assert init[..i] == ifaces[..i];
        assert FirstUnaddressedAt(ifaces, i);
      } else if !IsApi(last.1) {
        if r.value.Some? {
          var i :| LastApiAt(init, i) && r.value.value == init[i].1.ip[0];
          assert LastApiAt(ifaces, i);
        }
      } else if last.1.ip == [] {
        assert ifaces[..k] == init;
        assert FirstUnaddressedAt(ifaces, k);
      } else {
        assert LastApiAt(ifaces, k);
      }
    }
  }

  /** `get_fuel_endpoint(config)`. It finds no master exactly when no host is
      tagged as one, and no endpoint exactly when the last master has no
      interface tagged for the API. */
  function FuelEndpoint(inv: Inventory): (r: Result<string, LookupError>)
    ensures r == Failure(NoFuelMaster) <==> forall i :: 0 <= i < |inv.hosts| ==> !IsMaster(inv.hosts[i].1)
    ensures r == Failure(NoFuelApiInterface) <==>
      LastMaster(inv.hosts).Some? && NoApi(LastMaster(inv.hosts).value.interfaces)
    ensures r.Failure? ==> r.error.NoFuelMaster? || r.error.NoFuelApiInterface? || r.error.EmptyIpList?
  {
    LastMasterIsLast(inv.hosts);
    match LastMaster(inv.hosts)
    case None => Failure(NoFuelMaster)
    case Some(master) =>
      ScanIfacesMeaning(master.interfaces);
      match ScanIfaces(master.interfaces)
      case Failure(e) => Failure(e)
      case Success(None) => Failure(NoFuelApiInterface)
      case Success(Some(ip)) => Success(ip)
  }

  /** `get_fuel_endpoint`, with its two loops. */
  method GetFuelEndpoint(inv: Inventory) returns (r: Result<string, LookupError>)
    ensures r == FuelEndpoint(inv)
  {
    var hosts := inv.hosts;
    var master: Option<Host> := None;
    var i := 0;
    while i < |hosts|
      invariant 0 <= i <= |hosts|
      invariant master == LastMaster(hosts[..i])
    {
      assert hosts[..i + 1][..i] == hosts[..i];
      if FUEL_MASTER_NODE_TAG in hosts[i].1.notes {
        master := Some(hosts[i].1);
      }
      i := i + 1;
    }
    assert hosts[..i] == hosts;
    if master.None? {
      return Failure(NoFuelMaster);
    }
    var ifaces := master.value.interfaces;
    var endpoint: Option<string> := None;
    var k := 0;
    while k < |ifaces|
      invariant 0 <= k <= |ifaces|
      invariant ScanIfaces(ifaces[..k]) == Success(endpoint)
    {
      assert ifaces[..k + 1][..k] == ifaces[..k];
      if FUEL_API_IFACE_TAG in ifaces[k].1.tags {
        if ifaces[k].1.ip == [] {
          assert ScanIfaces(ifaces[..k + 1]) == Failure(EmptyIpList(ifaces[k].0));
          ScanStopsAtFailure(ifaces, k + 1);
          assert ifaces[..|ifaces|] == ifaces;
          return Failure(EmptyIpList(ifaces[k].0));
        }
        endpoint := Some(ifaces[k].1.ip[0]);
      }
      k := k + 1;
    }
    assert ifaces[..k] == ifaces;
    r := if endpoint.None? then Failure(NoFuelApiInterface) else Success(endpoint.value);
  }

  /** Once the interface scan has failed on a prefix, it fails the same way on
      every longer prefix: the IndexError ends the loop. */
  lemma {:induction false} ScanStopsAtFailure(ifaces: seq<(string, Iface)>, k: nat)
    requires k <= |ifaces| && ScanIfaces(ifaces[..k]).Failure?
    ensures forall n :: k <= n <= |ifaces| ==> ScanIfaces(ifaces[..n]) == ScanIfaces(ifaces[..k])
    decreases |ifaces| - k
  {
    if k < |ifaces| {
      assert ifaces[..k + 1][..k] == ifaces[..k];
      ScanStopsAtFailure(ifaces, k + 1);
    }
  }

  /** The endpoint is the first address of a Fuel API interface of a Fuel master
      host: the last such host in the inventory and the last such interface on
      it, and no API interface on that host lacks an address. */
  lemma EndpointIsLastApiAddress(inv: Inventory)
    requires FuelEndpoint(inv).Success?
    ensures exists i, f :: (LastMasterAt(inv.hosts, i) && LastApiAt(inv.hosts[i].1.interfaces, f) &&
      AllApiAddressed(inv.hosts[i].1.interfaces) &&
      FuelEndpoint(inv).value == inv.hosts[i].1.interfaces[f].1.ip[0])
  {
    LastMasterIsLast(inv.hosts);
    var master := LastMaster(inv.hosts).value;
    var i :| LastMasterAt(inv.hosts, i) && inv.hosts[i].1 == master;
    ScanIfacesMeaning(master.interfaces);
    var f :| LastApiAt(master.interfaces, f) &&
      ScanIfaces(master.interfaces).value.value == master.interfaces[f].1.ip[0];
  }

  /** `inventory['hosts'][hostname]` */
  function FindHost(hosts: seq<(string, Host)>, hostRef: string): (r: Option<Host>)
    ensures r.None? <==> forall i :: 0 <= i < |hosts| ==> hosts[i].0 != hostRef
    ensures r.Some? ==> exists i :: 0 <= i < |hosts| && hosts[i] == (hostRef, r.value)
    decreases |hosts|
  {
    if hosts == [] then None
    else if hosts[0].0 == hostRef then Some(hosts[0].1)
    else
      var r := FindHost(hosts[1..], hostRef);
      assert forall i :: 1 <= i < |hosts| ==> hosts[i] == hosts[1..][i - 1];
      r
  }

  /** The start of `main`, before any hardware is touched: find the Fuel
      endpoint, look the host up, and refuse a host that is not tagged as part
      of the source cloud. Yields the endpoint and the host. */
  function PrepareHostMigration(inv: Inventory, hostRef: string): (r: Result<(string, Host), LookupError>)
    ensures r.Success? <==>
      FuelEndpoint(inv).Success? && FindHost(inv.hosts, hostRef).Some? &&
      SOURCE_CLOUD_TAG in FindHost(inv.hosts, hostRef).value.notes
    ensures r.Success? ==> r.value == (FuelEndpoint(inv).value, FindHost(inv.hosts, hostRef).value)
    ensures FuelEndpoint(inv).Failure? ==> r == Failure(FuelEndpoint(inv).error)
    ensures FuelEndpoint(inv).Success? && FindHost(inv.hosts, hostRef).None? ==>
      r == Failure(UnknownHost(hostRef))
    ensures r == Failure(NotSourceHost(hostRef)) <==>
      FuelEndpoint(inv).Success? && FindHost(inv.hosts, hostRef).Some? &&
      SOURCE_CLOUD_TAG !in FindHost(inv.hosts, hostRef).value.notes
  {
    var endpoint :- FuelEndpoint(inv);
    match FindHost(inv.hosts, hostRef)
    case None => Failure(UnknownHost(hostRef))
    case Some(host) =>
      if SOURCE_CLOUD_TAG !in host.notes then Failure(NotSourceHost(hostRef))
      else Success((endpoint, host))
  }
}
