/** The router's pool (internal/provision/router.go:108-147 and the read-routing decision of
    internal/pgcat/config.go:104-118). */
module RouterPool {
  import opened Fleet

  datatype Server = Server(host: InstanceId, role: Role)

  /** The router a pool of servers makes: the primary first, the replicas in order, and reads on the
      primary only when there is no replica. */
  function Pool(primary: InstanceId, replicas: seq<InstanceId>): Router {
    Router(primary, replicas, replicas == [])
  }

  /** Reading a server list back as a pool. */
  function Hosts(servers: seq<Server>, role: Role): seq<InstanceId> {
    if servers == [] then []
    else
      var rest := Hosts(servers[..|servers| - 1], role);
      var s := servers[|servers| - 1];
      if s.role == role then rest + [s.host] else rest
  }

  lemma HostsSnoc(servers: seq<Server>, s: Server, role: Role)
    ensures Hosts(servers + [s], role) == Hosts(servers, role) + (if s.role == role then [s.host] else [])
  {
    assert (servers + [s])[..|servers|] == servers;
  }

  /** RouterMembersFromInstances and routerConfig: the members become the server list. */
  method Members(primary: InstanceId, replicas: seq<InstanceId>) returns (servers: seq<Server>)
    ensures Hosts(servers, Primary) == [primary]
    ensures Hosts(servers, Replica) == replicas
    ensures |servers| == |replicas| + 1 && servers[0] == Server(primary, Primary)
  {
    servers := [Server(primary, Primary)];
    HostsSnoc([], servers[0], Primary);
    HostsSnoc([], servers[0], Replica);
    assert servers == [] + [servers[0]];
    for k := 0 to |replicas|
      invariant Hosts(servers, Primary) == [primary] && Hosts(servers, Replica) == replicas[..k]
      invariant |servers| == k + 1 && servers[0] == Server(primary, Primary)
    {
      HostsSnoc(servers, Server(replicas[k], Replica), Primary);
      HostsSnoc(servers, Server(replicas[k], Replica), Replica);
      servers := servers + [Server(replicas[k], Replica)];
    }
  }

  /** Generate's count of replica backends decides where reads go. */
  method PrimaryReads(servers: seq<Server>) returns (enabled: bool)
    ensures enabled <==> Hosts(servers, Replica) == []
  {
    var count := 0;
    for k := 0 to |servers|
      invariant count == |Hosts(servers[..k], Replica)|
    {
      assert servers[..k + 1] == servers[..k] + [servers[k]];
      HostsSnoc(servers[..k], servers[k], Replica);
      if servers[k].role == Replica {
        count := count + 1;
      }
    }
    assert servers[..|servers|] == servers;
    enabled := count == 0;
  }

  /** What StartRouter runs with is the pool the protocol records. */
  method Configure(primary: InstanceId, replicas: seq<InstanceId>) returns (router: Router)
    ensures router == Pool(primary, replicas)
  {
    var servers := Members(primary, replicas);
    var onPrimary := PrimaryReads(servers);
    router := Router(Hosts(servers, Primary)[0], Hosts(servers, Replica), onPrimary);
  }
}
