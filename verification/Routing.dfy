/** The hurler's routing table, built from the routes in the store, and the lookup that uses it. */
module Routing {
  import opened Dispatch

  datatype How = ByFanout | ByRoundRobin
  datatype Route = Route(how: How, endpoints: seq<string>)

  /** A host's node: its name and the names of the endpoint nodes below it. */
  datatype HostNode = HostNode(name: string, endpoints: seq<string>)

  /** The endpoints listed for a host, in order, over all nodes of that name. */
  function EndpointsFor(hosts: seq<HostNode>, name: string): seq<string>
    decreases |hosts|
  {
    if hosts == [] then []
    else EndpointsFor(hosts[..|hosts| - 1], name) +
         if hosts[|hosts| - 1].name == name then hosts[|hosts| - 1].endpoints else []
  }

  /** A host's route lists its fan-out endpoints `fs` and then its round-robin ones `rs`, and is
      dispatched round-robin if there are any of the latter. Without endpoints there is none. */
  ghost predicate RouteRight(table: map<string, Route>, name: string, fs: seq<string>, rs: seq<string>) {
    if fs == [] && rs == [] then name !in table
    else name in table && table[name] == Route(if rs != [] then ByRoundRobin else ByFanout, fs + rs)
  }

  /** The table holds the right route for every host. */
  ghost predicate TableRight(table: map<string, Route>, fanouts: seq<HostNode>, roundRobins: seq<HostNode>) {
    forall name :: RouteRight(table, name, EndpointsFor(fanouts, name), EndpointsFor(roundRobins, name))
  }

  lemma EndpointsAppend(hosts: seq<HostNode>, n: nat, name: string)
    requires n < |hosts|
    ensures EndpointsFor(hosts[..n + 1], name) ==
            EndpointsFor(hosts[..n], name) + if hosts[n].name == name then hosts[n].endpoints else []
  {
    assert hosts[..n + 1][..n] == hosts[..n];
  }

  /** These are the endpoints below the nodes of that name, and no others. */
  lemma {:induction false} EndpointsListed(hosts: seq<HostNode>, name: string, e: string)
    ensures e in EndpointsFor(hosts, name) <==> Registers(hosts, name, e)
    decreases |hosts|
  {
    if hosts != [] {
      var n := |hosts| - 1;
      EndpointsListed(hosts[..n], name, e);
      assert Registers(hosts[..n], name, e) ==> Registers(hosts, name, e);
    }
  }

  ghost predicate Registers(hosts: seq<HostNode>, name: string, e: string) {
    exists n :: 0 <= n < |hosts| && hosts[n].name == name && e in hosts[n].endpoints
  }

  /** Where node names are distinct, as they are in a directory, a host has the endpoints below
      its node, in order, each as often as it is there. */
  lemma {:induction false} EndpointsOfNode(hosts: seq<HostNode>, n: nat)
    requires n < |hosts| && forall i, j :: 0 <= i < j < |hosts| ==> hosts[i].name != hosts[j].name
    ensures EndpointsFor(hosts, hosts[n].name) == hosts[n].endpoints
    decreases |hosts|
  {
    var p := hosts[..|hosts| - 1];
    if n < |p| {
      EndpointsOfNode(p, n);
    } else {
      NoEndpoints(p, hosts[n].name);
    }
  }

  lemma {:induction false} NoEndpoints(hosts: seq<HostNode>, name: string)
    requires forall i :: 0 <= i < |hosts| ==> hosts[i].name != name
    ensures EndpointsFor(hosts, name) == []
    decreases |hosts|
  {
    if hosts != [] {
      NoEndpoints(hosts[..|hosts| - 1], name);
    }
  }

  lemma RouteListed(table: map<string, Route>, fanouts: seq<HostNode>, roundRobins: seq<HostNode>, name: string, e: string)
    requires TableRight(table, fanouts, roundRobins)
    ensures name in table && e in table[name].endpoints <==>
              Registers(fanouts, name, e) || Registers(roundRobins, name, e)
  {
    EndpointsListed(fanouts, name, e);
    EndpointsListed(roundRobins, name, e);
    assert RouteRight(table, name, EndpointsFor(fanouts, name), EndpointsFor(roundRobins, name));
  }

  lemma RouteHow(table: map<string, Route>, fanouts: seq<HostNode>, roundRobins: seq<HostNode>, name: string)
    requires TableRight(table, fanouts, roundRobins) && name in table
    ensures table[name].how == ByRoundRobin <==>
              exists n :: 0 <= n < |roundRobins| && roundRobins[n].name == name && roundRobins[n].endpoints != []
  {
    var rs := EndpointsFor(roundRobins, name);
    assert RouteRight(table, name, EndpointsFor(fanouts, name), rs);
    if rs != [] {
      EndpointsListed(roundRobins, name, rs[0]);
    }
    if n :| 0 <= n < |roundRobins| && roundRobins[n].name == name && roundRobins[n].endpoints != [] {
      assert Registers(roundRobins, name, roundRobins[n].endpoints[0]);
      EndpointsListed(roundRobins, name, roundRobins[n].endpoints[0]);
    }
  }

  /** The table with one more host node read into it. */
  function WithHost(table: map<string, Route>, host: HostNode, how: How): map<string, Route> {
    if host.endpoints == [] then table
    else table[host.name := Route(how, (if host.name in table then table[host.name].endpoints else []) + host.endpoints)]
  }

  lemma FanoutHostAdded(table: map<string, Route>, hosts: seq<HostNode>, n: nat)
    requires n < |hosts| && TableRight(table, hosts[..n], [])
    ensures TableRight(WithHost(table, hosts[n], ByFanout), hosts[..n + 1], [])
  {
    var after := WithHost(table, hosts[n], ByFanout);
    forall name
      ensures RouteRight(after, name, EndpointsFor(hosts[..n + 1], name), EndpointsFor([], name))
    {
      EndpointsAppend(hosts, n, name);
      assert RouteRight(table, name, EndpointsFor(hosts[..n], name), EndpointsFor([], name));
    }
  }

  lemma RoundRobinHostAdded(table: map<string, Route>, fanouts: seq<HostNode>, hosts: seq<HostNode>, n: nat)
    requires n < |hosts| && TableRight(table, fanouts, hosts[..n])
    ensures TableRight(WithHost(table, hosts[n], ByRoundRobin), fanouts, hosts[..n + 1])
  {
    var after := WithHost(table, hosts[n], ByRoundRobin);
    forall name
      ensures RouteRight(after, name, EndpointsFor(fanouts, name), EndpointsFor(hosts[..n + 1], name))
    {
      EndpointsAppend(hosts, n, name);
      assert RouteRight(table, name, EndpointsFor(fanouts, name), EndpointsFor(hosts[..n], name));
    }
  }

  /** What a request comes to. */
  datatype Status = NotFound | ServiceUnavailable | Passed(status: int)

  class Handler {
    var table: map<string, Route>
    const transport: Transport

    /** Every route leads somewhere, which is what the dispatchers rely on. */
    ghost predicate Valid()
      reads this
    {
      forall name :: name in table ==> table[name].endpoints != []
    }

    constructor (transport: Transport)
      ensures Valid() && this.transport == transport && table == map[]
    {
      this.transport := transport;
      table := map[];
    }

    /** The loop over a host's endpoints. */
    method AddEndpoints(route: Route, endpoints: seq<string>) returns (result: Route)
      ensures result == route.(endpoints := route.endpoints + endpoints)
    {
      result := route;
      for k := 0 to |endpoints|
        invariant result == route.(endpoints := route.endpoints + endpoints[..k])
      {
        result := result.(endpoints := result.endpoints + [endpoints[k]]);
      }
      assert endpoints[..|endpoints|] == endpoints;
    }

    /** One of the two loops over host nodes. */
    method AddRoutes(newTable: map<string, Route>, hosts: seq<HostNode>, how: How, ghost before: seq<HostNode>)
      returns (result: map<string, Route>)
      requires if how == ByFanout then newTable == map[] && before == [] else TableRight(newTable, before, [])
      ensures if how == ByFanout then TableRight(result, hosts, []) else TableRight(result, before, hosts)
    {
      result := newTable;
      assert hosts[..0] == [];
      for n := 0 to |hosts|
        invariant if how == ByFanout then TableRight(result, hosts[..n], []) else TableRight(result, before, hosts[..n])
      {
        ghost var was := result;
        var host := hosts[n];
        if |host.endpoints| != 0 {
          var route := if host.name in result then result[host.name] else Route(how, []);
          route := AddEndpoints(route.(how := how), host.endpoints);
          result := result[host.name := route];
        }
        assert result == WithHost(was, host, how);
        if how == ByFanout {
          FanoutHostAdded(was, hosts, n);
        } else {
          RoundRobinHostAdded(was, before, hosts, n);
        }
      }
      assert hosts[..|hosts|] == hosts;
    }

    /** One turn of syncTable: the table is rebuilt from the listing and swapped in. */
    method SyncTable(fanouts: seq<HostNode>, roundRobins: seq<HostNode>)
      requires Valid()
      modifies `table
      ensures Valid() && TableRight(table, fanouts, roundRobins)
      ensures forall name, e :: name in table && e in table[name].endpoints ==>
                (exists n :: 0 <= n < |fanouts| && fanouts[n].name == name && e in fanouts[n].endpoints)
                || exists n :: 0 <= n < |roundRobins| && roundRobins[n].name == name && e in roundRobins[n].endpoints
      ensures forall n, e :: 0 <= n < |fanouts| && e in fanouts[n].endpoints ==>
                fanouts[n].name in table && e in table[fanouts[n].name].endpoints
      ensures forall n, e :: 0 <= n < |roundRobins| && e in roundRobins[n].endpoints ==>
                roundRobins[n].name in table && e in table[roundRobins[n].name].endpoints
      ensures forall name :: name in table ==>
                table[name].endpoints != []
                && (table[name].how == ByRoundRobin <==>
                      exists n :: 0 <= n < |roundRobins| && roundRobins[n].name == name && roundRobins[n].endpoints != [])
    {
      var newTable := AddRoutes(map[], fanouts, ByFanout, []);
      newTable := AddRoutes(newTable, roundRobins, ByRoundRobin, fanouts);
      forall name | name in newTable
        ensures newTable[name].endpoints != []
      {
        assert RouteRight(newTable, name, EndpointsFor(fanouts, name), EndpointsFor(roundRobins, name));
      }
      table := newTable;
      forall name, e | name in table && e in table[name].endpoints
        ensures Registers(fanouts, name, e) || Registers(roundRobins, name, e)
      {
        RouteListed(table, fanouts, roundRobins, name, e);
      }
      forall n, e | 0 <= n < |fanouts| && e in fanouts[n].endpoints
        ensures fanouts[n].name in table && e in table[fanouts[n].name].endpoints
      {
        RouteListed(table, fanouts, roundRobins, fanouts[n].name, e);
      }
      forall n, e | 0 <= n < |roundRobins| && e in roundRobins[n].endpoints
        ensures roundRobins[n].name in table && e in table[roundRobins[n].name].endpoints
      {
        RouteListed(table, fanouts, roundRobins, roundRobins[n].name, e);
      }
      forall name | name in table
        ensures table[name].how == ByRoundRobin <==>
                  exists n :: 0 <= n < |roundRobins| && roundRobins[n].name == name && roundRobins[n].endpoints != []
      {
        RouteHow(table, fanouts, roundRobins, name);
      }
    }

    /** ServeHTTP: the route of the request's host decides; `outcomes` is what its endpoints
        would give a fan-out, `tried` what a round-robin dispatch tried from `start` on. The
        status of the response that the dispatch settles on reaches the client; a dispatch
        that gives no response is reported as unavailable. */
    method ServeHTTP(host: string, bodyReadable: bool, outcomes: seq<Attempt>)
      returns (status: Status, ghost start: nat, ghost tried: seq<(string, Attempt)>)
      requires Valid()
      requires host in table && table[host].how == ByFanout ==> |outcomes| == |table[host].endpoints|
      modifies transport
      ensures status == NotFound <==> host !in table
      ensures transport.log == old(transport.log) + tried
      ensures host !in table || !bodyReadable || table[host].how == ByFanout ==> tried == []
      ensures host in table && !bodyReadable ==> status == ServiceUnavailable
      ensures host in table && table[host].how == ByFanout && bodyReadable ==>
                && ((exists a :: a in outcomes && a.Response? && a.status < 400) ==>
                      status.Passed? && status.status < 400)
                && ((exists a :: a in outcomes && a.Response?) <==> status.Passed?)
                && (status.Passed? ==> exists a :: a in outcomes && a.Response? && a.status == status.status)
      ensures host in table && table[host].how == ByRoundRobin && bodyReadable ==>
                var endpoints := table[host].endpoints;
                && start < |endpoints| && 0 < |tried| <= |endpoints|
                && (forall k :: 0 <= k < |tried| ==> tried[k].0 == Cycle(endpoints, start)[k])
                && (forall k :: 0 <= k < |tried| - 1 && tried[k].1.Response? ==> 400 <= tried[k].1.status)
                && var last := tried[|tried| - 1].1;
                   && (last.Response? ==> status == Passed(last.status))
                   && (last.Failed? ==> status == ServiceUnavailable)
                   && (|tried| < |endpoints| ==> last.Response? && last.status < 400)
    {
      start, tried := 0, [];
      if host !in table {
        return NotFound, start, tried;
      }
      var route := table[host];
      match route.how {
        case ByFanout =>
          var result, c := Fanout(bodyReadable, outcomes);
          match result {
            case Got(response) => status := Passed(response.status);
            case GaveUp(_) => status := ServiceUnavailable;
            case Nothing => assert false;
          }
        case ByRoundRobin =>
          var result;
          ghost var closes;
          result, start, tried, closes := RoundRobin(transport, bodyReadable, route.endpoints);
          match result {
            case Response(code, _) => status := Passed(code);
            case Failed(_) => status := ServiceUnavailable;
          }
      }
    }
  }
}
