/** The hurler's two ways of passing a request on: one endpoint after another, or all at once. */
module Dispatch {

  /** What a round trip to an endpoint gives. `id` tells responses apart. */
  datatype Attempt = Failed(error: string) | Response(status: int, id: int)

  /** The endpoints tried and what each gave, and the responses whose bodies were closed. */
  class Transport {
    var log: seq<(string, Attempt)>
    var closed: seq<Attempt>

    constructor ()
      ensures log == [] && closed == []
    {
      log, closed := [], [];
    }

    method RoundTrip(addr: string) returns (a: Attempt)
      modifies `log
      ensures log == old(log) + [(addr, a)]
    {
      a := *;
      log := log + [(addr, a)];
    }

    method Close(a: Attempt)
      modifies `closed
      ensures closed == old(closed) + [a]
    {
      closed := closed + [a];
    }
  }

  // ---------- Round robin ----------

  /** The endpoints in cyclic order from `start`. */
  function Cycle(endpoints: seq<string>, start: nat): seq<string>
    requires start < |endpoints|
  {
    endpoints[start..] + endpoints[..start]
  }

  /** RoundRobin. Without a readable body nothing is tried. With one, a prefix of the cycle is
      tried, all but its last attempt being no good, and it is the whole cycle unless the last
      one was; the result is the last attempt's. Of the others exactly the responses are closed:
      `closes` are their positions, in the order in which they came. */
  method RoundRobin(transport: Transport, bodyReadable: bool, endpoints: seq<string>)
    returns (result: Attempt, ghost start: nat, ghost tried: seq<(string, Attempt)>, ghost closes: seq<nat>)
    requires |endpoints| > 0
    modifies transport
    ensures transport.log == old(transport.log) + tried && start < |endpoints|
    ensures !bodyReadable ==> tried == [] && closes == [] && result.Failed?
    ensures bodyReadable ==> 0 < |tried| <= |endpoints| && result == tried[|tried| - 1].1
    ensures forall k :: 0 <= k < |tried| ==> tried[k].0 == Cycle(endpoints, start)[k]
    ensures forall k :: 0 <= k < |tried| - 1 && tried[k].1.Response? ==> 400 <= tried[k].1.status
    ensures 0 < |tried| < |endpoints| ==> result.Response? && result.status < 400
    ensures forall k :: k in closes <==> 0 <= k < |tried| - 1 && tried[k].1.Response?
    ensures forall j, k :: 0 <= j < k < |closes| ==> closes[j] < closes[k]
    ensures |transport.closed| == |old(transport.closed)| + |closes| && old(transport.closed) <= transport.closed
    ensures forall j :: 0 <= j < |closes| ==>
              closes[j] < |tried| && transport.closed[|old(transport.closed)| + j] == tried[closes[j]].1
  {
    var startingPoint: nat :| startingPoint < |endpoints|;
    start := startingPoint;
    tried, closes := [], [];
    if !bodyReadable {
      return Failed("unreadable body"), start, tried, closes;
    }
    var attempts: nat := 0;
    var i: nat := startingPoint;
    while true
      invariant |tried| == attempts < |endpoints|
      invariant i == if start + attempts <= |endpoints| then start + attempts else start + attempts - |endpoints|
      invariant forall k :: 0 <= k < attempts ==> tried[k].0 == Cycle(endpoints, start)[k]
      invariant forall k :: 0 <= k < attempts && tried[k].1.Response? ==> 400 <= tried[k].1.status
      invariant transport.log == old(transport.log) + tried
      invariant forall k :: k in closes <==> 0 <= k < attempts && tried[k].1.Response?
      invariant forall j, k :: 0 <= j < k < |closes| ==> closes[j] < closes[k]
      invariant |transport.closed| == |old(transport.closed)| + |closes| && old(transport.closed) <= transport.closed
      invariant forall j :: 0 <= j < |closes| ==>
                  closes[j] < |tried| && transport.closed[|old(transport.closed)| + j] == tried[closes[j]].1
      decreases |endpoints| - attempts
    {
      if i == |endpoints| {
        i := 0;
      }
      result := transport.RoundTrip(endpoints[i]);
      tried := tried + [(endpoints[i], result)];
      attempts := attempts + 1;
      i := i + 1;
      if attempts == |endpoints| {
        return;
      }
      if result.Failed? {
        continue;
      }
      if result.status < 400 {
        return;
      }
      transport.Close(result);
      closes := closes + [attempts - 1];
    }
  }

  /** The cycle visits every position once. */
  lemma CycleVisitsAll(endpoints: seq<string>, start: nat, j: nat)
    requires start < |endpoints| && j < |endpoints|
    ensures |Cycle(endpoints, start)| == |endpoints|
    ensures multiset(Cycle(endpoints, start)) == multiset(endpoints)
    ensures Cycle(endpoints, start)[if start <= j then j - start else j + |endpoints| - start] == endpoints[j]
  {
    assert endpoints == endpoints[..start] + endpoints[start..];
  }

  // ---------- Fan-out ----------

  /** The result of a fan-out: a response, an error, or neither. */
  datatype Fanned = Got(response: Attempt) | GaveUp(error: string) | Nothing

  /** The two channels and the goroutines that have not sent yet. */
  datatype Channels = Channels(errs: seq<Attempt>, responses: seq<Attempt>, unsent: set<nat>)

  /** Nobody has sent twice, and everything sent has been received or is in a buffer. */
  ghost predicate Balanced(c: Channels, outcomes: seq<Attempt>, received: nat) {
    && (forall k :: k in c.unsent ==> k < |outcomes|)
    && |c.errs| + |c.responses| + |c.unsent| + received == |outcomes|
    && (forall a :: a in c.errs ==> a.Failed? && a in outcomes)
    && (forall a :: a in c.responses ==> a.Response? && a in outcomes)
  }

  /** One goroutine's round trip ends and its outcome goes into a channel of capacity
      `|outcomes|`, which has room. */
  method Send(c: Channels, outcomes: seq<Attempt>, ghost received: nat) returns (c': Channels)
    requires Balanced(c, outcomes, received) && c.unsent != {}
    ensures Balanced(c', outcomes, received) && c'.unsent < c.unsent
    ensures exists k :: k in c.unsent && k < |outcomes| && c'.unsent == c.unsent - {k}
              && c' == if outcomes[k].Failed? then c.(errs := c.errs + [outcomes[k]], unsent := c'.unsent)
                       else c.(responses := c.responses + [outcomes[k]], unsent := c'.unsent)
    ensures |c.errs| < |outcomes| && |c.responses| < |outcomes|
  {
    var k :| k in c.unsent;
    assert |c.unsent - {k}| == |c.unsent| - 1;
    if outcomes[k].Failed? {
      c' := c.(errs := c.errs + [outcomes[k]], unsent := c.unsent - {k});
    } else {
      c' := c.(responses := c.responses + [outcomes[k]], unsent := c.unsent - {k});
    }
  }

  /** Every outcome that is not in sight any more has been received. */
  ghost predicate NoneLost(c: Channels, outcomes: seq<Attempt>, seen: seq<Attempt>) {
    && (forall a :: a in seen ==> a in outcomes)
    && forall k :: 0 <= k < |outcomes| ==>
         k in c.unsent || outcomes[k] in c.errs || outcomes[k] in c.responses || outcomes[k] in seen
  }

  lemma SendLosesNothing(c: Channels, c': Channels, outcomes: seq<Attempt>, seen: seq<Attempt>, k: nat)
    requires NoneLost(c, outcomes, seen) && k in c.unsent && k < |outcomes| && c'.unsent == c.unsent - {k}
    requires c' == if outcomes[k].Failed? then c.(errs := c.errs + [outcomes[k]], unsent := c'.unsent)
                   else c.(responses := c.responses + [outcomes[k]], unsent := c'.unsent)
    ensures NoneLost(c', outcomes, seen)
  {
  }

  /** One goroutine per endpoint. */
  function Below(n: nat): (ks: set<nat>)
    ensures |ks| == n && forall k: nat :: k in ks <==> k < n
  {
    if n == 0 then {} else Below(n - 1) + {n - 1}
  }

  /** The goroutines send, some or all of them, until there is something to receive. */
  method LetSend(c: Channels, outcomes: seq<Attempt>, ghost received: nat, ghost seen: seq<Attempt>) returns (c': Channels)
    requires Balanced(c, outcomes, received) && NoneLost(c, outcomes, seen) && received < |outcomes|
    ensures Balanced(c', outcomes, received) && NoneLost(c', outcomes, seen)
    ensures c'.errs != [] || c'.responses != []
  {
    c' := c;
    var more := *;
    while c'.unsent != {} && ((c'.errs == [] && c'.responses == []) || more)
      invariant Balanced(c', outcomes, received) && NoneLost(c', outcomes, seen)
      decreases |c'.unsent|
    {
      ghost var before := c';
      c' := Send(c', outcomes, received);
      ghost var k :| k in before.unsent && k < |outcomes| && c'.unsent == before.unsent - {k}
        && c' == if outcomes[k].Failed? then before.(errs := before.errs + [outcomes[k]], unsent := c'.unsent)
                 else before.(responses := before.responses + [outcomes[k]], unsent := c'.unsent);
      SendLosesNothing(before, c', outcomes, seen, k);
      more := *;
    }
  }

  /** Fanout, for whatever the endpoints give and in whatever order that arrives: a good
      response if there is one, else some response that was received, else some error. At the
      end both channels have room for everyone who has not sent. */
  method Fanout(bodyReadable: bool, outcomes: seq<Attempt>) returns (result: Fanned, c: Channels)
    ensures !bodyReadable ==> result.GaveUp?
    ensures result.Got? ==> result.response.Response? && result.response in outcomes
    ensures bodyReadable && (exists a :: a in outcomes && a.Response? && a.status < 400) ==>
              result.Got? && result.response.status < 400
    ensures bodyReadable && (exists a :: a in outcomes && a.Response?) ==> result.Got?
    ensures bodyReadable ==> (result.Nothing? <==> outcomes == [])
    ensures bodyReadable && result.GaveUp? ==> Failed(result.error) in outcomes
    ensures |c.errs| + |c.unsent| <= |outcomes| && |c.responses| + |c.unsent| <= |outcomes|
  {
    c := Channels([], [], Below(|outcomes|));
    if !bodyReadable {
      return GaveUp("unreadable body"), Channels([], [], {});
    }
    var last := Nothing;
    var fanoutErr := Nothing;
    ghost var seen: seq<Attempt> := [];
    for i := 0 to |outcomes|
      invariant Balanced(c, outcomes, i) && NoneLost(c, outcomes, seen)
      invariant forall a :: a in seen && a.Response? ==> 400 <= a.status
      invariant last.Nothing? || (last.Got? && last.response.Response? && last.response in outcomes)
      invariant fanoutErr.Nothing? || (fanoutErr.GaveUp? && Failed(fanoutErr.error) in outcomes)
      invariant last.Nothing? ==> forall a :: a in seen ==> a.Failed?
      invariant i > 0 && last.Nothing? ==> fanoutErr.GaveUp?
    {
      c := LetSend(c, outcomes, i, seen);
      ghost var before := c;
      var first := *;
      if c.responses == [] || (first && c.errs != []) {
        var e := c.errs[0];
        c := c.(errs := c.errs[1..]);
        assert e in before.errs && before.errs == [e] + c.errs;
        fanoutErr := GaveUp(e.error);
        seen := seen + [e];
      } else {
        var r := c.responses[0];
        c := c.(responses := c.responses[1..]);
        assert r in before.responses && before.responses == [r] + c.responses;
        last := Got(r);
        if r.status < 400 {
          return last, c;
        }
        seen := seen + [r];
      }
    }
    assert forall a :: a in outcomes ==> a in seen;
    result := if last.Got? then last else fanoutErr;
  }
}
