/**
The outside of a process, as its code meets it: a clock, a store of serialised tasks, and
everybody else. The ghost state `s` is the protocol's view of the same moment; `Coupled`
says that the two agree and that the protocol can get there.
*/
module World {
  import opened Models
  import opened TaskJson
  import opened Lifecycle
  import opened Protocol
  import opened Invariants
  import opened Preservation

  datatype StoreError = NoError | ErrorTimeout | ErrorKeyNotFound | ErrorKeyComparisonFailed | ErrorOther

  /** A task behind a pointer, assigned in place. */
  class TaskRef {
    var value: Task

    constructor (t: Task)
      ensures value == t
    {
      value := t;
    }
  }

  /** The store holds the serialised forms of the protocol's tasks; a node beside them holds
      something that does not parse as a task. */
  ghost predicate NodesMatch(nodes: map<string, Json>, store: map<string, Task>) {
    && (forall g :: g in store ==> g in nodes && Encodable(store[g]) && nodes[g] == Encode(store[g]))
    && (forall g :: g in nodes && g !in store ==> Decode(nodes[g]).None?)
  }

  /** Every node once. */
  ghost predicate Enumerates(list: seq<(string, Json)>, nodes: map<string, Json>) {
    && (forall i :: 0 <= i < |list| ==> list[i].0 in nodes && nodes[list[i].0] == list[i].1)
    && (forall i, j :: 0 <= i < j < |list| ==> list[i].0 != list[j].0)
    && (forall g :: g in nodes ==> exists i :: 0 <= i < |list| && list[i].0 == g)
  }

  predicate Matches(nodes: map<string, Json>, key: string, value: Json) {
    key in nodes && nodes[key] == value
  }

  /** Comparing serialised forms compares tasks, so both swaps do the same. */
  lemma SwapMatches(nodes: map<string, Json>, s: State, old': Task, cause: Cause, new': Task)
    requires NodesMatch(nodes, s.store) && Encodable(old') && Encodable(new') && new'.guid == old'.guid
    ensures Matches(nodes, old'.guid, Encode(old')) <==> Holds(s, old')
    ensures Holds(s, old') ==> NodesMatch(nodes[old'.guid := Encode(new')], Write(s, cause, new').store)
  {
    hide Encode, Decode;
    DecodeInvertsEncode(old');
    if old'.guid in s.store {
      EncodeInjective(old', s.store[old'.guid]);
    }
  }

  // ---------- Steps taken, one lemma each ----------

  lemma BootTaken(f: Faults, s: State, e: ExecutorId, m: nat)
    requires Reachable(f, s) && e != "" && e !in s.memory
    ensures Reachable(f, AfterBoot(s, e, m)) && Reaches(f, s, AfterBoot(s, e, m))
  {
    ReachableStep(f, s, Boot(e, m));
  }

  lemma AnnounceTaken(f: Faults, s: State, e: ExecutorId)
    requires Reachable(f, s) && e in s.memory && e !in s.announced
    ensures Reachable(f, AfterAnnounce(s, e)) && Reaches(f, s, AfterAnnounce(s, e))
  {
    ReachableStep(f, s, Announce(e));
  }

  lemma ReceiveTaken(f: Faults, s: State, e: ExecutorId, t: Task)
    requires Reachable(f, s) && e in s.running && e in s.free && Claimable(t, s.clock) && t.memoryMB <= s.free[e]
    requires e in s.announced || f.latePresence
    ensures Reachable(f, AfterReceive(s, e, t)) && Reaches(f, s, AfterReceive(s, e, t))
  {
    ReachableStep(f, s, Receive(e, t));
  }

  lemma SendTaken(f: Faults, s: State, i: nat, handle: string, o: Outcome)
    requires Reachable(f, s) && i < |s.works| && s.works[i].owner in s.running
    requires s.works[i].phase in {Reserved, Holding, Executing}
    ensures Reachable(f, AfterSend(s, i, handle, o)) && Reaches(f, s, AfterSend(s, i, handle, o))
  {
    ReachableStep(f, s, Send(i, handle, o));
  }

  lemma CasTaken(f: Faults, s: State, i: nat, r: Reply)
    requires Reachable(f, s) && i < |s.works| && InFlight(s.works[i].phase) && Rested(s, TheWork(i))
    requires (r.Timeout? && r.applied ==> f.lostCasAcks) && (r.Failure? ==> f.casFailures)
    ensures Reachable(f, AfterCas(s, i, r)) && Reaches(f, s, AfterCas(s, i, r))
  {
    ReachableStep(f, s, CasReply(i, r));
  }

  lemma ReleaseTaken(f: Faults, s: State, i: nat)
    requires Reachable(f, s) && i < |s.works| && s.works[i].phase == Releasing
    requires s.works[i].owner in s.running && s.works[i].owner in s.free
    ensures Reachable(f, AfterRelease(s, i)) && Reaches(f, s, AfterRelease(s, i))
  {
    ReachableStep(f, s, Release(i));
  }

  lemma SubmitTaken(f: Faults, s: State, t: Task)
    requires Reachable(f, s) && Enabled(f, s, Submit(t))
    ensures Reachable(f, AfterSubmit(s, t)) && Reaches(f, s, AfterSubmit(s, t))
  {
    ReachableStep(f, s, Submit(t));
  }

  lemma CreateTaken(f: Faults, s: State, i: nat)
    requires Reachable(f, s) && i < |s.submissions| && s.submissions[i].phase == Unstamped
    requires Rested(s, TheSubmission(i))
    ensures Reachable(f, AfterCreate(s, i)) && Reaches(f, s, AfterCreate(s, i))
  {
    ReachableStep(f, s, StampCreated(i));
  }

  lemma StampTaken(f: Faults, s: State, i: nat)
    requires Reachable(f, s) && i < |s.submissions| && s.submissions[i].phase == Created
    ensures Reachable(f, AfterStamp(s, i)) && Reaches(f, s, AfterStamp(s, i))
  {
    ReachableStep(f, s, StampDesire(i));
  }

  lemma SetTaken(f: Faults, s: State, i: nat, r: Reply)
    requires Reachable(f, s) && i < |s.submissions| && s.submissions[i].phase == Setting
    requires r.Timeout? && r.applied ==> f.lostSetAcks
    ensures Reachable(f, AfterSet(s, i, r)) && Reaches(f, s, AfterSet(s, i, r))
  {
    ReachableStep(f, s, SetReply(i, r));
  }

  lemma SendResolveTaken(f: Faults, s: State, i: nat)
    requires Reachable(f, s) && i < |s.resolutions| && s.resolutions[i].phase == Received
    ensures Reachable(f, AfterSendResolve(s, i)) && Reaches(f, s, AfterSendResolve(s, i))
  {
    ReachableStep(f, s, SendResolve(i));
  }

  lemma AcceptTaken(f: Faults, s: State, t: Task)
    requires Reachable(f, s) && Resolvable(t, s.clock)
    ensures Reachable(f, AfterAccept(s, t)) && Reaches(f, s, AfterAccept(s, t))
  {
    ReachableStep(f, s, Accept(t));
  }

  lemma ResolveReplyTaken(f: Faults, s: State, i: nat, r: Reply)
    requires Reachable(f, s) && i < |s.resolutions| && s.resolutions[i].phase == ResolveSent
    requires Rested(s, TheResolution(i))
    requires (r.Timeout? && r.applied ==> f.lostResolveAcks) && (r.Failure? ==> f.resolveFailures)
    ensures Reachable(f, AfterResolve(s, i, r)) && Reaches(f, s, AfterResolve(s, i, r))
  {
    ReachableStep(f, s, ResolveReply(i, r));
  }

  lemma PublishTaken(f: Faults, s: State, i: nat, ok: bool)
    requires Reachable(f, s) && i < |s.resolutions| && s.resolutions[i].phase == Publishing
    ensures Reachable(f, AfterPublish(s, i, ok)) && Reaches(f, s, AfterPublish(s, i, ok))
  {
    ReachableStep(f, s, Publish(i, ok));
  }

  lemma DeleteTaken(f: Faults, s: State, i: nat, r: Reply)
    requires Reachable(f, s) && i < |s.resolutions| && s.resolutions[i].phase == Deleting
    requires Rested(s, TheResolution(i))
    ensures Reachable(f, AfterDelete(s, i, r)) && Reaches(f, s, AfterDelete(s, i, r))
  {
    ReachableStep(f, s, DeleteReply(i, r));
  }

  /** The protocol's answer to a work's request has the effect the store had. */
  lemma CasMatches(nodes: map<string, Json>, nodes': map<string, Json>, s: State, i: nat, r: Reply)
    requires NodesMatch(nodes, s.store) && i < |s.works| && InFlight(s.works[i].phase)
    requires Encodable(s.works[i].original) && Encodable(s.works[i].task)
    requires s.works[i].task.guid == s.works[i].original.guid
    requires var w := s.works[i];
             nodes' == if (r.Answer? || r.applied) && Matches(nodes, w.original.guid, Encode(w.original))
                       then nodes[w.original.guid := Encode(w.task)] else nodes
    ensures NodesMatch(nodes', AfterCas(s, i, r).store)
    ensures Matches(nodes, s.works[i].original.guid, Encode(s.works[i].original)) <==> Holds(s, s.works[i].original)
  {
    var w := s.works[i];
    SwapMatches(nodes, s, w.original, CauseOf(w.phase), w.task);
  }

  /** And settles the work, or puts it to sleep. */
  lemma CasSettles(s: State, i: nat, r: Reply)
    requires i < |s.works| && InFlight(s.works[i].phase)
    ensures var s', w := AfterCas(s, i, r), s.works[i];
            && |s'.works| == |s.works| && s'.clock == s.clock && s'.present == s.present
            && s'.running == s.running && s'.free == s.free && s'.memory == s.memory
            && s'.works[i] == w.(phase := if r.Timeout? then w.phase
                                          else if r.Answer? && Holds(s, w.original) then AfterSuccess(w.phase)
                                          else Releasing)
            && s'.waits == (if r.Timeout? then s.waits[TheWork(i) := s.clock + ONE_SECOND] else s.waits)
  {
    hide Write, CompareAndSwap, Holds, CauseOf, AfterSuccess;
  }

  lemma WonCas(s: State, i: nat)
    requires i < |s.works| && InFlight(s.works[i].phase) && Holds(s, s.works[i].original)
    ensures var s', w := AfterCas(s, i, Answer), s.works[i];
            Holds(s', w.task) && (w.phase == Completing ==> w.task in s'.completeKicks)
  {
  }

  /** Tasks in a work's hands can be serialised, and their guid is the key they came from. */
  lemma WorkEncodable(f: Faults, s: State, i: nat)
    requires Reachable(f, s) && i < |s.works| && s.works[i].phase !in {Releasing, WorkOver}
    ensures Encodable(Expected(s.works[i])) && Encodable(s.works[i].task)
    ensures s.works[i].task.guid == Expected(s.works[i]).guid
  {
    ReachableInv(f, s);
    assert WorkOk(s, s.works[i]);
    if s.works[i].phase !in {Reserved, Claiming} {
      WrittenFacts(s, Expected(s.works[i]));
    }
  }

  /** A request and how it was answered. */
  datatype Call =
    | TaskListing(err: StoreError, nodes: seq<(string, Json)>)
    | ExecutorListing(err: StoreError, names: set<string>)
    | SwapRequest(key: string, old': Json, new': Json, err: StoreError)
    | SetRequest(key: string, value: Json, err: StoreError)
    | Deletion(key: string, err: StoreError)

  /** From `before` to `after` one request was made, again and again as long as it timed out;
      `last` is the last time. */
  ghost predicate Retried(before: seq<Call>, after: seq<Call>, last: Call) {
    && |before| < |after| && before == after[..|before|] && after[|after| - 1] == last
    && forall k :: |before| <= k < |after| - 1 ==> after[k] == last.(err := ErrorTimeout)
  }

  /** All requests so far were this one and timed out. */
  ghost predicate AllTimedOut(before: seq<Call>, after: seq<Call>, c: Call) {
    && |before| <= |after| && before == after[..|before|]
    && forall k :: |before| <= k < |after| ==> after[k] == c.(err := ErrorTimeout)
  }

  lemma NothingAsked(calls: seq<Call>, c: Call)
    ensures forall e :: AllTimedOut(calls, calls, c.(err := e))
  {
  }

  lemma OneMoreTry(before: seq<Call>, after: seq<Call>, last: Call)
    requires AllTimedOut(before, after, last)
    ensures Retried(before, after + [last], last)
    ensures last.err == ErrorTimeout ==> forall e :: AllTimedOut(before, after + [last], last.(err := e))
  {
  }

  class World {
    /** What can go wrong out there. A quiet world stands still and loses nothing. */
    const f: Faults
    const quiet: bool
    var now: int
    var nodes: map<string, Json>
    var executors: set<string>
    /** How many more requests may time out: every run of timeouts is finite. */
    var timeouts: nat
    /** The requests of the call in hand, in order. */
    var calls: seq<Call>
    ghost var s: State

    constructor (f: Faults, quiet: bool, timeouts: nat)
      ensures Coupled() && s == INITIAL && this.f == f && this.quiet == quiet && this.timeouts == timeouts
    {
      this.f := f;
      this.quiet := quiet;
      this.timeouts := timeouts;
      now, nodes, executors, calls, s := 0, map[], {}, [], INITIAL;
      new;
      ReachesSelf(f, INITIAL);
    }

    ghost predicate Coupled()
      reads this
    {
      Reachable(f, s) && s.clock == now && NodesMatch(nodes, s.store) && executors == s.present
    }

    /** The clock of timeprovider, which may have advanced since it was last read. */
    method Time() returns (t: int)
      requires Coupled()
      modifies `now, `s
      ensures Coupled() && t == now && old(now) <= now
      ensures s == old(s).(clock := now) && Reaches(f, old(s), s) && (quiet ==> now == old(now))
    {
      var d :| 0 <= d && (quiet ==> d == 0);
      now := now + d;
      ReachableStep(f, s, Tick(d));
      s := s.(clock := now);
      t := now;
    }

    /** time.Sleep. */
    method Sleep(duration: nat)
      requires Coupled()
      modifies `now, `s
      ensures Coupled() && old(now) + duration <= now
      ensures s == old(s).(clock := now) && Reaches(f, old(s), s)
    {
      var d: nat :| duration <= d;
      now := now + d;
      ReachableStep(f, s, Tick(d));
      s := s.(clock := now);
    }

    /** etcd's compare-and-swap. An error may hide that it was applied: a timeout if this caller
        can lose acknowledgements, another error if it can see any. */
    method CompareAndSwap(key: string, old': Json, new': Json, lossy: bool, failing: bool)
      returns (err: StoreError, ghost applied: bool)
      modifies `nodes, `timeouts, `calls
      ensures calls == old(calls) + [SwapRequest(key, old', new', err)]
      ensures nodes == if applied && Matches(old(nodes), key, old') then old(nodes)[key := new'] else old(nodes)
      ensures err == NoError ==> applied && Matches(old(nodes), key, old')
      ensures err in {ErrorKeyNotFound, ErrorKeyComparisonFailed} ==> !Matches(old(nodes), key, old')
      ensures timeouts + (if err == ErrorTimeout then 1 else 0) <= old(timeouts)
      ensures err == ErrorTimeout && applied ==> lossy
      ensures err == ErrorOther ==> failing
      ensures quiet ==> applied
    {
      var fate := *;
      applied := fate;
      var lost := *;
      if timeouts > 0 && lost && !quiet {
        timeouts := timeouts - 1;
        applied := fate && lossy;
        if fate && lossy && Matches(nodes, key, old') {
          nodes := nodes[key := new'];
        }
        calls := calls + [SwapRequest(key, old', new', ErrorTimeout)];
        return ErrorTimeout, applied;
      }
      var broken := *;
      if broken && failing && !quiet {
        if fate && Matches(nodes, key, old') {
          nodes := nodes[key := new'];
        }
        calls := calls + [SwapRequest(key, old', new', ErrorOther)];
        return ErrorOther, applied;
      }
      applied := true;
      if key !in nodes {
        err := ErrorKeyNotFound;
      } else if nodes[key] != old' {
        err := ErrorKeyComparisonFailed;
      } else {
        err := NoError;
        nodes := nodes[key := new'];
      }
      calls := calls + [SwapRequest(key, old', new', err)];
    }

    /** The tasks' nodes, listed in some order; or an error, which may be that there is no
        directory to list. */
    method ListRecursively() returns (err: StoreError, list: seq<(string, Json)>)
      modifies `calls
      ensures calls == old(calls) + [TaskListing(err, list)]
      ensures err in {NoError, ErrorKeyNotFound, ErrorOther} && (quiet ==> err != ErrorOther)
      ensures err == NoError ==> Enumerates(list, nodes)
      ensures err == ErrorKeyNotFound ==> nodes == map[]
    {
      hide Encode, Decode, Reachable, NodesMatch;
      var broken, missing := *, *;
      list := [];
      if broken && !quiet {
        calls := calls + [TaskListing(ErrorOther, list)];
        return ErrorOther, list;
      } else if missing && nodes == map[] {
        calls := calls + [TaskListing(ErrorKeyNotFound, list)];
        return ErrorKeyNotFound, list;
      }
      err := NoError;
      var rest := nodes.Keys;
      while rest != {}
        invariant rest <= nodes.Keys
        invariant forall i :: 0 <= i < |list| ==> list[i].0 in nodes && list[i].0 !in rest && nodes[list[i].0] == list[i].1
        invariant forall i, j :: 0 <= i < j < |list| ==> list[i].0 != list[j].0
        invariant forall g :: g in nodes && g !in rest ==> exists i :: 0 <= i < |list| && list[i].0 == g
        decreases |rest|
      {
        var g :| g in rest;
        ghost var before := list;
        list := list + [(g, nodes[g])];
        rest := rest - {g};
        assert list[|before|].0 == g;
        forall h | h in nodes && h !in rest ensures exists i :: 0 <= i < |list| && list[i].0 == h {
          if h != g {
            var i :| 0 <= i < |before| && before[i].0 == h;
            assert list[i].0 == h;
          }
        }
      }
      calls := calls + [TaskListing(err, list)];
    }

    /** The executors' presence nodes, likewise. */
    method ListExecutors() returns (err: StoreError, list: set<string>)
      modifies `calls
      ensures calls == old(calls) + [ExecutorListing(err, list)]
      ensures err in {NoError, ErrorKeyNotFound, ErrorOther} && (quiet ==> err != ErrorOther)
      ensures err == NoError ==> list == executors
      ensures err == ErrorKeyNotFound ==> executors == {}
    {
      var broken, missing := *, *;
      list := {};
      if broken && !quiet {
        err := ErrorOther;
      } else if missing && executors == {} {
        err := ErrorKeyNotFound;
      } else {
        err, list := NoError, executors;
      }
      calls := calls + [ExecutorListing(err, list)];
    }

    /** An unconditional write of one node. An error may hide that it was applied. */
    method SetMulti(key: string, value: Json) returns (err: StoreError, ghost applied: bool)
      modifies `nodes, `timeouts, `calls
      ensures calls == old(calls) + [SetRequest(key, value, err)]
      ensures nodes == if applied then old(nodes)[key := value] else old(nodes)
      ensures err in {NoError, ErrorTimeout, ErrorOther} && (err == NoError ==> applied)
      ensures timeouts + (if err == ErrorTimeout then 1 else 0) <= old(timeouts)
      ensures err == ErrorTimeout && applied ==> f.lostSetAcks
    {
      var fate, lost, broken := *, *, *;
      if timeouts > 0 && lost {
        timeouts := timeouts - 1;
        applied := fate && f.lostSetAcks;
        if fate && f.lostSetAcks {
          nodes := nodes[key := value];
        }
        calls := calls + [SetRequest(key, value, ErrorTimeout)];
        return ErrorTimeout, applied;
      }
      applied := fate || !broken;
      if fate || !broken {
        nodes := nodes[key := value];
      }
      err := if broken then ErrorOther else NoError;
      calls := calls + [SetRequest(key, value, err)];
    }

    /** An unconditional delete. An error may hide that it was applied. */
    method Delete(key: string) returns (err: StoreError, ghost applied: bool)
      modifies `nodes, `timeouts, `calls
      ensures calls == old(calls) + [Deletion(key, err)]
      ensures nodes == if applied then old(nodes) - {key} else old(nodes)
      ensures err in {NoError, ErrorTimeout, ErrorKeyNotFound, ErrorOther}
      ensures err == NoError ==> applied && key in old(nodes)
      ensures err == ErrorKeyNotFound ==> applied && key !in old(nodes)
      ensures timeouts + (if err == ErrorTimeout then 1 else 0) <= old(timeouts)
      ensures quiet ==> applied
    {
      var fate, lost, broken := *, *, *;
      if timeouts > 0 && lost && !quiet {
        timeouts := timeouts - 1;
        err := ErrorTimeout;
      } else if broken && !quiet {
        err := ErrorOther;
      } else {
        err := if key in nodes then NoError else ErrorKeyNotFound;
      }
      calls := calls + [Deletion(key, err)];
      applied := fate || err in {NoError, ErrorKeyNotFound};
      if fate || err in {NoError, ErrorKeyNotFound} {
        nodes := nodes - {key};
      }
    }
  }

  /** The protocol's name for what the store answered. */
  function ReplyFor(err: StoreError, applied: bool): Reply {
    match err
    case ErrorTimeout => Timeout(applied)
    case ErrorOther => Failure(applied)
    case _ => Answer
  }
}
