/**
The stager's calls, statement by statement, with everybody else at work in between: it
desires tasks, and it resolves, answers and deletes completed ones.
*/
module Stager {
  import opened Models
  import opened TaskJson
  import opened Lifecycle
  import opened Protocol
  import opened Invariants
  import opened Preservation
  import opened Requests
  import opened World

  /** Tasks in a resolution's hands can be serialised, and keep their guid. */
  lemma ResolutionEncodable(f: Faults, s: State, i: nat)
    requires Reachable(f, s) && i < |s.resolutions| && s.resolutions[i].phase in {Received, ResolveSent, Publishing}
    ensures Encodable(s.resolutions[i].task)
    ensures s.resolutions[i].phase == ResolveSent ==>
              Encodable(s.resolutions[i].original) && s.resolutions[i].original.guid == s.resolutions[i].task.guid
  {
    ReachableInv(f, s);
    var x := s.resolutions[i];
    assert ResolutionOk(s, x);
    if x.phase == Publishing {
      WrittenFacts(s, x.task);
    }
  }

  lemma ResolveMatches(nodes: map<string, Json>, nodes': map<string, Json>, s: State, i: nat, r: Reply)
    requires NodesMatch(nodes, s.store) && i < |s.resolutions|
    requires Encodable(s.resolutions[i].original) && Encodable(s.resolutions[i].task)
    requires s.resolutions[i].task.guid == s.resolutions[i].original.guid
    requires var x := s.resolutions[i];
             nodes' == if (r.Answer? || r.applied) && Matches(nodes, x.original.guid, Encode(x.original))
                       then nodes[x.original.guid := Encode(x.task)] else nodes
    ensures NodesMatch(nodes', AfterResolve(s, i, r).store)
    ensures Matches(nodes, s.resolutions[i].original.guid, Encode(s.resolutions[i].original))
            <==> Holds(s, s.resolutions[i].original)
    ensures r.Answer? && Holds(s, s.resolutions[i].original) ==> Holds(AfterResolve(s, i, r), s.resolutions[i].task)
    ensures AfterResolve(s, i, r).resolutions[i] ==
              s.resolutions[i].(phase := if r.Timeout? then s.resolutions[i].phase
                                         else if r.Answer? && Holds(s, s.resolutions[i].original) then Publishing
                                         else ResolutionOver)
    ensures AfterResolve(s, i, r).clock == s.clock && AfterResolve(s, i, r).present == s.present
    ensures |AfterResolve(s, i, r).resolutions| == |s.resolutions|
    ensures AfterResolve(s, i, r).waits == if r.Timeout? then s.waits[TheResolution(i) := s.clock + ONE_SECOND] else s.waits
  {
    var x := s.resolutions[i];
    SwapMatches(nodes, s, x.original, ResolveTaken, x.task);
  }

  lemma SetMatches(nodes: map<string, Json>, nodes': map<string, Json>, s: State, i: nat, r: Reply)
    requires NodesMatch(nodes, s.store) && i < |s.submissions| && Encodable(s.submissions[i].task)
    requires var t := s.submissions[i].task;
             nodes' == if r.Answer? || r.applied then nodes[t.guid := Encode(t)] else nodes
    ensures NodesMatch(nodes', AfterSet(s, i, r).store)
    ensures |AfterSet(s, i, r).submissions| == |s.submissions|
    ensures AfterSet(s, i, r).submissions[i] ==
              s.submissions[i].(phase := if r.Timeout? then Unstamped else Submitted)
    ensures AfterSet(s, i, r).clock == s.clock && AfterSet(s, i, r).present == s.present
    ensures r.Timeout? ==> AfterSet(s, i, r).waits == s.waits[TheSubmission(i) := s.clock + ONE_SECOND]
    ensures r.Answer? ==> Holds(AfterSet(s, i, r), s.submissions[i].task)
    ensures r.Answer? ==> s.submissions[i].task in AfterSet(s, i, r).desireKicks
  {
    hide Encode, Decode;
  }

  class Handler {
    const world: World

    constructor (world: World)
      ensures this.world == world
    {
      this.world := world;
    }

    /** Everybody else: a run of the protocol that leaves submission `i` and resolution `j` alone;
        what has been stored has been stored, and what has been published stays published. */
    method Interfere(ghost i: nat, ghost j: nat)
      requires world.Coupled()
      modifies world
      ensures world.Coupled() && world.timeouts == old(world.timeouts) && old(world.now) <= world.now
      ensures ReachesBeside(world.f, old(world.s), world.s, {TheSubmission(i), TheResolution(j)})
      ensures Reaches(world.f, old(world.s), world.s) && Later(old(world.s), world.s)
      ensures world.calls == old(world.calls)
      ensures Rested(old(world.s), TheSubmission(i)) ==> Rested(world.s, TheSubmission(i))
      ensures Rested(old(world.s), TheResolution(j)) ==> Rested(world.s, TheResolution(j))
      ensures i < |old(world.s).submissions| ==>
                i < |world.s.submissions| && world.s.submissions[i] == old(world.s).submissions[i]
      ensures j < |old(world.s).resolutions| ==>
                j < |world.s.resolutions| && world.s.resolutions[j] == old(world.s).resolutions[j]
    {
      BesideSelf(world.f, world.s, {TheSubmission(i), TheResolution(j)});
    }

    ghost predicate Later(s: State, s': State) {
      (forall t :: Written(s, t) ==> Written(s', t)) && s.published <= s'.published
    }

    ghost predicate Submits(i: nat, p: SubmissionPhase, t: Task)
      reads this, world
    {
      i < |world.s.submissions| && world.s.submissions[i] == Submission(p, t)
    }

    /** `u` is `t` as desired at some time from `since` on, and created then if it had not been. */
    ghost predicate DesiredFrom(t: Task, u: Task, since: int) {
      && u == t.(createdAt := u.createdAt, updatedAt := u.updatedAt, state := Pending)
      && (if t.createdAt == 0 then since <= u.createdAt else u.createdAt == t.createdAt)
      && u.createdAt <= u.updatedAt && since <= u.updatedAt
    }

    /** The stamping at the head of the callback: the creation time is set once, the update
        time every time, from two readings of the clock. */
    method StampTask(task: TaskRef, ghost i: nat)
      requires world.Coupled() && Submits(i, Unstamped, task.value) && task.value.createdAt <= world.now
      requires Rested(world.s, TheSubmission(i))
      modifies world`now, world`s, task
      ensures world.Coupled() && Reaches(world.f, old(world.s), world.s) && Submits(i, Setting, task.value)
      ensures DesiredFrom(old(task.value), task.value, old(world.now)) && task.value.updatedAt <= world.now
    {
      hide Reachable, Reaches, Encode, Decode, NodesMatch;
      ReachesChain(world.f);
      if task.value.createdAt == 0 {
        var created := world.Time();
        task.value := task.value.(createdAt := created);
      }
      CreateTaken(world.f, world.s, i);
      world.s := AfterCreate(world.s, i);
      var updated := world.Time();
      task.value := task.value.(updatedAt := updated);
      task.value := task.value.(state := Pending);
      StampTaken(world.f, world.s, i);
      world.s := AfterStamp(world.s, i);
    }

    /** The set at the end of the callback, and the kick if it is acknowledged. */
    method SetTask(task: TaskRef, ghost i: nat) returns (err: StoreError, kicks: nat)
      requires world.Coupled() && Submits(i, Setting, task.value) && Encodable(task.value)
      modifies world
      ensures world.Coupled() && Reaches(world.f, old(world.s), world.s) && old(world.now) <= world.now
      ensures world.timeouts + (if err == ErrorTimeout then 1 else 0) <= old(world.timeouts)
      ensures world.calls == old(world.calls) + [SetRequest(task.value.guid, Encode(task.value), err)]
      ensures err == ErrorTimeout ==>
                TheSubmission(i) in world.s.waits && world.s.waits[TheSubmission(i)] == world.now + ONE_SECOND
      ensures Submits(i, if err == ErrorTimeout then Unstamped else Submitted, task.value)
      ensures err == NoError ==> Holds(world.s, task.value) && task.value in world.s.desireKicks
      ensures kicks == if err == NoError then 1 else 0
    {
      hide Encode, Decode, Reachable, Reaches, NodesMatch, AfterSet;
      ReachesChain(world.f);
      kicks := 0;
      Interfere(i, 0);
      ghost var nodes, applied := world.nodes, false;
      err, applied := world.SetMulti(task.value.guid, Encode(task.value));
      ghost var reply := ReplyFor(err, applied);
      SetTaken(world.f, world.s, i, reply);
      SetMatches(nodes, world.nodes, world.s, i, reply);
      world.s := AfterSet(world.s, i, reply);
      if err == NoError {
        kicks := kicks + 1;
      }
    }

    /** A set of some version of `t`, desired at some time from `since` on, that timed out. */
    ghost predicate TimedOutSet(c: Call, t: Task, since: int) {
      c.SetRequest? && c.key == t.guid && c.err == ErrorTimeout
      && exists u :: DesiredFrom(t, u, since) && Encodable(u) && c.value == Encode(u)
    }

    /** From `before` to `after` the store was asked to set `t` in one version after the other,
        as long as that timed out. */
    ghost predicate Resent(before: seq<Call>, after: seq<Call>, t: Task, since: int) {
      && |before| <= |after| && before == after[..|before|]
      && forall k :: |before| <= k < |after| ==> TimedOutSet(after[k], t, since)
    }

    lemma SentAgain(before: seq<Call>, after: seq<Call>, t: Task, u: Task, since: int)
      requires Resent(before, after, t, since) && DesiredFrom(t, u, since) && Encodable(u)
      ensures Resent(before, after + [SetRequest(t.guid, Encode(u), ErrorTimeout)], t, since)
    {
      hide Encode, DesiredFrom;
      assert TimedOutSet(SetRequest(t.guid, Encode(u), ErrorTimeout), t, since);
    }

    /** One attempt: the task is stamped and the store asked to set it. */
    method TryDesire(task: TaskRef, ghost i: nat) returns (err: StoreError, kicks: nat)
      requires world.Coupled() && Submits(i, Unstamped, task.value) && Encodable(task.value)
      requires task.value.createdAt <= world.now && Rested(world.s, TheSubmission(i))
      modifies world, task
      ensures world.Coupled() && Reaches(world.f, old(world.s), world.s)
      ensures DesiredFrom(old(task.value), task.value, old(world.now)) && task.value.updatedAt <= world.now
      ensures Encodable(task.value)
      ensures world.calls == old(world.calls) + [SetRequest(task.value.guid, Encode(task.value), err)]
      ensures world.timeouts + (if err == ErrorTimeout then 1 else 0) <= old(world.timeouts)
      ensures err == ErrorTimeout ==>
                TheSubmission(i) in world.s.waits && world.s.waits[TheSubmission(i)] == world.now + ONE_SECOND
      ensures Submits(i, if err == ErrorTimeout then Unstamped else Submitted, task.value)
      ensures err == NoError ==> Holds(world.s, task.value) && task.value in world.s.desireKicks
      ensures kicks == if err == NoError then 1 else 0
    {
      hide Encode, Decode, Reachable, Reaches, NodesMatch;
      ReachesChain(world.f);
      Interfere(i, 0);
      StampTask(task, i);
      err, kicks := SetTask(task, i);
    }

    /** DesireTask with its retry loop: it asks at least once, again a second after each timeout
        with the task stamped anew, and returns the first other answer; the attempt that is
        acknowledged is kicked, once. */
    method DesireTask(task: TaskRef) returns (err: StoreError, kicks: nat, ghost i: nat)
      requires world.Coupled() && Enabled(world.f, world.s, Submit(task.value))
      modifies world, task
      ensures world.Coupled() && err != ErrorTimeout && Reaches(world.f, old(world.s), world.s)
      ensures Submits(i, Submitted, task.value) && DesiredFrom(old(task.value), task.value, old(world.now))
      ensures Encodable(task.value) && |world.calls| > |old(world.calls)|
      ensures Resent(old(world.calls), world.calls[..|world.calls| - 1], old(task.value), old(world.now))
      ensures world.calls[|world.calls| - 1] == SetRequest(task.value.guid, Encode(task.value), err)
      ensures err == NoError ==> Holds(world.s, task.value) && task.value in world.s.desireKicks
      ensures kicks == if err == NoError then 1 else 0
    {
      hide Encode, Decode, Reachable, Reaches, NodesMatch, Resent, DesiredFrom, Encodable;
      ReachesChain(world.f);
      NewCallsRested(world.f, world.s);
      NothingSent(world.calls, task.value, world.now);
      i := |world.s.submissions|;
      SubmitTaken(world.f, world.s, task.value);
      world.s := AfterSubmit(world.s, task.value);
      while true
        invariant world.Coupled() && Reaches(world.f, old(world.s), world.s) && Submits(i, Unstamped, task.value)
        invariant task.value == old(task.value) || DesiredFrom(old(task.value), task.value, old(world.now))
        invariant Encodable(task.value) && task.value.createdAt <= world.now && old(world.now) <= world.now
        invariant Rested(world.s, TheSubmission(i))
        invariant |old(world.calls)| <= |world.calls|
        invariant Resent(old(world.calls), world.calls, old(task.value), old(world.now))
        decreases world.timeouts
      {
        ghost var calls, u, now := world.calls, task.value, world.now;
        err, kicks := TryDesire(task, i);
        assert world.calls[..|world.calls| - 1] == calls;
        StampedAgain(old(task.value), u, task.value, old(world.now), now);
        if err != ErrorTimeout {
          return;
        }
        SentAgain(old(world.calls), calls, old(task.value), task.value, old(world.now));
        world.Sleep(ONE_SECOND);
      }
    }

    /** A version stamped anew is still a version of the first. */
    lemma StampedAgain(t: Task, u: Task, v: Task, since: int, later: int)
      requires (u == t || DesiredFrom(t, u, since)) && DesiredFrom(u, v, later) && since <= later
      ensures DesiredFrom(t, v, since) && v.guid == t.guid && (Encodable(u) ==> Encodable(v)) && v.createdAt <= v.updatedAt
    {
    }

    lemma NothingSent(calls: seq<Call>, t: Task, since: int)
      ensures Resent(calls, calls, t, since)
    {
    }

    ghost predicate Resolves(j: nat, p: ResolutionPhase, t: Task)
      reads this, world
    {
      j < |world.s.resolutions| && world.s.resolutions[j].phase == p && world.s.resolutions[j].task == t
    }

    /** The callback of ResolvingTask: a single compare-and-swap of the store. */
    method TryResolving(task: TaskRef, original: Json, ghost t: Task, ghost j: nat)
      returns (err: StoreError, ghost applied: nat)
      requires world.Coupled() && j < |world.s.resolutions|
      requires world.s.resolutions[j] == Resolution(ResolveSent, task.value, t)
      requires Encodable(t) && original == Encode(t) && Rested(world.s, TheResolution(j))
      modifies world
      ensures world.Coupled() && Reaches(world.f, old(world.s), world.s) && Encodable(task.value)
      ensures world.calls == old(world.calls) + [SwapRequest(task.value.guid, original, Encode(task.value), err)]
      ensures world.now == old(world.now)
      ensures if err == ErrorTimeout then world.s.waits == old(world.s).waits[TheResolution(j) := world.now + ONE_SECOND]
              else world.s.waits == old(world.s).waits
      ensures world.timeouts + (if err == ErrorTimeout then 1 else 0) <= old(world.timeouts)
      ensures j < |world.s.resolutions|
      ensures world.s.resolutions[j] ==
                Resolution(if err == NoError then Publishing
                           else if err == ErrorTimeout then ResolveSent else ResolutionOver,
                           task.value, t)
      ensures Applies(world.f, old(world.s), world.s, ResolveOf(j, old(world.s).resolutions[j]), applied)
      ensures err == NoError ==> applied == 1 && Holds(world.s, task.value)
      ensures TruthfulResolve(world.f) ==> applied == if err == NoError then 1 else 0
    {
      hide Encode, Decode, Reachable, Reaches, Applies, NodesMatch, AfterResolve;
      ResolutionEncodable(world.f, world.s, j);
      ghost var nodes, s, took := world.nodes, world.s, false;
      err, took := world.CompareAndSwap(task.value.guid, original, Encode(task.value),
                                        world.f.lostResolveAcks, world.f.resolveFailures);
      ghost var reply := ReplyFor(err, took);
      ResolveReplyTaken(world.f, s, j, reply);
      ResolveMatches(nodes, world.nodes, s, j, reply);
      ResolveApplies(world.f, s, j, reply);
      applied := if Took(reply) && Holds(s, t) then 1 else 0;
      world.s := AfterResolve(s, j, reply);
    }

    /** The loop around it: it asks at least once, again a second after each timeout, and returns
        the first other answer. `applications` counts how often the swap was applied, by all
        attempts. */
    method RetryResolving(task: TaskRef, original: Json, ghost t: Task, ghost j: nat)
      returns (err: StoreError, ghost applications: nat)
      requires world.Coupled() && j < |world.s.resolutions|
      requires world.s.resolutions[j] == Resolution(ResolveSent, task.value, t)
      requires Encodable(t) && original == Encode(t) && Encodable(task.value) && Rested(world.s, TheResolution(j))
      modifies world
      ensures world.Coupled() && err != ErrorTimeout && Reaches(world.f, old(world.s), world.s)
      ensures Retried(old(world.calls), world.calls, SwapRequest(task.value.guid, original, Encode(task.value), err))
      ensures Rested(world.s, TheResolution(j)) && old(world.now) <= world.now
      ensures j < |world.s.resolutions|
      ensures world.s.resolutions[j] == Resolution(if err == NoError then Publishing else ResolutionOver, task.value, t)
      ensures Applies(world.f, old(world.s), world.s, ResolveOf(j, old(world.s).resolutions[j]), applications)
      ensures err == NoError ==> applications >= 1 && Holds(world.s, task.value)
      ensures TruthfulResolve(world.f) ==> applications == if err == NoError then 1 else 0
    {
      hide Encode, Decode, Reachable, Reaches, ReachesBeside, Applies, NodesMatch, Later, Retried, AllTimedOut;
      ReachesChain(world.f);
      ghost var s0, x := world.s, world.s.resolutions[j];
      applications := 0;
      AppliesSelf(world.f, s0, ResolveOf(j, x));
      NothingAsked(world.calls, SwapRequest(task.value.guid, original, Encode(task.value), NoError));
      while true
        invariant Rested(world.s, TheResolution(j)) && old(world.now) <= world.now
        invariant forall e ::
                    AllTimedOut(old(world.calls), world.calls, SwapRequest(task.value.guid, original, Encode(task.value), e))
        invariant world.Coupled() && j < |world.s.resolutions| && world.s.resolutions[j] == x
        invariant Reaches(world.f, s0, world.s) && Applies(world.f, s0, world.s, ResolveOf(j, x), applications)
        invariant TruthfulResolve(world.f) ==> applications == 0
        decreases world.timeouts
      {
        ghost var s1 := world.s;
        Interfere(0, j);
        ghost var s2, applied, calls := world.s, 0, world.calls;
        BesideApplies(world.f, s1, s2, {TheSubmission(0), TheResolution(j)}, ResolveOf(j, x));
        AppliesOn(world.f, s0, s1, s2, ResolveOf(j, x), applications, 0);
        err, applied := TryResolving(task, original, t, j);
        AppliesOn(world.f, s0, s2, world.s, ResolveOf(j, x), applications, applied);
        applications := applications + applied;
        OneMoreTry(old(world.calls), calls, SwapRequest(task.value.guid, original, Encode(task.value), err));
        if err != ErrorTimeout {
          return;
        }
        ghost var s3 := world.s;
        world.Sleep(ONE_SECOND);
        AppliesSleep(world.f, s3, world.now - s3.clock, ResolveOf(j, x));
        AppliesOn(world.f, s0, s3, world.s, ResolveOf(j, x), applications, 0);
      }
    }

    method ResolvingTask(task: TaskRef, ghost j: nat) returns (err: StoreError)
      requires world.Coupled() && j < |world.s.resolutions|
      requires world.s.resolutions[j].phase == Received && world.s.resolutions[j].task == task.value
      requires Rested(world.s, TheResolution(j))
      modifies world, task
      ensures world.Coupled() && err != ErrorTimeout && Reaches(world.f, old(world.s), world.s)
      ensures task.value == old(task.value).(updatedAt := task.value.updatedAt, state := Resolving)
      ensures old(world.now) <= task.value.updatedAt <= world.now
      ensures Resolves(j, if err == NoError then Publishing else ResolutionOver, task.value)
      ensures Rested(world.s, TheResolution(j)) && Encodable(old(task.value)) && Encodable(task.value)
      ensures Retried(old(world.calls), world.calls,
                      SwapRequest(task.value.guid, Encode(old(task.value)), Encode(task.value), err))
      ensures err == NoError ==> Holds(world.s, task.value)
    {
      hide Reachable, Reaches, Encode, Decode, NodesMatch;
      ReachesChain(world.f);
      ResolutionEncodable(world.f, world.s, j);
      var original := Encode(task.value);
      ghost var t := task.value;
      var now := world.Time();
      task.value := task.value.(updatedAt := now);
      task.value := task.value.(state := Resolving);
      SendResolveTaken(world.f, world.s, j);
      world.s := AfterSendResolve(world.s, j);
      ghost var applications;
      err, applications := RetryResolving(task, original, t, j);
    }

    /** The delete, retried likewise. */
    method ResolveTask(task: TaskRef, ghost j: nat) returns (err: StoreError)
      requires world.Coupled() && Resolves(j, Deleting, task.value) && Rested(world.s, TheResolution(j))
      modifies world
      ensures Retried(old(world.calls), world.calls, Deletion(task.value.guid, err))
      ensures world.Coupled() && err != ErrorTimeout && Reaches(world.f, old(world.s), world.s)
      ensures Resolves(j, ResolutionOver, task.value) && Later(old(world.s), world.s)
      ensures err in {NoError, ErrorKeyNotFound} ==> task.value.guid !in world.s.store
    {
      hide Encode, Decode, Reachable, Reaches, NodesMatch, Later, Retried, AllTimedOut;
      ReachesChain(world.f);
      LaterChain();
      NothingAsked(world.calls, Deletion(task.value.guid, NoError));
      while true
        invariant Rested(world.s, TheResolution(j))
        invariant forall e :: AllTimedOut(old(world.calls), world.calls, Deletion(task.value.guid, e))
        invariant world.Coupled() && Reaches(world.f, old(world.s), world.s) && Resolves(j, Deleting, task.value)
        invariant Later(old(world.s), world.s)
        decreases world.timeouts
      {
        ghost var calls := world.calls;
        Interfere(0, j);
        err := TryDelete(task, j);
        OneMoreTry(old(world.calls), calls, Deletion(task.value.guid, err));
        if err != ErrorTimeout {
          return;
        }
        ghost var s1 := world.s;
        world.Sleep(ONE_SECOND);
        TickLater(s1, world.now);
      }
    }

    lemma LaterChain()
      ensures forall s :: Later(s, s)
      ensures forall s, s1, s2 :: Later(s, s1) && Later(s1, s2) ==> Later(s, s2)
    {
    }

    lemma TickLater(s: State, now: int)
      ensures Later(s, s.(clock := now))
    {
      forall t | Written(s, t) ensures Written(s.(clock := now), t) {
        var i :| 0 <= i < |HistoryOf(s, t.guid)| && HistoryOf(s, t.guid)[i].task == t;
        assert HistoryOf(s.(clock := now), t.guid)[i].task == t;
      }
    }

    lemma DeleteLater(s: State, j: nat, r: Reply)
      requires j < |s.resolutions|
      ensures Later(s, AfterDelete(s, j, r))
    {
      RemoveGrows(s, s.resolutions[j].task.guid);
      WrittenGrows(s, Remove(s, s.resolutions[j].task.guid));
      forall t | Written(s, t) ensures Written(AfterDelete(s, j, r), t) {
        var i :| 0 <= i < |HistoryOf(s, t.guid)| && HistoryOf(s, t.guid)[i].task == t;
        assert HistoryOf(AfterDelete(s, j, r), t.guid)[i].task == t;
      }
    }

    lemma PublishLater(s: State, j: nat, ok: bool)
      requires j < |s.resolutions|
      ensures Later(s, AfterPublish(s, j, ok))
    {
      forall t | Written(s, t) ensures Written(AfterPublish(s, j, ok), t) {
        var i :| 0 <= i < |HistoryOf(s, t.guid)| && HistoryOf(s, t.guid)[i].task == t;
        assert HistoryOf(AfterPublish(s, j, ok), t.guid)[i].task == t;
      }
    }

    lemma LaterKeeps(s: State, s': State, t: Task)
      requires Later(s, s')
      ensures Written(s, t) ==> Written(s', t)
      ensures t in s.published ==> t in s'.published
    {
    }

    /** The callback of ResolveTask: a single delete. */
    method TryDelete(task: TaskRef, ghost j: nat) returns (err: StoreError)
      requires world.Coupled() && Resolves(j, Deleting, task.value) && Rested(world.s, TheResolution(j))
      modifies world
      ensures world.Coupled() && Reaches(world.f, old(world.s), world.s) && Later(old(world.s), world.s)
      ensures world.calls == old(world.calls) + [Deletion(task.value.guid, err)] && world.now == old(world.now)
      ensures err == ErrorTimeout ==>
                TheResolution(j) in world.s.waits && world.s.waits[TheResolution(j)] == world.now + ONE_SECOND
      ensures world.timeouts + (if err == ErrorTimeout then 1 else 0) <= old(world.timeouts)
      ensures Resolves(j, if err == ErrorTimeout then Deleting else ResolutionOver, task.value)
      ensures err in {NoError, ErrorKeyNotFound} ==> task.value.guid !in world.s.store
    {
      hide Encode, Decode, Reachable, Reaches, Later;
      ghost var applied;
      err, applied := world.Delete(task.value.guid);
      ghost var reply := ReplyFor(err, applied);
      DeleteTaken(world.f, world.s, j, reply);
      DeleteLater(world.s, j, reply);
      world.s := AfterDelete(world.s, j, reply);
    }

    /** The NATS publish: the payload goes out, or an error is reported. */
    method PublishReply(task: TaskRef, ghost j: nat) returns (sent: Option<(string, Json)>)
      requires world.Coupled() && Resolves(j, Publishing, task.value)
      modifies world`s
      ensures world.Coupled() && Reaches(world.f, old(world.s), world.s)
      ensures Later(old(world.s), world.s) && world.s.waits == old(world.s).waits
      ensures sent.Some? ==> Encodable(task.value) && sent.value == (task.value.replyTo, Encode(task.value))
      ensures world.s.published == old(world.s).published + if sent.Some? then [task.value] else []
      ensures Resolves(j, if sent.Some? then Deleting else ResolutionOver, task.value)
    {
      hide Encode, Decode, Reachable, Reaches, Later;
      ResolutionEncodable(world.f, world.s, j);
      var ok := *;
      PublishTaken(world.f, world.s, j, ok);
      PublishLater(world.s, j, ok);
      world.s := AfterPublish(world.s, j, ok);
      sent := if ok then Some((task.value.replyTo, Encode(task.value))) else None;
    }

    /** From `before` on the store was first asked to replace `first`; the last request was
        `last`. */
    ghost predicate AskedFromTo(before: seq<Call>, after: seq<Call>, first: Json, last: Call) {
      && |before| < |after| && before == after[..|before|]
      && after[|before|].SwapRequest? && after[|before|].old' == first && after[|after| - 1] == last
    }

    lemma AskedOnce(before: seq<Call>, after: seq<Call>, last: Call)
      requires Retried(before, after, last) && last.SwapRequest?
      ensures AskedFromTo(before, after, last.old', last)
    {
    }

    lemma AskedTwice(before: seq<Call>, mid: seq<Call>, after: seq<Call>, c: Call, d: Call)
      requires Retried(before, mid, c) && Retried(mid, after, d) && c.SwapRequest?
      ensures AskedFromTo(before, after, c.old', d)
    {
    }

    /** One completion, resolved, answered and deleted; each step only if the one before it
        succeeded. Whoever sent it, it says Completed: resolving anything else would be no step
        of the protocol (`ResolveIsEdge`). */
    method ResolveCompletion(kick: Task)
      returns (resolving: bool, sent: Option<(string, Json)>, deleted: bool, ghost j: nat)
      requires world.Coupled() && Resolvable(kick, world.now)
      modifies world
      ensures world.Coupled() && Reaches(world.f, old(world.s), world.s)
      ensures |old(world.s).resolutions| <= j < |world.s.resolutions| && world.s.resolutions[j].phase == ResolutionOver
      ensures var t := world.s.resolutions[j].task;
              && t == kick.(updatedAt := t.updatedAt, state := Resolving) && Encodable(t)
              && (resolving ==> Written(world.s, t))
              && (sent.Some? ==> resolving && sent.value == (t.replyTo, Encode(t)))
              && (sent.Some? ==> t in world.s.published)
              && (deleted ==> sent.Some? && kick.guid !in world.s.store)
              && exists err ::
                   if sent.Some?
                   then (err == NoError <==> deleted)
                        && AskedFromTo(old(world.calls), world.calls, Encode(kick), Deletion(kick.guid, err))
                   else (err == NoError <==> resolving)
                        && AskedFromTo(old(world.calls), world.calls, Encode(kick),
                                       SwapRequest(kick.guid, Encode(kick), Encode(t), err))
    {
      hide Encode, Decode, Reachable, Reaches, NodesMatch, Written, Later, Holds, Retried, AskedFromTo;
      ReachesChain(world.f);
      NewCallsRested(world.f, world.s);
      sent, deleted := None, false;
      j := |world.s.resolutions|;
      AcceptTaken(world.f, world.s, kick);
      world.s := AfterAccept(world.s, kick);
      var task := new TaskRef(kick);

      Interfere(0, j);
      var err := ResolvingTask(task, j);
      ghost var c, calls := SwapRequest(kick.guid, Encode(kick), Encode(task.value), err), world.calls;
      AskedOnce(old(world.calls), calls, c);
      resolving := err == NoError;
      if resolving {
        HeldIsWritten(world.f, world.s, task.value);
        LaterChain();
        ghost var s1 := world.s;
        Interfere(0, j);
        sent := PublishReply(task, j);
        LaterKeeps(s1, world.s, task.value);
        if sent.Some? {
          ghost var s2 := world.s;
          err := ResolveTask(task, j);
          deleted := err == NoError;
          LaterKeeps(s2, world.s, task.value);
          AskedTwice(old(world.calls), calls, world.calls, c, Deletion(kick.guid, err));
        }
      }
    }

    lemma HeldIsWritten(f: Faults, s: State, t: Task)
      requires Reachable(f, s) && Holds(s, t)
      ensures Written(s, t)
    {
      ReachableInv(f, s);
      StoredIsWritten(s, t.guid);
    }
  }
}
