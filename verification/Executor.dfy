/**
The executor's request handler with the bulletin-board calls it makes, statement by
statement. Between any two of them other processes, and other requests of this one, may do
anything the protocol allows; every atomic action here is then one of the protocol's steps.
*/
module Executor {
  import opened Models
  import opened TaskJson
  import opened Lifecycle
  import opened Protocol
  import opened Requests
  import opened World

  const STATUS_CREATED := 201
  const STATUS_BAD_REQUEST := 400
  const STATUS_CONFLICT := 409
  const STATUS_UNAVAILABLE := 503

  /** From `before` to `after` the store was first asked to replace `first` by `second`, and last
      to store `last`, with that answer. */
  ghost predicate AskedFromTo(before: seq<Call>, after: seq<Call>, first: Json, second: Json, last: Json, ok: bool) {
    && |before| < |after| && before == after[..|before|]
    && after[|before|].SwapRequest? && after[|before|].old' == first && after[|before|].new' == second
    && var c := after[|after| - 1]; c.SwapRequest? && c.new' == last && (c.err == NoError <==> ok)
  }

  lemma AskedOnce(before: seq<Call>, after: seq<Call>, last: Call)
    requires Retried(before, after, last) && last.SwapRequest?
    ensures AskedFromTo(before, after, last.old', last.new', last.new', last.err == NoError)
  {
  }

  lemma AskedTwice(before: seq<Call>, mid: seq<Call>, after: seq<Call>, c: Call, d: Call)
    requires Retried(before, mid, c) && Retried(mid, after, d) && c.SwapRequest? && d.SwapRequest?
    ensures AskedFromTo(before, after, c.old', c.new', d.new', d.err == NoError)
  {
  }

  class Handler {
    const world: World
    const executorId: string
    var currentMemory: int

    /** A process starts with a fresh id and all of its memory. */
    constructor (world: World, executorId: string, maxMemory: nat)
      requires world.Coupled() && executorId != "" && executorId !in world.s.memory
      modifies world`s
      ensures this.world == world && this.executorId == executorId && currentMemory == maxMemory
      ensures Valid() && world.s == AfterBoot(old(world.s), executorId, maxMemory)
      ensures Reaches(world.f, old(world.s), world.s)
    {
      this.world := world;
      this.executorId := executorId;
      currentMemory := maxMemory;
      new;
      BootTaken(world.f, world.s, executorId, maxMemory);
      world.s := AfterBoot(world.s, executorId, maxMemory);
    }

    /** The first report that the presence node is held. Nothing in the process waits for it
        before serving. */
    method PresenceHeld()
      requires Valid() && executorId !in world.s.announced
      modifies world`s, world`executors
      ensures Valid() && world.s == AfterAnnounce(old(world.s), executorId)
      ensures Reaches(world.f, old(world.s), world.s)
    {
      AnnounceTaken(world.f, world.s, executorId);
      world.s := AfterAnnounce(world.s, executorId);
      world.executors := world.executors + {executorId};
    }

    ghost predicate Valid()
      reads this, world
    {
      && world.Coupled()
      && executorId in world.s.running && executorId in world.s.free && executorId in world.s.memory
      && currentMemory == world.s.free[executorId]
    }

    /** Work `i` is this handler's, in phase `p`, with local copy `t`, and not asleep. */
    ghost predicate Has(i: nat, p: WorkPhase, t: Task)
      reads this, world
    {
      && i < |world.s.works|
      && world.s.works[i].owner == executorId && world.s.works[i].phase == p && world.s.works[i].task == t
      && Rested(world.s, TheWork(i))
    }

    /** May take kicks: its presence has been there, unless executors do not wait for that. */
    ghost predicate MayServe()
      reads this, world
    {
      executorId in world.s.announced || world.f.latePresence
    }

    /** Everybody else: whatever they do is a run of the protocol that leaves work `i` alone, and
        this process goes on. */
    method Interfere(ghost i: nat)
      requires Valid()
      modifies this, world
      ensures Valid() && world.timeouts == old(world.timeouts) && (old(MayServe()) ==> MayServe())
      ensures ReachesBeside(world.f, old(world.s), world.s, {TheWork(i)}) && Reaches(world.f, old(world.s), world.s)
      ensures old(world.now) <= world.now && world.calls == old(world.calls)
      ensures |old(world.s).works| <= |world.s.works|
      ensures Rested(old(world.s), TheWork(i)) ==> Rested(world.s, TheWork(i))
      ensures i < |old(world.s).works| ==> world.s.works[i] == old(world.s).works[i]
    {
      BesideSelf(world.f, world.s, {TheWork(i)});
    }

    method ReserveMemory(memory: int, ghost kick: Task) returns (ok: bool)
      requires Valid() && MayServe() && Claimable(kick, world.now) && memory == kick.memoryMB
      modifies `currentMemory, world`s
      ensures Valid()
      ensures ok <==> memory <= old(currentMemory)
      ensures currentMemory == if ok then old(currentMemory) - memory else old(currentMemory)
      ensures world.s == if ok then AfterReceive(old(world.s), executorId, kick) else old(world.s)
      ensures Reaches(world.f, old(world.s), world.s)
    {
      hide Encode, Decode, NodesMatch, Reachable, Reaches;
      ReachesSelf(world.f, world.s);
      if currentMemory >= memory {
        currentMemory := currentMemory - memory;
        ReceiveTaken(world.f, world.s, executorId, kick);
        world.s := AfterReceive(world.s, executorId, kick);
        return true;
      }
      return false;
    }

    method ReleaseMemory(memory: int, ghost i: nat)
      requires Valid() && i < |world.s.works|
      requires world.s.works[i].owner == executorId && world.s.works[i].phase == Releasing
      requires world.s.works[i].task.memoryMB == memory
      modifies `currentMemory, world`s
      ensures Valid() && currentMemory == old(currentMemory) + memory
      ensures world.s == AfterRelease(old(world.s), i) && Reaches(world.f, old(world.s), world.s)
    {
      currentMemory := currentMemory + memory;
      ReleaseTaken(world.f, world.s, i);
      world.s := AfterRelease(world.s, i);
    }

    /** One attempt: a single compare-and-swap of the store. After a timeout the work has to
        sleep. */
    method Attempt(guid: string, original: Json, value: Json, ghost i: nat) returns (err: StoreError, ghost applied: nat)
      requires Valid() && i < |world.s.works| && world.s.works[i].owner == executorId && InFlight(world.s.works[i].phase)
      requires Rested(world.s, TheWork(i))
      requires Encodable(world.s.works[i].original) && original == Encode(world.s.works[i].original)
      requires Encodable(world.s.works[i].task) && value == Encode(world.s.works[i].task)
      requires guid == world.s.works[i].task.guid == world.s.works[i].original.guid
      modifies world
      ensures Valid() && Reaches(world.f, old(world.s), world.s) && world.now == old(world.now)
      ensures world.calls == old(world.calls) + [SwapRequest(guid, original, value, err)]
      ensures world.timeouts + (if err == ErrorTimeout then 1 else 0) <= old(world.timeouts)
      ensures |world.s.works| == |old(world.s).works|
      ensures var w := old(world.s).works[i];
              world.s.works[i] == w.(phase := if err == ErrorTimeout then w.phase
                                              else if err == NoError then AfterSuccess(w.phase) else Releasing)
      ensures if err == ErrorTimeout then world.s.waits == old(world.s).waits[TheWork(i) := world.now + ONE_SECOND]
              else world.s.waits == old(world.s).waits
      ensures Applies(world.f, old(world.s), world.s, SwapOf(i, old(world.s).works[i]), applied)
      ensures err == NoError ==> applied == 1 && Holds(world.s, old(world.s).works[i].task)
      ensures TruthfulCas(world.f) ==> applied == if err == NoError then 1 else 0
      ensures err == NoError && old(world.s).works[i].phase == Completing ==>
                old(world.s).works[i].task in world.s.completeKicks
    {
      hide Encode, Decode, Reachable, Reaches, Applies, NodesMatch, AfterCas;
      ghost var nodes, s, took := world.nodes, world.s, false;
      err, took := world.CompareAndSwap(guid, original, value, world.f.lostCasAcks, world.f.casFailures);
      ghost var reply := ReplyFor(err, took);
      CasMatches(nodes, world.nodes, s, i, reply);
      CasSettles(s, i, reply);
      if err == NoError {
        WonCas(s, i);
      }
      CasTaken(world.f, s, i, reply);
      CasApplies(world.f, s, i, reply);
      applied := if Took(reply) && Holds(s, s.works[i].original) then 1 else 0;
      world.s := AfterCas(s, i, reply);
    }

    /** retryIndefinitelyOnStoreTimeout around a compare-and-swap of this work. It asks at least
        once, again a second after each timeout, and returns the first other answer.
        `applications` counts how often the swap was applied, by all attempts: at least once on
        success, and exactly as reported if the store tells the truth. */
    method RetryCompareAndSwap(guid: string, original: Json, value: Json, ghost i: nat)
      returns (err: StoreError, ghost applications: nat)
      requires Valid() && i < |world.s.works| && world.s.works[i].owner == executorId && InFlight(world.s.works[i].phase)
      requires Rested(world.s, TheWork(i))
      requires Encodable(world.s.works[i].original) && original == Encode(world.s.works[i].original)
      requires Encodable(world.s.works[i].task) && value == Encode(world.s.works[i].task)
      requires guid == world.s.works[i].task.guid == world.s.works[i].original.guid
      modifies this, world
      ensures Valid() && err != ErrorTimeout && Reaches(world.f, old(world.s), world.s) && old(world.now) <= world.now
      ensures Retried(old(world.calls), world.calls, SwapRequest(guid, original, value, err))
      ensures |old(world.s).works| <= |world.s.works| && Rested(world.s, TheWork(i))
      ensures var w := old(world.s).works[i];
              world.s.works[i] == w.(phase := if err == NoError then AfterSuccess(w.phase) else Releasing)
      ensures Applies(world.f, old(world.s), world.s, SwapOf(i, old(world.s).works[i]), applications)
      ensures err == NoError ==> applications >= 1 && Holds(world.s, old(world.s).works[i].task)
      ensures TruthfulCas(world.f) ==> applications == if err == NoError then 1 else 0
      ensures err == NoError && old(world.s).works[i].phase == Completing ==>
                old(world.s).works[i].task in world.s.completeKicks
    {
      hide Encode, Decode, Reachable, Reaches, ReachesBeside, Applies, NodesMatch, Retried, AllTimedOut;
      hide CauseOf, AfterSuccess;
      ReachesChain(world.f);
      ghost var s0, w := world.s, world.s.works[i];
      applications := 0;
      AppliesSelf(world.f, s0, SwapOf(i, w));
      NothingAsked(world.calls, SwapRequest(guid, original, value, NoError));
      while true
        invariant Valid() && i < |world.s.works| && world.s.works[i] == w && |s0.works| <= |world.s.works|
        invariant Rested(world.s, TheWork(i)) && old(world.now) <= world.now
        invariant forall e :: AllTimedOut(old(world.calls), world.calls, SwapRequest(guid, original, value, e))
        invariant Reaches(world.f, s0, world.s) && Applies(world.f, s0, world.s, SwapOf(i, w), applications)
        invariant TruthfulCas(world.f) ==> applications == 0
        decreases world.timeouts
      {
        ghost var s1 := world.s;
        Interfere(i);
        ghost var s2, applied, calls := world.s, 0, world.calls;
        BesideApplies(world.f, s1, s2, {TheWork(i)}, SwapOf(i, w));
        AppliesOn(world.f, s0, s1, s2, SwapOf(i, w), applications, 0);
        err, applied := Attempt(guid, original, value, i);
        AppliesOn(world.f, s0, s2, world.s, SwapOf(i, w), applications, applied);
        applications := applications + applied;
        OneMoreTry(old(world.calls), calls, SwapRequest(guid, original, value, err));
        if err != ErrorTimeout {
          return;
        }
        ghost var s3 := world.s;
        world.Sleep(ONE_SECOND);
        AppliesSleep(world.f, s3, world.now - s3.clock, SwapOf(i, w));
        AppliesOn(world.f, s0, s3, world.s, SwapOf(i, w), applications, 0);
      }
    }

    method ClaimTask(task: TaskRef, ghost i: nat) returns (err: StoreError)
      requires Valid() && Has(i, Reserved, task.value)
      modifies this, world, task
      ensures Valid() && err != ErrorTimeout && Reaches(world.f, old(world.s), world.s)
      ensures task.value == old(task.value).(updatedAt := task.value.updatedAt, state := Claimed, executorId := executorId)
      ensures Encodable(old(task.value)) && Encodable(task.value) && task.value.guid == old(task.value.guid)
      ensures Retried(old(world.calls), world.calls,
                      SwapRequest(task.value.guid, Encode(old(task.value)), Encode(task.value), err))
      ensures |old(world.s).works| <= |world.s.works|
      ensures old(world.now) <= task.value.updatedAt
      ensures Has(i, if err == NoError then Holding else Releasing, task.value)
      ensures err == NoError ==> Holds(world.s, task.value)
    {
      hide Encode, Decode, Reachable, Reaches, NodesMatch;
      ReachesChain(world.f);
      WorkEncodable(world.f, world.s, i);
      var original := Encode(task.value);
      var t := world.Time();
      task.value := task.value.(updatedAt := t);
      task.value := task.value.(state := Claimed, executorId := executorId);
      SendTaken(world.f, world.s, i, "", OutcomeOf(task.value));
      world.s := AfterSend(world.s, i, "", OutcomeOf(task.value));
      ghost var applications;
      err, applications := RetryCompareAndSwap(task.value.guid, original, Encode(task.value), i);
    }

    method StartTask(task: TaskRef, containerHandle: string, ghost i: nat) returns (err: StoreError)
      requires Valid() && Has(i, Holding, task.value)
      modifies this, world, task
      ensures Valid() && err != ErrorTimeout && Reaches(world.f, old(world.s), world.s)
      ensures task.value ==
                old(task.value).(updatedAt := task.value.updatedAt, state := Running, containerHandle := containerHandle)
      ensures Encodable(old(task.value)) && Encodable(task.value) && task.value.guid == old(task.value.guid)
      ensures Retried(old(world.calls), world.calls,
                      SwapRequest(task.value.guid, Encode(old(task.value)), Encode(task.value), err))
      ensures |old(world.s).works| <= |world.s.works|
      ensures old(world.now) <= task.value.updatedAt
      ensures Has(i, if err == NoError then Executing else Releasing, task.value)
      ensures err == NoError ==> Holds(world.s, task.value)
    {
      hide Encode, Decode, Reachable, Reaches, NodesMatch;
      ReachesChain(world.f);
      WorkEncodable(world.f, world.s, i);
      var original := Encode(task.value);
      var t := world.Time();
      task.value := task.value.(updatedAt := t);
      task.value := task.value.(state := Running, containerHandle := containerHandle);
      SendTaken(world.f, world.s, i, containerHandle, OutcomeOf(task.value));
      world.s := AfterSend(world.s, i, containerHandle, OutcomeOf(task.value));
      ghost var applications;
      err, applications := RetryCompareAndSwap(task.value.guid, original, Encode(task.value), i);
    }

    /** The kick is sent once when the swap succeeds, and not at all when it does not. */
    method CompleteTask(task: TaskRef, failed: bool, failureReason: string, result: string, ghost i: nat)
      returns (err: StoreError, kicks: nat)
      requires Valid() && Has(i, Executing, task.value)
      modifies this, world, task
      ensures Valid() && err != ErrorTimeout && Reaches(world.f, old(world.s), world.s)
      ensures task.value ==
                old(task.value).(updatedAt := task.value.updatedAt, state := Completed,
                                 failed := failed, failureReason := failureReason, result := result)
      ensures Encodable(old(task.value)) && Encodable(task.value) && task.value.guid == old(task.value.guid)
      ensures Retried(old(world.calls), world.calls,
                      SwapRequest(task.value.guid, Encode(old(task.value)), Encode(task.value), err))
      ensures |old(world.s).works| <= |world.s.works|
      ensures old(world.now) <= task.value.updatedAt
      ensures Has(i, Releasing, task.value)
      ensures err == NoError ==> Holds(world.s, task.value) && task.value in world.s.completeKicks
      ensures kicks == if err == NoError then 1 else 0
    {
      hide Encode, Decode, Reachable, Reaches, NodesMatch;
      ReachesChain(world.f);
      kicks := 0;
      WorkEncodable(world.f, world.s, i);
      var original := Encode(task.value);
      var t := world.Time();
      task.value := task.value.(updatedAt := t);
      task.value := task.value.(state := Completed, failed := failed, failureReason := failureReason, result := result);
      SendTaken(world.f, world.s, i, "", Outcome(failed, failureReason, result));
      world.s := AfterSend(world.s, i, "", Outcome(failed, failureReason, result));
      ghost var applications;
      err, applications := RetryCompareAndSwap(task.value.guid, original, Encode(task.value), i);
      if err == NoError {
        kicks := kicks + 1;
      }
    }

    /** A request. Its body does not parse, or looks like a kick, whoever has sent it: claiming
        anything else would be no step of the protocol (`ClaimIsEdge`). `spawned` is the task
        handed to runTask. Whatever happens, memory is reserved exactly while work `i` is on,
        and the store is asked for exactly the claim. */
    method ServeHTTP(body: Json) returns (status: int, spawned: TaskRef?, ghost i: nat)
      requires Valid() && MayServe() && (Decode(body).Some? ==> Claimable(Decode(body).value, world.now))
      modifies this, world
      ensures Valid() && Reaches(world.f, old(world.s), world.s)
      ensures status in {201, 400, 409, 503}
      ensures status == 400 <==> Decode(body).None?
      ensures status == 201 <==> spawned != null
      ensures spawned != null ==>
                && fresh(spawned) && Has(i, Holding, spawned.value) && Holds(world.s, spawned.value)
                && spawned.value == Decode(body).value.(updatedAt := spawned.value.updatedAt, state := Claimed,
                                                        executorId := executorId)
      ensures status == 503 ==> currentMemory < Decode(body).value.memoryMB
      ensures status in {400, 503} ==> world.calls == old(world.calls)
      ensures status in {201, 409} ==>
                && |old(world.s).works| <= i < |world.s.works| && world.s.works[i].owner == executorId
                && Asked(old(world.calls), Decode(body).value, world.s.works[i].task, status == 201)
      ensures status == 409 ==> world.s.works[i].phase == WorkOver
    {
      hide Encode, Decode, Reachable, Reaches, NodesMatch, Retried;
      ReachesChain(world.f);
      spawned := null;
      i := 0;
      var decoded := Decode(body);
      if decoded.None? {
        return STATUS_BAD_REQUEST, null, i;
      }
      var task := new TaskRef(decoded.value);

      Interfere(|world.s.works|);
      i := |world.s.works|;
      NewCallsRested(world.f, world.s);
      var ok := ReserveMemory(task.value.memoryMB, decoded.value);
      if !ok {
        return STATUS_UNAVAILABLE, null, i;
      }

      Interfere(i);
      var err := ClaimTask(task, i);
      if err != NoError {
        ReleaseMemory(task.value.memoryMB, i);
        return STATUS_CONFLICT, null, i;
      }
      return STATUS_CREATED, task, i;
    }

    /** The store has been asked to replace `t` by its claim `c`, until it answered. */
    ghost predicate Asked(before: seq<Call>, t: Task, c: Task, won: bool)
      reads this, world
    {
      && Encodable(t) && Encodable(c)
      && c == t.(updatedAt := c.updatedAt, state := Claimed, executorId := executorId)
      && exists err ::
           (err == NoError <==> won) && Retried(before, world.calls, SwapRequest(t.guid, Encode(t), Encode(c), err))
    }

    /** What the goroutine of a claimed task does before it gives its memory back: it asks for the
        start `first` and then, if that succeeds, for the completion. */
    method StartAndComplete(task: TaskRef, ghost i: nat) returns (started: bool, completed: bool, ghost first: Task)
      requires Valid() && Has(i, Holding, task.value)
      modifies this, world, task
      ensures Valid() && Reaches(world.f, old(world.s), world.s)
      ensures Has(i, Releasing, task.value) && (completed ==> started)
      ensures first == old(task.value).(updatedAt := first.updatedAt, state := Running, containerHandle := "container")
      ensures task.value ==
                if started
                then old(task.value).(updatedAt := task.value.updatedAt, state := Completed,
                                      containerHandle := "container", failed := false, failureReason := "", result := "")
                else first
      ensures Encodable(old(task.value)) && Encodable(first) && Encodable(task.value)
      ensures AskedFromTo(old(world.calls), world.calls, Encode(old(task.value)), Encode(first),
                          Encode(task.value), completed)
      ensures completed ==> Holds(world.s, task.value) && task.value in world.s.completeKicks
    {
      hide Encode, Decode, Reachable, Reaches, NodesMatch, Encodable, Retried, AskedFromTo;
      ReachesChain(world.f);
      ghost var t0 := task.value;
      Interfere(i);
      var err := StartTask(task, "container", i);
      first := task.value;
      ghost var calls := world.calls;
      ghost var c := SwapRequest(first.guid, Encode(t0), Encode(first), err);
      AskedOnce(old(world.calls), calls, c);
      started, completed := err == NoError, false;
      if started {
        Interfere(i);
        var kicks;
        err, kicks := CompleteTask(task, false, "", "", i);
        completed := err == NoError;
        AskedTwice(old(world.calls), calls, world.calls, c,
                   SwapRequest(first.guid, Encode(first), Encode(task.value), err));
      }
    }

    /** The goroutine. Its memory is released once, on every path. */
    method RunTask(task: TaskRef, ghost i: nat) returns (started: bool, completed: bool, ghost first: Task)
      requires Valid() && Has(i, Holding, task.value)
      modifies this, world, task
      ensures Valid() && Reaches(world.f, old(world.s), world.s)
      ensures i < |world.s.works| && world.s.works[i].phase == WorkOver && (completed ==> started)
      ensures first == old(task.value).(updatedAt := first.updatedAt, state := Running, containerHandle := "container")
      ensures task.value ==
                if started
                then old(task.value).(updatedAt := task.value.updatedAt, state := Completed,
                                      containerHandle := "container", failed := false, failureReason := "", result := "")
                else first
      ensures Encodable(old(task.value)) && Encodable(first) && Encodable(task.value)
      ensures AskedFromTo(old(world.calls), world.calls, Encode(old(task.value)), Encode(first),
                          Encode(task.value), completed)
      ensures completed ==> Holds(world.s, task.value) && task.value in world.s.completeKicks
    {
      hide Encode, Decode, Reachable, Reaches, NodesMatch, Encodable, AskedFromTo;
      ReachesChain(world.f);
      var memory := task.value.memoryMB;
      started, completed, first := StartAndComplete(task, i);
      ReleaseMemory(memory, i);
    }
  }
}
