/**
The guarantees of the run-once protocol, over every run: those that hold whatever the
environment does, and for the others the exact faults that break them.
*/
module Theorems {
  import opened Models
  import opened Lifecycle
  import opened Protocol
  import opened Invariants
  import opened Preservation
  import opened Capacity
  import opened Relapse
  import opened Replies
  import opened Scenarios

  // ---------- All invariants, in every reachable state ----------

  ghost predicate Everything(f: Faults, s: State) {
    && Inv(s) && MemoryInv(s) && PublishInv(s) && DeleteInv(s)
    && (TruthfulCas(f) ==> NoOrphan(s))
    && (!f.latePresence ==> s.late == {})
    && (SetOnce(f) ==> OnceInv(s))
  }

  lemma InitialEverything(f: Faults)
    ensures Everything(f, INITIAL)
  {
    assert forall g :: HistoryInv(INITIAL, g);
    assert forall g :: OnceFor(INITIAL, g);
    assert forall g :: DeletedFinished(HistoryOf(INITIAL, g));
  }

  lemma LateOnlyIfAllowed(f: Faults, s: State, step: Step)
    requires Enabled(f, s, step) && !f.latePresence
    ensures Apply(f, s, step).late == s.late
  {
    hide Sent;
    if !OfExecutors(step) {
      ExecutorsUntouched(f, s, step);
    }
  }

  lemma StepKeepsEverything(f: Faults, s: State, step: Step)
    requires Everything(f, s) && Enabled(f, s, step)
    ensures Everything(f, Apply(f, s, step))
  {
    StepKeeps(f, s, step);
    StepKeepsMemory(f, s, step);
    StepKeepsPublish(f, s, step);
    if !f.latePresence { LateOnlyIfAllowed(f, s, step); }
    if TruthfulCas(f) { StepKeepsNoOrphan(f, s, step); }
    if SetOnce(f) { StepKeepsOnce(f, s, step); }
    StepKeepsDelete(f, s, step);
  }

  lemma {:induction false} RunKeepsEverything(f: Faults, s: State, run: seq<Step>)
    requires Everything(f, s) && Runs(f, s, run)
    ensures Everything(f, After(f, s, run)) && Grows(s, After(f, s, run))
    decreases |run|
  {
    if run != [] {
      var s1 := Apply(f, s, run[0]);
      StepKeeps(f, s, run[0]);
      StepKeepsEverything(f, s, run[0]);
      RunKeepsEverything(f, s1, run[1..]);
      GrowsTransitive(s, s1, After(f, s, run));
    }
  }

  lemma ReachableEverything(f: Faults, s: State)
    requires Reachable(f, s)
    ensures Everything(f, s)
  {
    var run :| Runs(f, INITIAL, run) && After(f, INITIAL, run) == s;
    InitialEverything(f);
    RunKeepsEverything(f, INITIAL, run);
  }

  // ---------- Under any faults ----------

  /** Every write ever applied is an edge of the state machine, the store is where the
      histories end, and kicks carry once-stored tasks in the state their handler assumes. */
  lemma LegalLifecycle(f: Faults, s: State)
    requires Reachable(f, s)
    ensures forall g :: Legal(HistoryOf(s, g))
    ensures forall g :: g in s.store ==>
              s.store[g].guid == g && WellFormed(s.store[g]) && Current(HistoryOf(s, g)) == Some(s.store[g])
    ensures forall t :: t in s.desireKicks ==> t.state == Pending && Written(s, t)
    ensures forall t :: t in s.completeKicks ==> t.state == Completed && Written(s, t)
  {
    ReachableEverything(f, s);
    forall g ensures Legal(HistoryOf(s, g)) {
      assert HistoryInv(s, g);
    }
    forall g | g in s.store
      ensures s.store[g].guid == g && WellFormed(s.store[g]) && Current(HistoryOf(s, g)) == Some(s.store[g])
    {
      assert HistoryInv(s, g);
      StoredIsWritten(s, g);
      WrittenFacts(s, s.store[g]);
    }
  }

  /** Claims, starts, resolves and publishes of a guid are paid for by sets and demotions. */
  lemma TransitionsConserved(f: Faults, s: State, g: string)
    requires Reachable(f, s)
    ensures var h := HistoryOf(s, g);
            && Claims(h) <= Desires(h) + DemotionsToPending(h)
            && Starts(h) <= Claims(h) && Starts(h) <= Desires(h)
            && PublishedFor(s.published, g) <= Resolves(h) <= Desires(h) + DemotionsToCompleted(h)
  {
    ReachableEverything(f, s);
    assert HistoryInv(s, g);
    Conservation(HistoryOf(s, g));
    OwedNotNegative(s.resolutions, g);
  }

  lemma {:induction false} TotalNotNegative(ws: seq<int>)
    requires forall i :: 0 <= i < |ws| ==> 0 <= ws[i]
    ensures 0 <= Total(ws)
    decreases |ws|
  {
    if ws != [] { TotalNotNegative(ws[..|ws| - 1]); }
  }

  lemma OwedNotNegative(xs: seq<Resolution>, g: string)
    ensures 0 <= OwedFor(xs, g)
  {
    TotalNotNegative(seq(|xs|, i requires 0 <= i < |xs| => Owed(xs[i], g)));
  }

  /** Every reply is explained by a write before it: an executor completed the task with this
      outcome, or a converge pass failed it, and then the reply says so and why. A task that was
      never completed is never reported as good. */
  lemma RepliesExplained(f: Faults, s: State, t: Task) returns (i: nat)
    requires Reachable(f, s) && t in s.published
    ensures var h := HistoryOf(s, t.guid);
      && i < |h| && h[i].task.state == Completed
      && t.failed == h[i].task.failed && t.failureReason == h[i].task.failureReason && t.result == h[i].task.result
      && match h[i].cause
         case RunFinished => 0 < i && h[i - 1].task.state == Running && h[i - 1].task.executorId == h[i].task.executorId
         case NeverClaimed(_) => t.failed && t.failureReason == "not claimed within time limit"
         case ExecutorLost => t.failed && t.failureReason == "executor disappeared before completion"
         case _ => false
  {
    var h := HistoryOf(s, t.guid);
    var j := PublishedIsWritten(f, s, t);
    i := FinishedWasEnded(h, j);
    EntryAfter(h, i);
  }

  lemma PublishedIsWritten(f: Faults, s: State, t: Task) returns (j: nat)
    requires Reachable(f, s) && t in s.published
    ensures var h := HistoryOf(s, t.guid); Legal(h) && j < |h| && h[j].task == t && Finished(t)
  {
    ReachableEverything(f, s);
    assert HistoryInv(s, t.guid);
    j :| 0 <= j < |HistoryOf(s, t.guid)| && HistoryOf(s, t.guid)[j].task == t;
  }

  /** Every write of a key is allowed after the one before it. */
  lemma {:induction false} EntryAfter(h: History, i: nat)
    requires Legal(h) && i < |h|
    ensures EntryOk(Current(h[..i]), h[i])
    decreases |h|
  {
    var p := h[..|h| - 1];
    if i < |p| {
      EntryAfter(p, i);
      assert p[..i] == h[..i];
    } else {
      assert p == h[..i];
    }
  }

  /** A task that a pass has failed says so and why, in every run. */
  lemma PassesSayWhy(f: Faults, s: State, g: string, i: nat)
    requires Reachable(f, s) && i < |HistoryOf(s, g)|
    ensures var e := HistoryOf(s, g)[i];
      && (e.cause.NeverClaimed? ==>
            e.task.state == Completed && e.task.failed && e.task.failureReason == "not claimed within time limit")
      && (e.cause.ExecutorLost? ==>
            e.task.state == Completed && e.task.failed
            && e.task.failureReason == "executor disappeared before completion")
  {
    ReachableEverything(f, s);
    assert HistoryInv(s, g);
    EntryAfter(HistoryOf(s, g), i);
  }

  // ---------- Failure detection ----------

  /** Whoever has been declared lost had been present, is not in `s`, and is not in `s'`. */
  ghost predicate DetectedRightly(s: State, s': State) {
    forall g, i :: 0 <= i < |HistoryOf(s, g)| && HistoryOf(s, g)[i].cause == ExecutorLost ==>
      HistoryOf(s, g)[i].task.executorId in Lost(s) && HistoryOf(s, g)[i].task.executorId in Lost(s')
  }

  /** An executor without presence holds a claim. */
  lemma LateClaim(f: Faults) returns (s: State)
    requires f.latePresence
    ensures Reachable(f, s) && s.clock == NOW && s.store.Keys == {GUID} && "e" in s.memory && "e" !in s.announced
    ensures var t := s.store[GUID]; t.guid == GUID && t.state == Claimed && t.executorId == "e"
    ensures "e" !in s.present
  {
    ReachesSelf(f, INITIAL);
    hide Reachable, Reaches;
    var s0 := Take(f, INITIAL, Boot("e", 0));
    var s1 := Take(f, s0, Tick(NOW));
    var s2 := DesireRun(f, s1, NewTask(GUID, 0, ""));
    s := ClaimRun(f, s2, "e", FirstVersion(NewTask(GUID, 0, ""), NOW));
  }

  /** An executor claims, is missed by a listing, and only then gets its presence: its task is
      failed although it is there. */
  lemma LateRun(f: Faults) returns (s: State)
    requires f.latePresence
    ensures Reachable(f, s) && !DetectedRightly(s, s)
  {
    hide Reachable, Reaches;
    var s2 := LateClaim(f);
    var s3 := PlanRun(f, s2, GUID, 1);
    var s4 := Take(f, s3, Announce("e"));
    s := SwapRun(f, s4, |s2.passes|, GUID);
    assert HistoryOf(s, GUID)[|HistoryOf(s, GUID)| - 1].cause == ExecutorLost;
  }

  lemma DetectedRightlyOnTime(f: Faults, s: State, run: seq<Step>)
    requires Reachable(f, s) && Runs(f, s, run) && !f.latePresence
    ensures DetectedRightly(s, After(f, s, run))
  {
    ReachableEverything(f, s);
    RunKeepsEverything(f, s, run);
    forall g, i | 0 <= i < |HistoryOf(s, g)| && HistoryOf(s, g)[i].cause == ExecutorLost
      ensures HistoryOf(s, g)[i].task.executorId in Lost(s)
    {
      assert HistoryInv(s, g);
      assert EntryKnown(s, g, HistoryOf(s, g)[i]);
    }
  }

  /** Sound failure detection, exactly: over every run, for every interleaving with the two
      listings of a pass, a task is only failed for an executor whose presence is gone for good,
      if and only if executors take no kick before their presence is there. */
  lemma SoundFailureDetection(f: Faults)
    ensures (forall s, run :: Reachable(f, s) && Runs(f, s, run) ==> DetectedRightly(s, After(f, s, run)))
            <==> !f.latePresence
  {
    hide Reachable, DetectedRightly;
    if f.latePresence {
      var s := LateRun(f);
      ReachesSelf(f, s);
      var run :| Runs(f, s, run) && After(f, s, run) == s;
      assert !DetectedRightly(s, After(f, s, run));
    } else {
      forall s, run | Reachable(f, s) && Runs(f, s, run) ensures DetectedRightly(s, After(f, s, run)) {
        DetectedRightlyOnTime(f, s, run);
      }
    }
  }

  // ---------- Memory ----------

  /** Memory is conserved at every running executor, stays within bounds, and is all free
      again when nothing is in flight. */
  lemma MemoryConserved(f: Faults, s: State, e: ExecutorId)
    requires Reachable(f, s) && e in s.running
    ensures e in s.memory && e in s.free
    ensures s.free[e] + Held(s.works, e) == s.memory[e] && 0 <= s.free[e] <= s.memory[e]
    ensures (forall i :: 0 <= i < |s.works| && s.works[i].owner == e ==> s.works[i].phase == WorkOver) ==>
              s.free[e] == s.memory[e]
  {
    ReachableEverything(f, s);
    var ws := Reservations(s.works, e);
    forall i | 0 <= i < |ws| ensures 0 <= ws[i] {
      assert WorkOk(s, s.works[i]);
    }
    TotalNotNegative(ws);
    if forall i :: 0 <= i < |s.works| && s.works[i].owner == e ==> s.works[i].phase == WorkOver {
      TotalZero(ws);
    }
  }

  // ---------- One key, set once ----------

  /** From `s` to `s'` the task under `g`, once finished, has kept its failure flag, reason and
      result or has been deleted; and if it had been deleted it is not back. */
  ghost predicate OutcomeKept(s: State, s': State, g: string) {
    && (g in s.store && Finished(s.store[g]) && g in s'.store ==>
          Finished(s'.store[g]) && OutcomeOf(s'.store[g]) == OutcomeOf(s.store[g]))
    && (HistoryOf(s, g) != [] && g !in s.store ==> g !in s'.store)
  }

  /** All replies published for `g` say the same. */
  ghost predicate RepliesAgree(s: State, g: string) {
    forall t, u :: t in s.published && u in s.published && t.guid == g && u.guid == g ==> OutcomeOf(t) == OutcomeOf(u)
  }

  /** Every claim and every reply beyond the first has cost thirty seconds since `g` was created. */
  ghost predicate RepetitionTakesTime(s: State, g: string) {
    HistoryOf(s, g) != [] ==>
      var h := HistoryOf(s, g);
      var age := s.clock - h[0].task.createdAt;
      && THIRTY_SECONDS * (Claims(h) - 1) <= age
      && THIRTY_SECONDS * (PublishedFor(s.published, g) - 1) <= age
      && THIRTY_SECONDS * (Claims(h) - 1 + PublishedFor(s.published, g) - 1) <= age
  }

  predicate SameVersion(e: Entry, d: Entry) {
    e.task == d.task && e.cause != Deleted && d.cause != Deleted
  }

  /** No value is stored twice. */
  ghost predicate ValuesOnce(h: History) {
    forall i, j :: 0 <= i < |h| && 0 <= j < |h| && SameVersion(h[i], h[j]) ==> i == j
  }

  /** The i-th write found `t` stored. */
  predicate Replaces(h: History, i: int, t: Task) {
    0 < i < |h| && h[i - 1].task == t
  }

  /** Of all the writes made for one stored version at most one has been applied. */
  ghost predicate OneWinner(h: History) {
    forall t, i, j :: Replaces(h, i, t) && Replaces(h, j, t) ==> i == j
  }

  lemma KeyOutcomeKept(s: State, s': State, g: string)
    requires Inv(s) && Inv(s') && Grows(s, s') && DesiredOnce(HistoryOf(s', g))
    ensures OutcomeKept(s, s', g)
  {
    hide Legal, Edge, KickInv, SubmissionInv, WorkInv, ResolutionInv, PassInv;
    if g in s.store && Finished(s.store[g]) && g in s'.store {
      StoredIsWritten(s, g);
      WrittenGrows(s, s');
      StaysFinished(s', s.store[g]);
    }
    if HistoryOf(s, g) != [] && g !in s.store && g in s'.store {
      var h, h' := HistoryOf(s, g), HistoryOf(s', g);
      assert HistoryInv(s, g) && HistoryInv(s', g);
      assert h'[|h| - 1] == h[|h| - 1];
      LaterVersions(h', |h| - 1, |h'| - 1);
    }
  }

  lemma FinishedVersionsAgree(s: State, t: Task, u: Task)
    requires Inv(s) && DesiredOnce(HistoryOf(s, t.guid)) && Written(s, t) && Written(s, u)
    requires t.guid == u.guid && Finished(t) && Finished(u)
    ensures OutcomeOf(t) == OutcomeOf(u)
  {
    var h := HistoryOf(s, t.guid);
    assert HistoryInv(s, t.guid);
    var i :| 0 <= i < |h| && h[i].task == t;
    var j :| 0 <= j < |h| && h[j].task == u;
    if i < j {
      LaterVersions(h, i, j);
    } else if j < i {
      LaterVersions(h, j, i);
    }
  }

  lemma KeyRepliesAgree(s: State, g: string)
    requires Inv(s) && DesiredOnce(HistoryOf(s, g))
    ensures RepliesAgree(s, g)
  {
    forall t, u | t in s.published && u in s.published && t.guid == g && u.guid == g
      ensures OutcomeOf(t) == OutcomeOf(u)
    {
      FinishedVersionsAgree(s, t, u);
    }
  }

  lemma KeyRepetitionTakesTime(f: Faults, s: State, g: string)
    requires Reachable(f, s) && DesiredOnce(HistoryOf(s, g))
    ensures RepetitionTakesTime(s, g)
  {
    hide Legal, Edge, DesiredOnce, KickInv, SubmissionInv, WorkInv, ResolutionInv, PassInv, MemoryInv, DeleteInv;
    var h := HistoryOf(s, g);
    ReachableEverything(f, s);
    assert HistoryInv(s, g);
    if h != [] {
      assert EntryKnown(s, g, h[|h| - 1]);
      OneDesire(h);
      TransitionsConserved(f, s, g);
      DemotionsTakeTime(h);
    }
  }

  lemma KeyVersions(h: History)
    requires Legal(h) && DesiredOnce(h)
    ensures ValuesOnce(h) && OneWinner(h)
  {
    hide Legal, DesiredOnce;
    forall i, j | 0 <= i < |h| && 0 <= j < |h| && SameVersion(h[i], h[j]) ensures i == j {
      VersionsDistinct(h, i, j);
    }
    forall t, i, j | Replaces(h, i, t) && Replaces(h, j, t) ensures i == j {
      ReplacedOnce(h, i, j);
    }
  }

  /** A key that has been set once is safe under any faults and whatever happens to other keys:
      it is started at most once, its outcome is stable, its replies agree, it is only deleted
      when finished, its repetitions take time, and its values tell its versions apart. */
  lemma OneKey(f: Faults, s: State, run: seq<Step>, g: string)
    requires Reachable(f, s) && Runs(f, s, run) && DesiredOnce(HistoryOf(After(f, s, run), g))
    ensures Starts(HistoryOf(s, g)) <= 1
    ensures OutcomeKept(s, After(f, s, run), g)
    ensures RepliesAgree(s, g)
    ensures DeletedFinished(HistoryOf(s, g))
    ensures RepetitionTakesTime(s, g)
    ensures ValuesOnce(HistoryOf(s, g)) && OneWinner(HistoryOf(s, g))
  {
    hide Runs, After, OutcomeKept, RepliesAgree, RepetitionTakesTime, ValuesOnce, OneWinner;
    var s' := After(f, s, run);
    ReachableEverything(f, s);
    RunKeepsEverything(f, s, run);
    assert HistoryInv(s, g);
    OnceBefore(HistoryOf(s, g), HistoryOf(s', g));
    Conservation(HistoryOf(s, g));
    OneDesire(HistoryOf(s, g));
    KeyOutcomeKept(s, s', g);
    KeyRepliesAgree(s, g);
    KeyRepetitionTakesTime(f, s, g);
    KeyVersions(HistoryOf(s, g));
  }

  /** Where sets are not repeated every key has been set once. */
  lemma EveryKeyOnce(f: Faults, s: State, g: string)
    requires Reachable(f, s) && SetOnce(f)
    ensures DesiredOnce(HistoryOf(s, g)) && Runs(f, s, []) && After(f, s, []) == s
  {
    ReachableEverything(f, s);
    assert OnceFor(s, g);
  }

  // ---------- Run once ----------

  ghost predicate StartsOnce(s: State) {
    forall g :: Starts(HistoryOf(s, g)) <= 1
  }

  /** Run once, exactly: no task is ever started twice, in any run, with any duplication of
      kicks, demotions and converge passes, if and only if no guid is set twice. */
  lemma RunOnce(f: Faults)
    ensures (forall s :: Reachable(f, s) ==> StartsOnce(s)) <==> SetOnce(f)
  {
    if SetOnce(f) {
      forall s, g | Reachable(f, s) ensures Starts(HistoryOf(s, g)) <= 1 {
        EveryKeyOnce(f, s, g);
        OneKey(f, s, [], g);
      }
    } else {
      var mid, again, s := TwoLives(f);
    }
  }

  // ---------- Outcomes ----------

  ghost predicate OutcomesKept(s: State, s': State) {
    forall g :: OutcomeKept(s, s', g)
  }

  /** Completed is for good, exactly: over every run from every reachable state finished tasks
      keep their outcome until they are deleted and then stay away, if and only if no guid is
      set twice. */
  lemma OutcomeIsStable(f: Faults)
    ensures (forall s, run :: Reachable(f, s) && Runs(f, s, run) ==> OutcomesKept(s, After(f, s, run))) <==> SetOnce(f)
  {
    if SetOnce(f) {
      forall s, run | Reachable(f, s) && Runs(f, s, run) ensures OutcomesKept(s, After(f, s, run)) {
        forall g ensures OutcomeKept(s, After(f, s, run), g) {
          ReachesOn(f, INITIAL, s, After(f, s, run));
          EveryKeyOnce(f, After(f, s, run), g);
          OneKey(f, s, run, g);
        }
      }
    } else {
      var mid, again, s := TwoLives(f);
      var run :| Runs(f, mid, run) && After(f, mid, run) == again;
      assert !OutcomeKept(mid, again, GUID);
      assert !OutcomesKept(mid, After(f, mid, run));
    }
  }

  ghost predicate AllRepliesAgree(s: State) {
    forall g :: RepliesAgree(s, g)
  }

  /** However often a reply is published for a guid, it always says the same, if and only if
      no guid is set twice. */
  lemma PublishedRepliesAgree(f: Faults)
    ensures (forall s :: Reachable(f, s) ==> AllRepliesAgree(s)) <==> SetOnce(f)
  {
    if SetOnce(f) {
      forall s, g | Reachable(f, s) ensures RepliesAgree(s, g) {
        EveryKeyOnce(f, s, g);
        OneKey(f, s, [], g);
      }
    } else {
      var mid, again, s := TwoLives(f);
      assert s.published[0] in s.published && s.published[1] in s.published;
      assert !RepliesAgree(s, GUID);
    }
  }

  ghost predicate OnlyFinishedDeleted(s: State) {
    forall g :: DeletedFinished(HistoryOf(s, g))
  }

  /** The unconditional delete only ever removes finished tasks, if and only if no guid is set
      twice. */
  lemma DeletesOnlyFinished(f: Faults)
    ensures (forall s :: Reachable(f, s) ==> OnlyFinishedDeleted(s)) <==> SetOnce(f)
  {
    if SetOnce(f) {
      forall s, g | Reachable(f, s) ensures DeletedFinished(HistoryOf(s, g)) {
        EveryKeyOnce(f, s, g);
        OneKey(f, s, [], g);
      }
    } else {
      var s := PendingDeleted(f);
      assert !DeletedFinished(HistoryOf(s, GUID));
    }
  }

  // ---------- Time and versions ----------

  lemma ClaimsAppend(h: History, e: Entry)
    ensures Claims(h + [e]) == Claims(h) + One(e.cause.ClaimTaken?)
  {
    assert (h + [e])[..|h|] == h;
  }

  lemma ClaimedTwice(a: Entry, b: Entry, c: Entry, d: Entry, e: Entry)
    requires b.cause.ClaimTaken? && d.cause.ClaimTaken?
    ensures Claims([a, b, c, d, e]) >= 2
  {
    assert [] + [a] + [b] + [c] + [d] + [e] == [a, b, c, d, e];
    ClaimsAppend([], a);
    ClaimsAppend([] + [a], b);
    ClaimsAppend([] + [a] + [b], c);
    ClaimsAppend([] + [a] + [b] + [c], d);
    ClaimsAppend([] + [a] + [b] + [c] + [d], e);
  }

  ghost predicate AllRepetitionsTakeTime(s: State) {
    forall g :: RepetitionTakesTime(s, g)
  }

  /** Repetition takes real time, exactly: by any time T a task created at C has at most
      1 + (T - C) / 30s claims, and at most as many replies, if and only if no guid is set twice. */
  lemma RepetitionBound(f: Faults)
    ensures (forall s :: Reachable(f, s) ==> AllRepetitionsTakeTime(s)) <==> SetOnce(f)
  {
    if SetOnce(f) {
      forall s, g | Reachable(f, s) ensures RepetitionTakesTime(s, g) {
        EveryKeyOnce(f, s, g);
        OneKey(f, s, [], g);
      }
    } else {
      var s, r := TwoClaims(f);
      var h := HistoryOf(s, GUID);
      ClaimedTwice(h[0], h[1], h[2], h[3], h[4]);
      assert !RepetitionTakesTime(s, GUID);
    }
  }

  ghost predicate NoValueTwice(s: State) {
    forall g :: ValuesOnce(HistoryOf(s, g))
  }

  /** No value is ever stored twice, so a compare-and-swap that finds its value finds the
      version it was made for, if and only if no guid is set twice. */
  lemma CompareMeansVersion(f: Faults)
    ensures (forall s :: Reachable(f, s) ==> NoValueTwice(s)) <==> SetOnce(f)
  {
    if SetOnce(f) {
      forall s, g | Reachable(f, s) ensures ValuesOnce(HistoryOf(s, g)) {
        EveryKeyOnce(f, s, g);
        OneKey(f, s, [], g);
      }
    } else {
      var s, r := TwoClaims(f);
      assert SameVersion(HistoryOf(s, GUID)[1], HistoryOf(s, GUID)[3]);
      assert !ValuesOnce(HistoryOf(s, GUID));
    }
  }

  ghost predicate NoLostUpdate(s: State) {
    forall g :: OneWinner(HistoryOf(s, g))
  }

  /** No lost update, exactly: with any number of converge passes and other calls at work each
      stored version is replaced at most once, if and only if no guid is set twice. */
  lemma OneWinnerPerVersion(f: Faults)
    ensures (forall s :: Reachable(f, s) ==> NoLostUpdate(s)) <==> SetOnce(f)
  {
    if SetOnce(f) {
      forall s, g | Reachable(f, s) ensures OneWinner(HistoryOf(s, g)) {
        EveryKeyOnce(f, s, g);
        OneKey(f, s, [], g);
      }
    } else {
      var s, r := TwoClaims(f);
      assert Replaces(HistoryOf(s, GUID), 2, Taken(f)) && Replaces(HistoryOf(s, GUID), 4, Taken(f));
      assert !OneWinner(HistoryOf(s, GUID));
    }
  }

  // ---------- Orphans and capacity ----------

  /** `s'` is `s` with the kicked task claimed by `e`, but nobody there working on it. */
  ghost predicate Orphaned(s: State, s': State, e: ExecutorId, k: Task) {
    && s' == Write(s, ClaimTaken, Claim(k, e, s.clock)).(clock := s'.clock, free := s'.free, late := s'.late,
                                                        works := s'.works, waits := s'.waits)
    && s'.free == s.free && s.clock <= s'.clock
    && |s'.works| == |s.works| + 1 && s'.works[..|s.works|] == s.works && s'.works[|s.works|].phase == WorkOver
  }

  /** The claim is applied but reported as a timeout; the retry finds another value. */
  lemma LostAckOrphans(f: Faults, s: State, e: ExecutorId, k: Task) returns (s': State)
    requires f.lostCasAcks && Reachable(f, s) && Enabled(f, s, Receive(e, k)) && Holds(s, k)
    ensures Reachable(f, s') && Orphaned(s, s', e, k)
  {
    hide Reachable, Reaches;
    var n := |s.works|;
    var s1 := SendClaimRun(f, s, e, k);
    var s2 := LostAnswerRun(f, s1, n);
    s' := Take(f, s2, Release(n));
  }

  /** The claim succeeds and the start fails without having been applied. */
  lemma FailureOrphans(f: Faults, s: State, e: ExecutorId, k: Task) returns (s': State)
    requires f.casFailures && Reachable(f, s) && Enabled(f, s, Receive(e, k)) && Holds(s, k)
    ensures Reachable(f, s') && Orphaned(s, s', e, k)
  {
    hide Reachable, Reaches;
    var n := |s.works|;
    var s1 := ClaimRun(f, s, e, k);
    var s2 := FailedStartRun(f, s1, n);
    s' := Take(f, s2, Release(n));
  }

  /** A task that asks for all the memory of the only executor. */
  lemma FirstTask(f: Faults) returns (s: State, k: Task)
    ensures Reachable(f, s) && Enabled(f, s, Receive("e", k)) && Holds(s, k) && k.guid == GUID && k.memoryMB == 1
    ensures s.running == {"e"} && s.memory == map["e" := 1] && s.free == map["e" := 1] && s.clock == NOW
    ensures s.announced == {"e"} && s.used == {GUID} && s.store.Keys == {GUID}
    ensures s.works == []
  {
    hide Reachable, Reaches;
    var s0 := Start0(f, "e", 1);
    var s1 := Take(f, s0, Tick(NOW));
    s := DesireRun(f, s1, NewTask(GUID, 1, ""));
    k := FirstVersion(NewTask(GUID, 1, ""), NOW);
  }

  lemma StoredOrphan(f: Faults) returns (s: State)
    requires !TruthfulCas(f)
    ensures Reachable(f, s) && !NoOrphan(s)
    ensures s.running == {"e"} && s.memory == map["e" := 1] && s.free == map["e" := 1] && s.announced == {"e"}
    ensures s.store.Keys == {GUID} && Assigned(s, "e", GUID) && s.store[GUID].memoryMB == 1 && s.used == {GUID}
    ensures s.clock >= NOW
  {
    hide Reachable, Reaches;
    var s0, k := FirstTask(f);
    if f.lostCasAcks {
      s := LostAckOrphans(f, s0, "e", k);
    } else {
      s := FailureOrphans(f, s0, "e", k);
    }
    assert Assigned(s, "e", GUID);
    assert !Witnessed(s, GUID);
  }

  /** No orphaned work, exactly: every stored Claimed or Running task of a running executor is
      held by a goroutine there that will compare with that very value, if and only if
      compare-and-swap never loses an acknowledgement and never fails otherwise. */
  lemma NoOrphanedWork(f: Faults)
    ensures (forall s :: Reachable(f, s) ==> NoOrphan(s)) <==> TruthfulCas(f)
  {
    if TruthfulCas(f) {
      forall s | Reachable(f, s) ensures NoOrphan(s) {
        ReachableEverything(f, s);
      }
    } else {
      var s := StoredOrphan(f);
    }
  }

  ghost predicate WithinCapacity(s: State) {
    forall e :: e in s.running && e in s.memory ==> Load(s, e) <= s.memory[e]
  }

  lemma LoadOfTwo(s: State, e: ExecutorId, g: string, h: string)
    requires s.store.Keys == {g, h} && g != h && Assigned(s, e, g) && Assigned(s, e, h)
    ensures Load(s, e) == s.store[g].memoryMB + s.store[h].memoryMB
  {
    assert (set k | k in s.store && Assigned(s, e, k)) == {g, h};
    MemoryOfRemove(s.store, {g, h}, g);
    assert {g, h} - {g} == {h};
    MemoryOfRemove(s.store, {h}, h);
    assert {h} - {h} == {};
  }

  /** Global capacity, exactly: the tasks stored as Claimed or Running under a running
      executor fit into its memory, in every run, if and only if compare-and-swap is truthful. */
  lemma GlobalCapacity(f: Faults)
    ensures (forall s :: Reachable(f, s) ==> WithinCapacity(s)) <==> TruthfulCas(f)
  {
    if TruthfulCas(f) {
      forall s | Reachable(f, s) ensures WithinCapacity(s) {
        ReachableEverything(f, s);
        forall e | e in s.running && e in s.memory ensures Load(s, e) <= s.memory[e] {
          CapacityRespected(s, e);
        }
      }
    } else {
      var t := NewTask("task-2", 1, "");
      var s0 := StoredOrphan(f);
      var s1 := DesireRun(f, s0, t);
      var s2 := ClaimRun(f, s1, "e", FirstVersion(t, s0.clock));
      LoadOfTwo(s2, "e", GUID, "task-2");
      assert !WithinCapacity(s2);
    }
  }
}
