/**
What becomes of a task that nobody is working on. A claim is taken back after thirty seconds and
everything else finds its way to a reply, but a Running task without a goroutine stays as it is
for as long as its executor is there.
*/
module Orphans {
  import opened Models
  import opened Lifecycle
  import opened Protocol
  import opened Invariants
  import opened Preservation
  import opened Capacity
  import opened Replies
  import opened Relapse
  import opened Scenarios
  import opened Theorems

  // ---------- Abandoned tasks ----------

  /** Stored as Running under an executor that is there, and nobody is going to complete it. */
  ghost predicate Abandoned(s: State, g: string) {
    && g in s.store && s.store[g].state == Running && !Witnessed(s, g)
    && s.store[g].executorId in s.present && s.store[g].executorId !in s.late
  }

  /** A request that compares with the stored value is that of a witness. */
  lemma CasSpares(s: State, i: nat, r: Reply, g: string)
    requires Inv(s) && Abandoned(s, g) && i < |s.works| && InFlight(s.works[i].phase)
    ensures var s' := AfterCas(s, i, r); g in s'.store && s'.store[g] == s.store[g]
  {
    var w, t := s.works[i], s.store[g];
    assert WorkOk(s, w);
    StoredIsWritten(s, g);
    assert !Witness(s.works[i], t);
  }

  lemma CasLeavesUnwitnessed(s: State, i: nat, r: Reply, g: string)
    requires Inv(s) && Abandoned(s, g) && i < |s.works| && InFlight(s.works[i].phase)
    ensures var s' := AfterCas(s, i, r); g in s'.store && !Witnessed(s', g)
  {
    var s', w, t := AfterCas(s, i, r), s.works[i], s.store[g];
    CasSpares(s, i, r, g);
    assert WorkOk(s, w);
    StoredIsWritten(s, g);
    hide Write, CompareAndSwap, Edge;
    assert forall k :: 0 <= k < |s'.works| && Witness(s'.works[k], t) ==> Witness(s.works[k], t);
  }

  lemma SetSpares(s: State, i: nat, r: Reply, g: string)
    requires Inv(s) && Abandoned(s, g) && i < |s.submissions| && DesiredOnce(HistoryOf(AfterSet(s, i, r), g))
    ensures var s' := AfterSet(s, i, r); g in s'.store && s'.store[g] == s.store[g]
  {
    var h, h' := HistoryOf(s, g), HistoryOf(AfterSet(s, i, r), g);
    assert HistoryInv(s, g);
    var again := h + [Entry(Desired, s.submissions[i].task)];
    assert s.submissions[i].task.guid == g && (r.Answer? || r.applied) ==> h' == again;
    assert again[|h|].cause == Desired;
  }

  lemma ResolveSpares(s: State, i: nat, r: Reply, g: string)
    requires Inv(s) && Abandoned(s, g) && i < |s.resolutions| && s.resolutions[i].phase == ResolveSent
    ensures var s' := AfterResolve(s, i, r); g in s'.store && s'.store[g] == s.store[g]
  {
    assert ResolutionOk(s, s.resolutions[i]);
    StoredIsWritten(s, g);
  }

  /** Nothing can be deleted under a key whose only task has not been finished. */
  lemma DeleteSpares(s: State, i: nat, r: Reply, g: string)
    requires Inv(s) && Abandoned(s, g) && DesiredOnce(HistoryOf(s, g))
    requires i < |s.resolutions| && s.resolutions[i].phase == Deleting
    ensures var s' := AfterDelete(s, i, r); g in s'.store && s'.store[g] == s.store[g]
  {
    assert ResolutionOk(s, s.resolutions[i]);
    if s.resolutions[i].task.guid == g {
      StaysFinished(s, s.resolutions[i].task);
    }
  }

  /** No pass that is under way has missed an executor that is there. */
  lemma SwapSpares(s: State, i: nat, k: string, applied: bool, g: string)
    requires Inv(s) && Abandoned(s, g)
    requires i < |s.passes| && k in s.passes[i].sent && k in s.passes[i].snapshot
    ensures var s' := AfterSwap(s, i, k, applied); g in s'.store && s'.store[g] == s.store[g]
  {
    assert PassOk(s, s.passes[i]);
    SentSwapOk(s, s.passes[i], k);
    StoredIsWritten(s, g);
  }

  lemma StepSpares(f: Faults, s: State, step: Step, g: string)
    requires Inv(s) && Enabled(f, s, step) && Abandoned(s, g) && DesiredOnce(HistoryOf(Apply(f, s, step), g))
    requires DesiredOnce(HistoryOf(s, g))
    ensures var s' := Apply(f, s, step); g in s'.store && s'.store[g] == s.store[g]
  {
    hide Inv, Abandoned, DesiredOnce;
    if !OfStore(step) {
      assert g in s.store by { AbandonedStored(s, g); }
      StoreUntouched(f, s, step);
    } else {
      match step
      case SetReply(i, r) => SetSpares(s, i, r, g);
      case CasReply(i, r) => CasSpares(s, i, r, g);
      case ResolveReply(i, r) => ResolveSpares(s, i, r, g);
      case DeleteReply(i, r) => DeleteSpares(s, i, r, g);
      case SwapReply(i, k, applied) => SwapSpares(s, i, k, applied, g);
    }
  }

  lemma AbandonedStored(s: State, g: string)
    requires Abandoned(s, g)
    ensures g in s.store
  {
  }

  lemma ExecutorsLeaveUnwitnessed(f: Faults, s: State, step: Step, g: string)
    requires Inv(s) && Enabled(f, s, step) && OfExecutors(step) && !step.CasReply? && Abandoned(s, g)
    ensures var s' := Apply(f, s, step); s'.store == s.store && !Witnessed(s', g)
  {
    ExecutorsLeaveStore(f, s, step);
    WorksExpectTheSame(f, s, step, s.store[g]);
  }

  /** Apart from the store's answers no step makes a work expect something else. */
  lemma WorksExpectTheSame(f: Faults, s: State, step: Step, t: Task)
    requires Enabled(f, s, step) && OfExecutors(step) && !step.CasReply?
    requires forall k :: 0 <= k < |s.works| ==> !Witness(s.works[k], t)
    ensures forall k :: 0 <= k < |Apply(f, s, step).works| ==> !Witness(Apply(f, s, step).works[k], t)
  {
  }

  lemma StepKeepsUnwitnessed(f: Faults, s: State, step: Step, g: string)
    requires Inv(s) && Enabled(f, s, step) && Abandoned(s, g)
    requires var s' := Apply(f, s, step); g in s'.store && s'.store[g] == s.store[g]
    ensures !Witnessed(Apply(f, s, step), g)
  {
    if !OfExecutors(step) {
      ExecutorsUntouched(f, s, step);
    } else if step.CasReply? {
      CasLeavesUnwitnessed(s, step.i, step.reply, g);
    } else {
      ExecutorsLeaveUnwitnessed(f, s, step, g);
    }
  }

  lemma LateOnlyUnannounced(f: Faults, s: State, step: Step, e: ExecutorId)
    requires Enabled(f, s, step) && e in s.announced && e !in s.late
    ensures e !in Apply(f, s, step).late
  {
    hide Sent;
    if !OfExecutors(step) {
      ExecutorsUntouched(f, s, step);
    }
  }

  lemma StepKeepsAbandoned(f: Faults, s: State, step: Step, g: string)
    requires Inv(s) && Enabled(f, s, step) && Abandoned(s, g)
    requires DesiredOnce(HistoryOf(s, g)) && DesiredOnce(HistoryOf(Apply(f, s, step), g))
    requires s.store[g].executorId in Apply(f, s, step).present
    ensures var s' := Apply(f, s, step); Abandoned(s', g) && s'.store[g] == s.store[g]
  {
    hide Enabled, Apply, DesiredOnce, Witnessed;
    StepSpares(f, s, step, g);
    StepKeepsUnwitnessed(f, s, step, g);
    LateOnlyUnannounced(f, s, step, s.store[g].executorId);
  }

  /** In every run in which its executor stays and its key is not set again, a Running task
      without a goroutine keeps its value, and no reply is ever published for it. */
  lemma {:induction false} AbandonedForever(f: Faults, s: State, run: seq<Step>, g: string)
    requires Everything(f, s) && Runs(f, s, run) && Abandoned(s, g)
    requires DesiredOnce(HistoryOf(After(f, s, run), g)) && s.store[g].executorId in After(f, s, run).present
    ensures var s' := After(f, s, run); Abandoned(s', g) && s'.store[g] == s.store[g]
    ensures forall t :: t in After(f, s, run).published ==> t.guid != g
    decreases |run|
  {
    hide Enabled, Apply, Abandoned, Everything, DesiredOnce, Finished;
    if run == [] {
      UnansweredNow(f, s, g);
    } else {
      var s1 := Apply(f, s, run[0]);
      StepKeepsEverything(f, s, run[0]);
      RunKeepsEverything(f, s1, run[1..]);
      StillOnceAndThere(f, s, run[0], After(f, s1, run[1..]), g);
      StepKeepsAbandoned(f, s, run[0], g) by { assert Inv(s) by { EverythingInv(f, s); } }
      AbandonedForever(f, s1, run[1..], g);
    }
  }

  lemma EverythingInv(f: Faults, s: State)
    requires Everything(f, s)
    ensures Inv(s)
  {
  }

  /** What holds at the end of the run, the key set once and the executor there, has held all along. */
  lemma StillOnceAndThere(f: Faults, s: State, step: Step, last: State, g: string)
    requires Everything(f, s) && Enabled(f, s, step) && Abandoned(s, g)
    requires Grows(Apply(f, s, step), last) && DesiredOnce(HistoryOf(last, g)) && s.store[g].executorId in last.present
    ensures DesiredOnce(HistoryOf(s, g)) && DesiredOnce(HistoryOf(Apply(f, s, step), g))
    ensures s.store[g].executorId in Apply(f, s, step).present
  {
    hide Enabled, Apply, DesiredOnce, Witnessed, StoreInv, KickInv, SubmissionInv, WorkInv, ResolutionInv, PassInv;
    var s1 := Apply(f, s, step);
    StepKeeps(f, s, step);
    OnceBefore(HistoryOf(s1, g), HistoryOf(last, g));
    OnceBefore(HistoryOf(s, g), HistoryOf(s1, g));
  }

  lemma UnansweredNow(f: Faults, s: State, g: string)
    requires Everything(f, s) && Abandoned(s, g) && DesiredOnce(HistoryOf(s, g))
    ensures forall t :: t in s.published ==> t.guid != g
  {
    forall t | t in s.published ensures t.guid != g {
      if t.guid == g {
        StaysFinished(s, t);
      }
    }
  }

  // ---------- Calm runs ----------

  /** No process ends, no presence lapses while its process runs, no key is set, and requests are
      kicks that have been sent. */
  predicate Calm(s: State, step: Step) {
    match step
    case Crash(_, _) => false
    case SetReply(_, _) => false
    case Expire(e) => e !in s.running
    case Receive(_, t) => t in s.desireKicks
    case Accept(t) => t in s.completeKicks
    case _ => true
  }

  predicate CalmRun(f: Faults, s: State, run: seq<Step>)
    requires Runs(f, s, run)
    decreases |run|
  {
    run == [] || (Calm(s, run[0]) && CalmRun(f, Apply(f, s, run[0]), run[1..]))
  }

  ghost predicate CalmReaches(f: Faults, s: State, s': State) {
    exists run :: Runs(f, s, run) && CalmRun(f, s, run) && After(f, s, run) == s'
  }

  /** A reply for `g` has been published on the way. */
  predicate Answered(s: State, s': State, g: string) {
    |s.published| < |s'.published| && s'.published[|s'.published| - 1].guid == g
  }

  ghost predicate Answerable(f: Faults, s: State, g: string) {
    exists s' :: CalmReaches(f, s, s') && Answered(s, s', g)
  }

  lemma {:induction false} CalmCompose(f: Faults, s: State, a: seq<Step>, b: seq<Step>)
    requires Runs(f, s, a) && CalmRun(f, s, a) && Runs(f, After(f, s, a), b) && CalmRun(f, After(f, s, a), b)
    ensures Runs(f, s, a + b) && CalmRun(f, s, a + b) && After(f, s, a + b) == After(f, After(f, s, a), b)
    decreases |a|
  {
    RunsCompose(f, s, a, b);
    if a == [] {
      assert a + b == b;
    } else {
      assert (a + b)[1..] == a[1..] + b;
      CalmCompose(f, Apply(f, s, a[0]), a[1..], b);
    }
  }

  // ---------- What calm runs keep ----------

  lemma CalmKeepsPresent(f: Faults, s: State, step: Step, e: ExecutorId)
    requires Enabled(f, s, step) && Calm(s, step) && e in s.running && e in s.present
    ensures var s' := Apply(f, s, step); e in s'.running && e in s'.present
  {
    if OfExecutors(step) {
      ExecutorsKeepPresent(f, s, step, e);
    } else {
      ExecutorsUntouched(f, s, step);
      OthersKeepPresent(f, s, step, e);
    }
  }

  lemma ExecutorsKeepPresent(f: Faults, s: State, step: Step, e: ExecutorId)
    requires Enabled(f, s, step) && Calm(s, step) && OfExecutors(step) && e in s.running && e in s.present
    ensures var s' := Apply(f, s, step); e in s'.running && e in s'.present
  {
    hide Sent, AfterCas;
    if step.CasReply? {
      CasLeavesRest(s, step.i, step.reply);
    }
  }

  lemma OthersKeepPresent(f: Faults, s: State, step: Step, e: ExecutorId)
    requires Enabled(f, s, step) && Calm(s, step) && !OfExecutors(step) && e in s.running && e in s.present
    ensures e in Apply(f, s, step).present
  {
    if OfStore(step) {
      hide Apply;
      RepliesLeavePresence(f, s, step);
    } else {
      hide Decide, AfterSet, AfterResolve, AfterDelete, AfterSwap;
    }
  }

  lemma CalmKeepsOnce(f: Faults, s: State, step: Step, g: string)
    requires Inv(s) && Enabled(f, s, step) && Calm(s, step)
    requires DesiredOnce(HistoryOf(s, g)) && HistoryOf(s, g) != []
    ensures var h' := HistoryOf(Apply(f, s, step), g); DesiredOnce(h') && h' != []
  {
    hide Inv, Apply, Enabled;
    if !OfStore(step) {
      StoreUntouched(f, s, step);
    } else {
      OthersWriteLater(f, s, step);
      assert LaterWrite(HistoryOf(s, g), HistoryOf(Apply(f, s, step), g));
    }
  }

  lemma {:induction false} CalmRunKeeps(f: Faults, s: State, run: seq<Step>, e: ExecutorId, g: string)
    requires Inv(s) && Runs(f, s, run) && CalmRun(f, s, run) && e in s.running && e in s.present
    requires DesiredOnce(HistoryOf(s, g)) && HistoryOf(s, g) != []
    ensures e in After(f, s, run).present && DesiredOnce(HistoryOf(After(f, s, run), g))
    decreases |run|
  {
    hide Enabled, Apply, Calm, Inv, DesiredOnce;
    if run != [] {
      StepKeeps(f, s, run[0]);
      CalmKeepsPresent(f, s, run[0], e);
      CalmKeepsOnce(f, s, run[0], g);
      CalmRunKeeps(f, Apply(f, s, run[0]), run[1..], e, g);
    }
  }

  // ---------- Untruthful compare-and-swap: no reply ----------

  /** A start that was applied and reported as failed. */
  lemma AbandonedState(f: Faults) returns (s: State)
    requires !TruthfulCas(f)
    ensures Reachable(f, s) && Abandoned(s, GUID) && s.store[GUID].executorId in s.running
    ensures HistoryOf(s, GUID) != [] && DesiredOnce(HistoryOf(s, GUID))
  {
    hide Reachable, Reaches;
    var s0 := StartSentState(f);
    if f.lostCasAcks {
      s := LostAnswerRun(f, s0, 0);
    } else {
      s := Take(f, s0, CasReply(0, Failure(true)));
    }
    assert HistoryOf(s, GUID) == HistoryOf(s0, GUID) + [Entry(RunStarted, s.store[GUID])];
  }

  lemma DesiredState(f: Faults) returns (s: State, k: Task)
    ensures Reachable(f, s) && "e" in s.present && "e" !in s.late && s.clock == NOW && s.works == []
    ensures Holds(s, k) && k.guid == GUID && HistoryOf(s, GUID) == [Entry(Desired, k)]
    ensures "e" in s.announced && Enabled(f, s, Receive("e", k))
  {
    hide Reachable, Reaches;
    var s0 := Start0(f, "e", 0);
    var s1 := Take(f, s0, Tick(NOW));
    s := DesireRun(f, s1, NewTask(GUID, 0, ""));
    k := FirstVersion(NewTask(GUID, 0, ""), NOW);
  }

  lemma ClaimedState(f: Faults) returns (s: State, c: Task, k: Task)
    ensures Reachable(f, s) && "e" in s.present && "e" in s.running && "e" !in s.late && s.clock == NOW
    ensures s.works == [Work("e", Holding, c, k)] && Rested(s, TheWork(0)) && Holds(s, c)
    ensures c.guid == GUID && c.state == Claimed && c.executorId == "e"
    ensures HistoryOf(s, GUID) == [Entry(Desired, k), Entry(ClaimTaken, c)]
  {
    hide Reachable, Reaches;
    var s0;
    s0, k := DesiredState(f);
    s := ClaimRun(f, s0, "e", k);
    c := s.store[GUID];
  }

  lemma StartSentState(f: Faults) returns (s: State)
    ensures Reachable(f, s) && "e" in s.present && "e" in s.running && "e" !in s.late && |s.works| == 1
    ensures var w := s.works[0];
            && w.owner == "e" && w.phase == Starting && w.task == Start(w.original, "container", NOW)
            && Holds(s, w.original) && w.original.guid == GUID && w.original.state == Claimed
            && w.original.executorId == "e" && Rested(s, TheWork(0))
    ensures HistoryOf(s, GUID) != [] && DesiredOnce(HistoryOf(s, GUID))
  {
    hide Reachable, Reaches;
    var s0, c, k := ClaimedState(f);
    s := Take(f, s0, Send(0, "container", GOOD));
  }

  lemma AbandonedUnanswerable(f: Faults) returns (s: State)
    requires !TruthfulCas(f)
    ensures Reachable(f, s) && GUID in s.store && !Answerable(f, s, GUID)
  {
    hide Reachable, DesiredOnce;
    s := AbandonedState(f);
    ReachableEverything(f, s);
    forall s' | CalmReaches(f, s, s') ensures !Answered(s, s', GUID) {
      var run :| Runs(f, s, run) && CalmRun(f, s, run) && After(f, s, run) == s';
      CalmRunKeeps(f, s, run, s.store[GUID].executorId, GUID);
      AbandonedForever(f, s, run, GUID);
    }
  }
}
