/** Every step keeps the invariant, so every reachable state satisfies it. */
module Preservation {
  import opened Models
  import opened Lifecycle
  import opened Protocol
  import opened Invariants

  // ---------- Changes in one place ----------

  /** Growth alone, with nothing else changed but the store. */
  lemma StoreChanged(s: State, s': State)
    requires Inv(s) && Grows(s, s') && StoreInv(s')
    requires s' == s.(clock := s'.clock, store := s'.store, history := s'.history, memory := s'.memory,
                      free := s'.free, announced := s'.announced, present := s'.present, late := s'.late,
                      running := s'.running)
    requires ExecutorsInv(s')
    ensures Inv(s')
  {
    WrittenGrows(s, s');
    forall i | 0 <= i < |s'.passes| ensures PassOk(s', s'.passes[i]) {
      PassGrows(s, s', s.passes[i]);
    }
  }

  function Put<T>(xs: seq<T>, i: nat, x: T): seq<T>
    requires i <= |xs|
  {
    if i < |xs| then xs[i := x] else xs + [x]
  }

  lemma DesireKicked(s: State, t: Task)
    requires Inv(s) && Written(s, t) && t.state == Pending
    ensures var s' := s.(desireKicks := s.desireKicks + {t}); Grows(s, s') && Inv(s')
  {
    var s' := s.(desireKicks := s.desireKicks + {t});
    Same(s, s');
    StoreGrows(s, s');
  }

  /** Who sleeps matters to nobody else. */
  lemma Slept(s: State, r: Record)
    requires Inv(s)
    ensures Grows(s, AfterTimeout(s, r)) && Inv(AfterTimeout(s, r))
  {
    Same(s, AfterTimeout(s, r));
    StoreGrows(s, AfterTimeout(s, r));
  }

  lemma CompleteKicked(s: State, t: Task)
    requires Inv(s) && Written(s, t) && t.state == Completed
    ensures var s' := s.(completeKicks := s.completeKicks + {t}); Grows(s, s') && Inv(s')
  {
    var s' := s.(completeKicks := s.completeKicks + {t});
    Same(s, s');
    StoreGrows(s, s');
  }

  /** Only the shared part of the state decides what is known of a message or a local copy. */
  lemma Same(s: State, s': State)
    requires s'.clock == s.clock && s'.history == s.history && s'.memory == s.memory && s'.used == s.used
    requires s'.announced == s.announced && s'.present == s.present && s'.late == s.late
    ensures Grows(s, s')
    ensures forall t :: Written(s, t) <==> Written(s', t)
    ensures forall x :: SubmissionOk(s, x) ==> SubmissionOk(s', x)
    ensures forall w :: WorkOk(s, w) ==> WorkOk(s', w)
    ensures forall x :: ResolutionOk(s, x) ==> ResolutionOk(s', x)
    ensures forall p :: PassOk(s, p) ==> PassOk(s', p)
  {
    WrittenGrows(s, s');
    WrittenGrows(s', s);
    forall p | PassOk(s, p) ensures PassOk(s', p) {
      PassGrows(s, s', p);
    }
  }

  lemma SubmissionPut(s: State, i: nat, x: Submission)
    requires Inv(s) && i <= |s.submissions| && SubmissionOk(s, x)
    ensures var s' := s.(submissions := Put(s.submissions, i, x)); Grows(s, s') && Inv(s')
  {
    var s' := s.(submissions := Put(s.submissions, i, x));
    Same(s, s');
    StoreGrows(s, s');
  }

  lemma WorkPut(s: State, i: nat, w: Work, free: map<ExecutorId, int>)
    requires Inv(s) && i <= |s.works| && WorkOk(s, w) && free.Keys == s.free.Keys
    ensures var s' := s.(free := free, works := Put(s.works, i, w)); Grows(s, s') && Inv(s')
  {
    var s' := s.(free := free, works := Put(s.works, i, w));
    Same(s, s');
    StoreGrows(s, s');
  }

  lemma ResolutionPut(s: State, i: nat, x: Resolution, more: seq<Task>)
    requires Inv(s) && i <= |s.resolutions| && ResolutionOk(s, x)
    requires forall t :: t in more ==> Written(s, t) && t.state == Resolving
    ensures var s' := s.(published := s.published + more, resolutions := Put(s.resolutions, i, x));
            Grows(s, s') && Inv(s')
  {
    var s' := s.(published := s.published + more, resolutions := Put(s.resolutions, i, x));
    Same(s, s');
    StoreGrows(s, s');
  }

  lemma PassPut(s: State, i: nat, p: Pass)
    requires Inv(s) && i <= |s.passes| && PassOk(s, p)
    ensures var s' := s.(passes := Put(s.passes, i, p)); Grows(s, s') && Inv(s')
  {
    var s' := s.(passes := Put(s.passes, i, p));
    Same(s, s');
    StoreGrows(s, s');
  }

  lemma GrowsTransitive(s: State, s1: State, s2: State)
    requires Grows(s, s1) && Grows(s1, s2)
    ensures Grows(s, s2)
  {
    forall g ensures HistoryOf(s, g) <= HistoryOf(s2, g) {
      assert HistoryOf(s, g) <= HistoryOf(s1, g) <= HistoryOf(s2, g);
    }
  }

  lemma Swapped(s: State, old': Task, cause: Cause, new': Task)
    requires Inv(s) && Edge(cause, old', new') && new'.updatedAt <= s.clock
    requires new'.executorId in {"", old'.executorId} || new'.executorId in Known(s)
    requires cause == ExecutorLost ==> old'.executorId in Excused(s)
    ensures var s' := CompareAndSwap(s, old', cause, new');
            Grows(s, s') && Inv(s') && (Holds(s, old') ==> Written(s', new'))
  {
    SwapGrows(s, old', cause, new');
    SwapKeepsStore(s, old', cause, new');
    StoreChanged(s, CompareAndSwap(s, old', cause, new'));
  }

  // ---------- Environment ----------

  lemma CrashKeeps(s: State, e: ExecutorId, lost: set<nat>)
    requires Inv(s)
    ensures Grows(s, AfterCrash(s, e, lost)) && Inv(AfterCrash(s, e, lost))
  {
    var s' := AfterCrash(s, e, lost);
    Same(s, s');
    StoreGrows(s, s');
    forall k | 0 <= k < |s'.works| ensures WorkOk(s', s'.works[k]) {
      assert WorkOk(s, s.works[k]);
    }
  }

  lemma EnvironmentKeeps(f: Faults, s: State, step: Step)
    requires Inv(s) && Enabled(f, s, step)
    requires step.Tick? || step.Boot? || step.Announce? || step.Expire?
    ensures Grows(s, Apply(f, s, step)) && Inv(Apply(f, s, step))
  {
    StoreGrows(s, Apply(f, s, step));
    StoreChanged(s, Apply(f, s, step));
  }

  // ---------- Submissions ----------

  lemma SubmitKeeps(s: State, t: Task)
    requires Inv(s) && Unassigned(t) && t.createdAt <= s.clock && 0 <= t.memoryMB && Encodable(t)
    ensures Grows(s, AfterSubmit(s, t)) && Inv(AfterSubmit(s, t))
  {
    var s1 := s.(used := s.used + {t.guid});
    assert Inv(s1) by {
      StoreGrows(s, s1);
      WrittenGrows(s, s1);
      forall i | 0 <= i < |s1.passes| ensures PassOk(s1, s1.passes[i]) { PassGrows(s, s1, s.passes[i]); }
    }
    SubmissionPut(s1, |s.submissions|, Submission(Unstamped, t));
  }

  lemma CreateKeeps(s: State, i: nat)
    requires Inv(s) && i < |s.submissions|
    ensures Grows(s, AfterCreate(s, i)) && Inv(AfterCreate(s, i))
  {
    assert SubmissionOk(s, s.submissions[i]);
    SubmissionPut(s, i, AfterCreate(s, i).submissions[i]);
  }

  lemma StampKeeps(s: State, i: nat)
    requires Inv(s) && i < |s.submissions|
    ensures Grows(s, AfterStamp(s, i)) && Inv(AfterStamp(s, i))
  {
    assert SubmissionOk(s, s.submissions[i]);
    SubmissionPut(s, i, AfterStamp(s, i).submissions[i]);
  }

  /** The answer to a set, written or not, before anything is kicked. */
  lemma SetAnsweredKeeps(s: State, i: nat, write: bool, p: SubmissionPhase)
    requires Inv(s) && i < |s.submissions| && s.submissions[i].phase == Setting && p != Setting
    ensures var x := s.submissions[i];
            var s1 := if write then Write(s, Desired, x.task) else s;
            var s2 := s1.(submissions := s.submissions[i := x.(phase := p)]);
            Grows(s, s2) && Inv(s2) && x.task.state == Pending && (write ==> Written(s2, x.task))
  {
    var x := s.submissions[i];
    assert SubmissionOk(s, x);
    if write {
      var s1 := Write(s, Desired, x.task);
      WriteGrows(s, Desired, x.task);
      WriteKeepsStore(s, Desired, x.task);
      StoreChanged(s, s1);
      SubmissionPut(s1, i, x.(phase := p));
      var s2 := s1.(submissions := s.submissions[i := x.(phase := p)]);
      GrowsTransitive(s, s1, s2);
      WrittenGrows(s1, s2);
    } else {
      SubmissionPut(s, i, x.(phase := p));
    }
  }

  lemma SetKeeps(s: State, i: nat, r: Reply)
    requires Inv(s) && i < |s.submissions| && s.submissions[i].phase == Setting
    ensures Grows(s, AfterSet(s, i, r)) && Inv(AfterSet(s, i, r))
  {
    hide Inv, Grows, Written;
    var x := s.submissions[i];
    var write, p := r.Answer? || r.applied, if r.Timeout? then Unstamped else Submitted;
    SetAnsweredKeeps(s, i, write, p);
    var s2 := (if write then Write(s, Desired, x.task) else s).(submissions := s.submissions[i := x.(phase := p)]);
    if r.Answer? {
      DesireKicked(s2, x.task);
      GrowsTransitive(s, s2, AfterSet(s, i, r));
    } else if r.Timeout? {
      Slept(s2, TheSubmission(i));
      GrowsTransitive(s, s2, AfterSet(s, i, r));
    }
  }

  // ---------- Executor work ----------

  lemma ReceiveKeeps(s: State, e: ExecutorId, t: Task)
    requires Inv(s) && e in s.running && Claimable(t, s.clock)
    ensures Grows(s, AfterReceive(s, e, t)) && Inv(AfterReceive(s, e, t))
  {
    var s1 := s.(late := AfterReceive(s, e, t).late);
    StoreGrows(s, s1);
    StoreChanged(s, s1);
    WorkPut(s1, |s.works|, Work(e, Reserved, t, t), AfterReceive(s, e, t).free);
    GrowsTransitive(s, s1, AfterReceive(s, e, t));
  }

  lemma SentOk(s: State, w: Work, handle: string, o: Outcome)
    requires StoreInv(s) && WorkOk(s, w)
    ensures WorkOk(s, Sent(w, s.clock, handle, o))
  {
    if w.phase in {Holding, Executing} {
      WrittenFacts(s, w.task);
    }
  }

  lemma SendKeeps(s: State, i: nat, handle: string, o: Outcome)
    requires Inv(s) && i < |s.works|
    ensures Grows(s, AfterSend(s, i, handle, o)) && Inv(AfterSend(s, i, handle, o))
  {
    assert WorkOk(s, s.works[i]);
    SentOk(s, s.works[i], handle, o);
    WorkPut(s, i, Sent(s.works[i], s.clock, handle, o), s.free);
  }

  /** The work after the store has answered. */
  lemma AnsweredOk(s: State, s1: State, w: Work, p: WorkPhase)
    requires WorkOk(s, w) && InFlight(w.phase) && Grows(s, s1)
    requires p == w.phase || p == Releasing || (p == AfterSuccess(w.phase) && Written(s1, w.task))
    ensures WorkOk(s1, w.(phase := p))
  {
    WrittenGrows(s, s1);
  }

  /** The work's request is settled, with or without a write, and nothing is kicked. */
  lemma SettledKeeps(s: State, i: nat, swap: bool, p: WorkPhase)
    requires Inv(s) && i < |s.works| && InFlight(s.works[i].phase)
    requires p == s.works[i].phase || p == Releasing
             || (p == AfterSuccess(s.works[i].phase) && swap && Holds(s, s.works[i].original))
    ensures var w := s.works[i];
            var s1 := if swap then CompareAndSwap(s, w.original, CauseOf(w.phase), w.task) else s;
            var s2 := s1.(works := s.works[i := w.(phase := p)]);
            Grows(s, s2) && Inv(s2) && (swap && Holds(s, w.original) ==> Written(s2, w.task))
  {
    var w := s.works[i];
    assert WorkOk(s, w);
    var s1 := if swap then CompareAndSwap(s, w.original, CauseOf(w.phase), w.task) else s;
    Swapped(s, w.original, CauseOf(w.phase), w.task);
    AnsweredOk(s, s1, w, p);
    WorkPut(s1, i, w.(phase := p), s.free);
    var s2 := s1.(works := s.works[i := w.(phase := p)]);
    GrowsTransitive(s, s1, s2);
    WrittenGrows(s1, s2);
  }

  lemma CasKeeps(s: State, i: nat, r: Reply)
    requires Inv(s) && i < |s.works| && InFlight(s.works[i].phase)
    ensures Grows(s, AfterCas(s, i, r)) && Inv(AfterCas(s, i, r))
  {
    hide Inv, Grows, Written;
    var w := s.works[i];
    var won := r.Answer? && Holds(s, w.original);
    var swap := won || (!r.Answer? && r.applied);
    var p := if won then AfterSuccess(w.phase) else if r.Timeout? then w.phase else Releasing;
    SettledKeeps(s, i, swap, p);
    assert s.works[i := w] == s.works;
    var s2 := (if swap then CompareAndSwap(s, w.original, CauseOf(w.phase), w.task) else s)
              .(works := s.works[i := w.(phase := p)]);
    if won && w.phase == Completing {
      CompletedState(s, i);
      CompleteKicked(s2, w.task);
      GrowsTransitive(s, s2, AfterCas(s, i, r));
    } else if r.Timeout? {
      Slept(s2, TheWork(i));
      GrowsTransitive(s, s2, AfterCas(s, i, r));
    }
  }

  lemma CompletedState(s: State, i: nat)
    requires Inv(s) && i < |s.works| && s.works[i].phase == Completing
    ensures s.works[i].task.state == Completed
  {
    assert WorkOk(s, s.works[i]);
  }

  lemma ReleaseKeeps(s: State, i: nat)
    requires Inv(s) && i < |s.works|
    ensures Grows(s, AfterRelease(s, i)) && Inv(AfterRelease(s, i))
  {
    assert WorkOk(s, s.works[i]);
    WorkPut(s, i, s.works[i].(phase := WorkOver), AfterRelease(s, i).free);
  }

  // ---------- Resolutions ----------

  lemma AcceptKeeps(s: State, t: Task)
    requires Inv(s) && Resolvable(t, s.clock)
    ensures Grows(s, AfterAccept(s, t)) && Inv(AfterAccept(s, t))
  {
    assert s.published + [] == s.published;
    ResolutionPut(s, |s.resolutions|, Resolution(Received, t, t), []);
  }

  lemma SendResolveKeeps(s: State, i: nat)
    requires Inv(s) && i < |s.resolutions| && s.resolutions[i].phase == Received
    ensures Grows(s, AfterSendResolve(s, i)) && Inv(AfterSendResolve(s, i))
  {
    assert ResolutionOk(s, s.resolutions[i]);
    assert s.published + [] == s.published;
    ResolutionPut(s, i, AfterSendResolve(s, i).resolutions[i], []);
  }

  /** The resolution's request is settled, with or without a write. */
  lemma ResolveSettledKeeps(s: State, i: nat, swap: bool, p: ResolutionPhase)
    requires Inv(s) && i < |s.resolutions| && s.resolutions[i].phase == ResolveSent
    requires p in {ResolveSent, ResolutionOver} || (p == Publishing && swap && Holds(s, s.resolutions[i].original))
    ensures var x := s.resolutions[i];
            var s1 := if swap then CompareAndSwap(s, x.original, ResolveTaken, x.task) else s;
            var s2 := s1.(resolutions := s.resolutions[i := x.(phase := p)]);
            Grows(s, s2) && Inv(s2)
  {
    var x := s.resolutions[i];
    assert ResolutionOk(s, x);
    var s1 := if swap then CompareAndSwap(s, x.original, ResolveTaken, x.task) else s;
    Swapped(s, x.original, ResolveTaken, x.task);
    WrittenGrows(s, s1);
    assert s1.published + [] == s1.published;
    ResolutionPut(s1, i, x.(phase := p), []);
    GrowsTransitive(s, s1, s1.(resolutions := s.resolutions[i := x.(phase := p)]));
  }

  lemma ResolveKeeps(s: State, i: nat, r: Reply)
    requires Inv(s) && i < |s.resolutions| && s.resolutions[i].phase == ResolveSent
    ensures Grows(s, AfterResolve(s, i, r)) && Inv(AfterResolve(s, i, r))
  {
    hide Inv, Grows;
    var x := s.resolutions[i];
    var swap := r.Answer? || r.applied;
    var p := if r.Timeout? then ResolveSent else if r.Answer? && Holds(s, x.original) then Publishing else ResolutionOver;
    ResolveSettledKeeps(s, i, swap, p);
    assert s.resolutions[i := x] == s.resolutions;
    if r.Timeout? {
      var s2 := (if swap then CompareAndSwap(s, x.original, ResolveTaken, x.task) else s)
                .(resolutions := s.resolutions[i := x.(phase := p)]);
      Slept(s2, TheResolution(i));
      GrowsTransitive(s, s2, AfterResolve(s, i, r));
    }
  }

  lemma PublishKeeps(s: State, i: nat, ok: bool)
    requires Inv(s) && i < |s.resolutions| && s.resolutions[i].phase == Publishing
    ensures Grows(s, AfterPublish(s, i, ok)) && Inv(AfterPublish(s, i, ok))
  {
    var x := s.resolutions[i];
    assert ResolutionOk(s, x);
    assert s.published + [] == s.published;
    ResolutionPut(s, i, AfterPublish(s, i, ok).resolutions[i], if ok then [x.task] else []);
  }

  lemma DeleteSettledKeeps(s: State, i: nat, remove: bool, p: ResolutionPhase)
    requires Inv(s) && i < |s.resolutions| && s.resolutions[i].phase == Deleting && p in {Deleting, ResolutionOver}
    ensures var x := s.resolutions[i];
            var s1 := if remove then Remove(s, x.task.guid) else s;
            var s2 := s1.(resolutions := s.resolutions[i := x.(phase := p)]);
            Grows(s, s2) && Inv(s2)
  {
    var x := s.resolutions[i];
    var s1 := if remove then Remove(s, x.task.guid) else s;
    assert ResolutionOk(s, x);
    RemoveGrows(s, x.task.guid);
    RemoveKeepsStore(s, x.task.guid);
    StoreGrows(s, s);
    StoreChanged(s, s1);
    WrittenGrows(s, s1);
    assert s1.published + [] == s1.published;
    ResolutionPut(s1, i, x.(phase := p), []);
    GrowsTransitive(s, s1, s1.(resolutions := s.resolutions[i := x.(phase := p)]));
  }

  lemma DeleteKeeps(s: State, i: nat, r: Reply)
    requires Inv(s) && i < |s.resolutions| && s.resolutions[i].phase == Deleting
    ensures Grows(s, AfterDelete(s, i, r)) && Inv(AfterDelete(s, i, r))
  {
    hide Inv, Grows;
    var x := s.resolutions[i];
    var remove, p := r.Answer? || r.applied, if r.Timeout? then Deleting else ResolutionOver;
    DeleteSettledKeeps(s, i, remove, p);
    assert s.resolutions[i := x] == s.resolutions;
    if r.Timeout? {
      var s2 := (if remove then Remove(s, x.task.guid) else s).(resolutions := s.resolutions[i := x.(phase := p)]);
      Slept(s2, TheResolution(i));
      GrowsTransitive(s, s2, AfterDelete(s, i, r));
    }
  }

  // ---------- Converge passes ----------

  lemma ListTasksKeeps(s: State)
    requires Inv(s)
    ensures Grows(s, AfterListTasks(s)) && Inv(AfterListTasks(s))
  {
    forall g | g in s.store ensures s.store[g].guid == g && Written(s, s.store[g]) {
      StoredIsWritten(s, g);
    }
    PassPut(s, |s.passes|, AfterListTasks(s).passes[|s.passes|]);
  }

  lemma AbsentAreExcusedNow(s: State, tasks: Snapshot)
    requires StoreInv(s) && ListedOk(s, tasks)
    ensures AbsentAreExcused(s, tasks, s.present)
  {
    forall g | g in tasks && tasks[g].state in {Claimed, Running}
      ensures tasks[g].executorId in s.present || tasks[g].executorId in Excused(s)
    {
      WrittenFacts(s, tasks[g]);
    }
  }

  lemma ListExecutorsKeeps(s: State, i: nat)
    requires Inv(s) && i < |s.passes| && s.passes[i].stage == TasksListed
    ensures Grows(s, AfterListExecutors(s, i)) && Inv(AfterListExecutors(s, i))
  {
    assert PassOk(s, s.passes[i]);
    AbsentAreExcusedNow(s, s.passes[i].snapshot);
    PassPut(s, i, AfterListExecutors(s, i).passes[i]);
  }

  lemma ReadBoundaryKeeps(s: State, i: nat, timeToClaim: int)
    requires Inv(s) && i < |s.passes| && s.passes[i].stage == ExecutorsListed
    ensures Grows(s, AfterReadBoundary(s, i, timeToClaim)) && Inv(AfterReadBoundary(s, i, timeToClaim))
  {
    assert PassOk(s, s.passes[i]);
    PassPut(s, i, AfterReadBoundary(s, i, timeToClaim).passes[i]);
  }

  lemma ExaminedOk(s: State, p: Pass, g: string)
    requires StoreInv(s) && PassOk(s, p) && p.stage == Scanning && g in p.snapshot
    ensures var d := Decide(p.snapshot[g], p.boundary, p.timeToClaim, p.snapshot[g].executorId in p.alive, s.clock);
            && PassOk(s, Examined(p, g, d))
            && Written(s, p.snapshot[g])
            && (d.KickDesire? ==> p.snapshot[g].state == Pending)
            && (d.KickComplete? ==> p.snapshot[g].state == Completed)
  {
    var t := p.snapshot[g];
    var d := Decide(t, p.boundary, p.timeToClaim, t.executorId in p.alive, s.clock);
    if d.Swap? {
      WrittenFacts(s, t);
      DecisionsAreEdges(t, p.boundary, p.timeToClaim, t.executorId in p.alive, s.clock, s.clock);
      assert SwapOk(s, t, d.cause, Stamp(d.task, s.clock));
    }
  }

  lemma ExamineKeeps(s: State, i: nat, g: string)
    requires Inv(s) && i < |s.passes| && s.passes[i].stage == Scanning && g in s.passes[i].snapshot
    ensures Grows(s, AfterExamine(s, i, g)) && Inv(AfterExamine(s, i, g))
  {
    var p := s.passes[i];
    var t := p.snapshot[g];
    assert PassOk(s, p);
    var d := Decide(t, p.boundary, p.timeToClaim, t.executorId in p.alive, s.clock);
    ExaminedOk(s, p, g);
    PassPut(s, i, Examined(p, g, d));
    var s1 := s.(passes := s.passes[i := Examined(p, g, d)]);
    WrittenGrows(s, s1);
    if d.KickDesire? {
      DesireKicked(s1, t);
    } else if d.KickComplete? {
      CompleteKicked(s1, t);
    }
    GrowsTransitive(s, s1, AfterExamine(s, i, g));
  }

  lemma StampedOk(s: State, p: Pass, g: string)
    requires PassOk(s, p) && g in p.planned
    ensures PassOk(s, p.(planned := p.planned - {g},
                         sent := p.sent[g := Plan(p.planned[g].cause, Stamp(p.planned[g].task, s.clock))]))
  {
  }

  lemma StampSwapKeeps(s: State, i: nat, g: string)
    requires Inv(s) && i < |s.passes| && g in s.passes[i].planned
    ensures Grows(s, AfterStampSwap(s, i, g)) && Inv(AfterStampSwap(s, i, g))
  {
    assert PassOk(s, s.passes[i]);
    StampedOk(s, s.passes[i], g);
    PassPut(s, i, AfterStampSwap(s, i, g).passes[i]);
  }

  lemma SwapAnsweredOk(s: State, s1: State, p: Pass, g: string)
    requires PassOk(s, p) && Grows(s, s1)
    ensures PassOk(s1, p.(sent := p.sent - {g}))
  {
    PassGrows(s, s1, p);
  }

  /** What is known of a swap in flight is what its compare-and-swap needs. */
  lemma SentSwapOk(s: State, p: Pass, g: string)
    requires StoreInv(s) && PassOk(s, p) && g in p.sent
    ensures g in p.snapshot && SwapOk(s, p.snapshot[g], p.sent[g].cause, p.sent[g].task)
    ensures p.sent[g].task.executorId == "" || p.sent[g].task.executorId in Known(s)
  {
    WrittenFacts(s, p.snapshot[g]);
  }

  lemma SwapKeeps(s: State, i: nat, g: string, applied: bool)
    requires Inv(s) && i < |s.passes| && g in s.passes[i].sent && g in s.passes[i].snapshot
    ensures Grows(s, AfterSwap(s, i, g, applied)) && Inv(AfterSwap(s, i, g, applied))
  {
    hide CompareAndSwap, Edge;
    var p := s.passes[i];
    var plan := p.sent[g];
    assert PassOk(s, p);
    SentSwapOk(s, p, g);
    var s1 := if applied then CompareAndSwap(s, p.snapshot[g], plan.cause, plan.task) else s;
    Swapped(s, p.snapshot[g], plan.cause, plan.task);
    SwapAnsweredOk(s, s1, p, g);
    PassPut(s1, i, p.(sent := p.sent - {g}));
    GrowsTransitive(s, s1, AfterSwap(s, i, g, applied));
  }

  // ---------- All steps, all runs ----------

  lemma StepKeeps(f: Faults, s: State, step: Step)
    requires Inv(s) && Enabled(f, s, step)
    ensures Grows(s, Apply(f, s, step)) && Inv(Apply(f, s, step))
  {
    hide Inv, Grows;
    match step
    case Submit(t) => SubmitKeeps(s, t);
    case StampCreated(i) => CreateKeeps(s, i);
    case StampDesire(i) => StampKeeps(s, i);
    case SetReply(i, r) => SetKeeps(s, i, r);
    case Receive(e, t) => ReceiveKeeps(s, e, t);
    case Send(i, handle, o) => SendKeeps(s, i, handle, o);
    case CasReply(i, r) => CasKeeps(s, i, r);
    case Release(i) => ReleaseKeeps(s, i);
    case Accept(t) => AcceptKeeps(s, t);
    case SendResolve(i) => SendResolveKeeps(s, i);
    case ResolveReply(i, r) => ResolveKeeps(s, i, r);
    case Publish(i, ok) => PublishKeeps(s, i, ok);
    case DeleteReply(i, r) => DeleteKeeps(s, i, r);
    case ListTasks => ListTasksKeeps(s);
    case ListExecutors(i) => ListExecutorsKeeps(s, i);
    case ReadBoundary(i, ttc) => ReadBoundaryKeeps(s, i, ttc);
    case Examine(i, g) => ExamineKeeps(s, i, g);
    case StampSwap(i, g) => StampSwapKeeps(s, i, g);
    case SwapReply(i, g, applied) => SwapKeeps(s, i, g, applied);
    case Crash(e, lost) => CrashKeeps(s, e, lost);
    case _ => EnvironmentKeeps(f, s, step);
  }

  lemma {:induction false} RunKeeps(f: Faults, s: State, run: seq<Step>)
    requires Inv(s) && Runs(f, s, run)
    ensures Inv(After(f, s, run))
    decreases |run|
  {
    if run != [] {
      StepKeeps(f, s, run[0]);
      RunKeeps(f, Apply(f, s, run[0]), run[1..]);
    }
  }

  lemma ReachableInv(f: Faults, s: State)
    requires Reachable(f, s)
    ensures Inv(s)
  {
    var run :| Runs(f, INITIAL, run) && After(f, INITIAL, run) == s;
    assert forall g :: HistoryInv(INITIAL, g);
    RunKeeps(f, INITIAL, run);
  }
}
