/**
Retried calls. A call goes on sending one request until something other than a timeout comes
back; here is when all its attempts together change the store at most once, and when what the
call reports is what has happened.
*/
module AtMostOnce {
  import opened Models
  import opened Lifecycle
  import opened Protocol
  import opened Invariants
  import opened Preservation
  import opened Relapse
  import opened Replies
  import opened Requests
  import opened Scenarios
  import opened Theorems

  function WorkRank(p: WorkPhase): nat {
    match p
    case Reserved => 0
    case Claiming => 1
    case Holding => 2
    case Starting => 3
    case Executing => 4
    case Completing => 5
    case Releasing => 6
    case WorkOver => 7
  }

  function ResolutionRank(p: ResolutionPhase): nat {
    match p
    case Received => 0
    case ResolveSent => 1
    case Publishing => 2
    case Deleting => 3
    case ResolutionOver => 4
  }

  /** The call is still waiting for the answer that ends it. */
  predicate Open(s: State, q: Request) {
    match q
    case SwapOf(i, w) => i < |s.works| && s.works[i] == w && InFlight(w.phase)
    case ResolveOf(i, x) => i < |s.resolutions| && s.resolutions[i] == x && x.phase == ResolveSent
    case SetOf(i) => i < |s.submissions| && s.submissions[i].phase != Submitted
  }

  /** The call has had it. */
  predicate Closed(s: State, q: Request) {
    match q
    case SwapOf(i, w) => i < |s.works| && WorkRank(w.phase) < WorkRank(s.works[i].phase)
    case ResolveOf(i, x) => i < |s.resolutions| && ResolutionRank(x.phase) < ResolutionRank(s.resolutions[i].phase)
    case SetOf(i) => i < |s.submissions| && s.submissions[i].phase == Submitted
  }

  // ---------- Calls only move on ----------

  lemma CasMovesOn(s: State, i: nat, r: Reply, k: nat)
    requires i < |s.works| && InFlight(s.works[i].phase) && k < |s.works|
    ensures var s' := AfterCas(s, i, r);
            k < |s'.works| && (s'.works[k] == s.works[k] || WorkRank(s.works[k].phase) < WorkRank(s'.works[k].phase))
  {
    hide Write, CompareAndSwap, Holds;
  }

  lemma WorksMoveOn(f: Faults, s: State, step: Step, i: nat)
    requires Enabled(f, s, step) && i < |s.works|
    ensures var s' := Apply(f, s, step);
            i < |s'.works| && (s'.works[i] == s.works[i] || WorkRank(s.works[i].phase) < WorkRank(s'.works[i].phase))
  {
    if !OfExecutors(step) {
      ExecutorsUntouched(f, s, step);
    } else if step.CasReply? {
      CasMovesOn(s, step.i, step.reply, i);
    }
  }

  lemma ResolutionAnswered(s: State, i: nat, r: Reply, k: nat)
    requires i < |s.resolutions| && k < |s.resolutions|
    ensures s.resolutions[i].phase == ResolveSent ==> ResolutionMovesOn(s, AfterResolve(s, i, r), k)
    ensures s.resolutions[i].phase == Deleting ==> ResolutionMovesOn(s, AfterDelete(s, i, r), k)
  {
    hide Write, CompareAndSwap, Remove, Holds;
  }

  predicate ResolutionMovesOn(s: State, s': State, k: nat) {
    && k < |s.resolutions| && k < |s'.resolutions|
    && (s'.resolutions[k] == s.resolutions[k]
        || ResolutionRank(s.resolutions[k].phase) < ResolutionRank(s'.resolutions[k].phase))
  }

  lemma ResolutionsMoveOn(f: Faults, s: State, step: Step, i: nat)
    requires Enabled(f, s, step) && i < |s.resolutions|
    ensures ResolutionMovesOn(s, Apply(f, s, step), i)
  {
    if !OfResolutions(step) {
      hide Apply;
      ResolutionsUntouched(f, s, step);
    } else if step.ResolveReply? || step.DeleteReply? {
      hide ResolutionMovesOn, AfterResolve, AfterDelete;
      ResolutionAnswered(s, step.i, step.reply, i);
    } else {
      hide Apply;
      ResolutionGoesOn(f, s, step, i);
    }
  }

  lemma ResolutionGoesOn(f: Faults, s: State, step: Step, i: nat)
    requires Enabled(f, s, step) && (step.Accept? || step.SendResolve? || step.Publish?) && i < |s.resolutions|
    ensures ResolutionMovesOn(s, Apply(f, s, step), i)
  {
  }

  lemma SubmissionsMoveOn(f: Faults, s: State, step: Step, i: nat)
    requires Enabled(f, s, step) && i < |s.submissions|
    ensures var s' := Apply(f, s, step);
            i < |s'.submissions| && (s.submissions[i].phase == Submitted ==> s'.submissions[i].phase == Submitted)
  {
    if !OfSubmissions(step) {
      SubmissionsUntouched(f, s, step);
    }
  }

  lemma CallsMoveOn(f: Faults, s: State, step: Step, q: Request)
    requires Enabled(f, s, step) && (Open(s, q) || Closed(s, q))
    ensures Closed(s, q) ==> Closed(Apply(f, s, step), q)
    ensures Open(Apply(f, s, step), q) || Closed(Apply(f, s, step), q)
  {
    hide Enabled, Apply;
    match q
    case SwapOf(i, _) => WorksMoveOn(f, s, step, i);
    case ResolveOf(i, _) => ResolutionsMoveOn(f, s, step, i);
    case SetOf(i) => SubmissionsMoveOn(f, s, step, i);
  }

  lemma {:induction false} StaysClosed(f: Faults, s: State, run: seq<Step>, q: Request)
    requires Runs(f, s, run) && Closed(s, q)
    ensures Closed(After(f, s, run), q)
    decreases |run|
  {
    hide Enabled, Apply, Closed;
    if run != [] {
      CallsMoveOn(f, s, run[0], q);
      StaysClosed(f, Apply(f, s, run[0]), run[1..], q);
    }
  }

  // ---------- A swap that has been applied ----------

  /** The value a request compares with, and the one it stores. */
  function OldOf(q: Request): Task
    requires !q.SetOf?
  {
    if q.SwapOf? then q.work.original else q.resolution.original
  }

  function NewOf(q: Request): Task
    requires !q.SetOf?
  {
    if q.SwapOf? then q.work.task else q.resolution.task
  }

  lemma OpenIsEdge(s: State, q: Request) returns (cause: Cause)
    requires Inv(s) && Open(s, q) && !q.SetOf?
    ensures Edge(cause, OldOf(q), NewOf(q)) && OldOf(q).guid == NewOf(q).guid
  {
    match q {
      case SwapOf(i, w) =>
        assert WorkOk(s, w);
        cause := CauseOf(w.phase);
      case ResolveOf(i, x) =>
        assert ResolutionOk(s, x);
        cause := ResolveTaken;
    }
  }

  /** A key that is set once never holds the old value again after the new one. */
  lemma OvertakenNotHeld(s: State, q: Request)
    requires Inv(s) && Open(s, q) && !q.SetOf? && Written(s, NewOf(q))
    requires DesiredOnce(HistoryOf(s, OldOf(q).guid))
    ensures !Holds(s, OldOf(q))
  {
    var cause := OpenIsEdge(s, q);
    EdgeFollows(cause, OldOf(q), NewOf(q));
    var g := OldOf(q).guid;
    var h := HistoryOf(s, g);
    assert HistoryInv(s, g);
    var i :| 0 <= i < |h| && h[i].task == NewOf(q);
    if Holds(s, OldOf(q)) && i < |h| - 1 {
      LaterVersions(h, i, |h| - 1);
    }
  }

  predicate NoAckLost(f: Faults, q: Request) {
    match q
    case SwapOf(_, _) => !f.lostCasAcks
    case ResolveOf(_, _) => !f.lostResolveAcks
    case SetOf(_) => !f.lostSetAcks
  }

  /** From here on `q` changes nothing: the call is over, or its old value is history. */
  ghost predicate Spent(f: Faults, s: State, q: Request) {
    Closed(s, q) || (Open(s, q) && !q.SetOf? && SetOnce(f) && Written(s, NewOf(q)))
  }

  lemma AppliedIsSpent(f: Faults, s: State, step: Step, q: Request)
    requires Enabled(f, s, step) && Open(s, q) && Applied(s, step, q)
    requires NoAckLost(f, q) || (!q.SetOf? && SetOnce(f))
    requires !q.SetOf? ==> OldOf(q).guid == NewOf(q).guid
    ensures Spent(f, Apply(f, s, step), q)
    ensures NoAckLost(f, q) ==> Closed(Apply(f, s, step), q)
  {
    match q {
      case SwapOf(i, w) => SwapIsSpent(f, s, i, step.reply);
      case ResolveOf(i, x) => ResolveIsSpent(f, s, i, step.reply);
      case SetOf(i) =>
    }
  }

  lemma SwapIsSpent(f: Faults, s: State, i: nat, r: Reply)
    requires Enabled(f, s, CasReply(i, r)) && Took(r) && Holds(s, s.works[i].original)
    requires s.works[i].original.guid == s.works[i].task.guid
    ensures var s', w := AfterCas(s, i, r), s.works[i];
            && i < |s'.works| && Written(s', w.task)
            && (if r.Timeout? then f.lostCasAcks && s'.works[i] == w else WorkRank(w.phase) < WorkRank(s'.works[i].phase))
  {
    var g := s.works[i].task.guid;
    assert HistoryOf(AfterCas(s, i, r), g)[|HistoryOf(s, g)|].task == s.works[i].task;
  }

  lemma ResolveIsSpent(f: Faults, s: State, i: nat, r: Reply)
    requires Enabled(f, s, ResolveReply(i, r)) && Took(r) && Holds(s, s.resolutions[i].original)
    requires s.resolutions[i].original.guid == s.resolutions[i].task.guid
    ensures var s', x := AfterResolve(s, i, r), s.resolutions[i];
            && i < |s'.resolutions| && Written(s', x.task)
            && (if r.Timeout? then f.lostResolveAcks && s'.resolutions[i] == x
                else ResolutionRank(x.phase) < ResolutionRank(s'.resolutions[i].phase))
  {
    var g := s.resolutions[i].task.guid;
    assert HistoryOf(AfterResolve(s, i, r), g)[|HistoryOf(s, g)|].task == s.resolutions[i].task;
  }

  lemma SpentStays(f: Faults, s: State, step: Step, q: Request)
    requires Everything(f, s) && Enabled(f, s, step) && Spent(f, s, q)
    ensures Spent(f, Apply(f, s, step), q) && !Applied(s, step, q)
  {
    hide Enabled, Apply, Applied, Inv, OnceInv, Grows, Written, Open, Closed, Holds;
    CallsMoveOn(f, s, step, q);
    StepKeeps(f, s, step);
    WrittenGrows(s, Apply(f, s, step));
    if !Closed(s, q) {
      KeySetOnce(s, OldOf(q).guid);
      OvertakenNotHeld(s, q);
      NotHeldNotApplied(s, step, q);
    } else {
      ClosedNotApplied(f, s, step, q);
    }
  }

  lemma KeySetOnce(s: State, g: string)
    requires OnceInv(s)
    ensures DesiredOnce(HistoryOf(s, g))
  {
    assert OnceFor(s, g);
  }

  lemma NotHeldNotApplied(s: State, step: Step, q: Request)
    requires !q.SetOf? && !Holds(s, OldOf(q))
    ensures !Applied(s, step, q)
  {
  }

  lemma ClosedNotApplied(f: Faults, s: State, step: Step, q: Request)
    requires Enabled(f, s, step) && Closed(s, q)
    ensures !Applied(s, step, q)
  {
  }

  lemma {:induction false} SpentAppliesNothing(f: Faults, s: State, run: seq<Step>, q: Request)
    requires Everything(f, s) && Runs(f, s, run) && Spent(f, s, q)
    ensures Applications(f, s, run, q) == 0
    decreases |run|
  {
    hide Enabled, Apply, Applied, Everything, Spent;
    if run != [] {
      SpentStays(f, s, run[0], q);
      StepKeepsEverything(f, s, run[0]);
      SpentAppliesNothing(f, Apply(f, s, run[0]), run[1..], q);
    }
  }

  lemma {:induction false} AppliedOnce(f: Faults, s: State, run: seq<Step>, q: Request)
    requires Everything(f, s) && Runs(f, s, run) && Open(s, q)
    requires NoAckLost(f, q) || (!q.SetOf? && SetOnce(f))
    ensures Applications(f, s, run, q) <= 1
    decreases |run|
  {
    hide Enabled, Apply, Applied;
    if run != [] {
      var s1 := Apply(f, s, run[0]);
      StepKeepsEverything(f, s, run[0]);
      if !q.SetOf? { var cause := OpenIsEdge(s, q); }
      CallsMoveOn(f, s, run[0], q);
      if Applied(s, run[0], q) {
        AppliedIsSpent(f, s, run[0], q);
        SpentAppliesNothing(f, s1, run[1..], q);
      } else if Open(s1, q) {
        AppliedOnce(f, s1, run[1..], q);
      } else {
        SpentAppliesNothing(f, s1, run[1..], q);
      }
    }
  }

  // ---------- The theorems ----------

  /** A claim, start or completion is applied at most once, however often it is retried and
      whatever happens in between, if and only if no guid is set twice or no acknowledgement is
      lost. */
  lemma SwapsAppliedOnce(f: Faults)
    ensures (forall s, run, q :: Reachable(f, s) && Runs(f, s, run) && Open(s, q) && q.SwapOf? ==>
               Applications(f, s, run, q) <= 1)
            <==> SetOnce(f) || !f.lostCasAcks
  {
    hide Open, Applications, Runs;
    if SetOnce(f) || !f.lostCasAcks {
      forall s, run, q: Request | Reachable(f, s) && Runs(f, s, run) && q.SwapOf? && Open(s, q)
        ensures Applications(f, s, run, q) <= 1
      {
        ReachableEverything(f, s);
        AppliedOnce(f, s, run, q);
      }
    } else {
      var s, run, q := SwapAppliedTwice(f);
    }
  }

  /** The same for the resolves of the stagers. */
  lemma ResolvesAppliedOnce(f: Faults)
    ensures (forall s, run, q :: Reachable(f, s) && Runs(f, s, run) && Open(s, q) && q.ResolveOf? ==>
               Applications(f, s, run, q) <= 1)
            <==> SetOnce(f) || !f.lostResolveAcks
  {
    hide Open, Applications, Runs;
    if SetOnce(f) || !f.lostResolveAcks {
      forall s, run, q: Request | Reachable(f, s) && Runs(f, s, run) && q.ResolveOf? && Open(s, q)
        ensures Applications(f, s, run, q) <= 1
      {
        ReachableEverything(f, s);
        AppliedOnce(f, s, run, q);
      }
    } else {
      var s, run, q := ResolveAppliedTwice(f);
    }
  }

  /** A set, which compares nothing, is applied at most once per call if and only if no
      acknowledgement is lost. */
  lemma SetsAppliedOnce(f: Faults)
    ensures (forall s, run, q :: Reachable(f, s) && Runs(f, s, run) && Open(s, q) && q.SetOf? ==>
               Applications(f, s, run, q) <= 1)
            <==> !f.lostSetAcks
  {
    hide Open, Applications, Runs;
    if !f.lostSetAcks {
      forall s, run, q: Request | Reachable(f, s) && Runs(f, s, run) && q.SetOf? && Open(s, q)
        ensures Applications(f, s, run, q) <= 1
      {
        ReachableEverything(f, s);
        AppliedOnce(f, s, run, q);
      }
    } else {
      var s, run, q := SetAppliedTwice(f);
    }
  }

  /** `a` leads to a first application and `b` to a second, with whatever in between. */
  lemma TwoApplications(f: Faults, s: State, a: Step, s1: State, b: Step, q: Request) returns (run: seq<Step>)
    requires Enabled(f, s, a) && Applied(s, a, q) && Reaches(f, Apply(f, s, a), s1)
    requires Enabled(f, s1, b) && Applied(s1, b, q)
    ensures Runs(f, s, run) && Applications(f, s, run, q) >= 2
  {
    hide Enabled, Apply, Applied;
    var n := AppliesSome(f, Apply(f, s, a), s1, q);
    AppliesStep(f, s, a, q);
    AppliesStep(f, s1, b, q);
    AppliesOn(f, s, Apply(f, s, a), s1, q, 1, n);
    AppliesOn(f, s, s1, Apply(f, s1, b), q, 1 + n, 1);
    run :| Runs(f, s, run) && After(f, s, run) == Apply(f, s1, b) && Applications(f, s, run, q) == 1 + n + 1;
  }

  /** A start whose acknowledgement is lost, a second set and a second claim at the same reading
      of the clock: the retry finds the claimed value again. */
  lemma SwapAppliedTwice(f: Faults) returns (s: State, run: seq<Step>, q: Request)
    requires f.lostCasAcks && !SetOnce(f)
    ensures Reachable(f, s) && Runs(f, s, run) && q.SwapOf? && Open(s, q) && Applications(f, s, run, q) >= 2
  {
    hide Reachable, Reaches, Runs, Applications, First, Second;
    s := StartSentSettable(f);
    q := SwapOf(0, s.works[0]);
    var s1 := Take(f, s, CasReply(0, Timeout(true)));
    var s2 := ClaimedAgain(f, s1);
    run := TwoApplications(f, s, CasReply(0, Timeout(true)), s2, CasReply(0, Answer), q);
  }

  lemma StartSentSettable(f: Faults) returns (s: State)
    requires !SetOnce(f)
    ensures Reachable(f, s) && Idle(s) && Settable(f, s) && |s.works| == 1 && Holds(s, Taken(f)) && Rested(s, TheWork(0))
    ensures s.works[0] == Work("e", Starting, Start(Taken(f), "container", NOW), Taken(f))
  {
    hide Reachable, Reaches;
    var s0 := FirstSet(f);
    var s1 := ClaimRun(f, s0, "e", First(f));
    s := Take(f, s1, Send(0, "container", GOOD));
  }

  lemma ClaimedAgain(f: Faults, s: State) returns (s': State)
    requires Reachable(f, s) && Idle(s) && Settable(f, s) && |s.works| == 1
    requires TheWork(0) in s.waits && s.waits[TheWork(0)] == NOW + ONE_SECOND
    ensures Reachable(f, s') && Reaches(f, s, s') && Holds(s', Taken(f)) && Rested(s', TheWork(0))
    ensures 0 < |s'.works| && s'.works[0] == s.works[0]
  {
    hide Reachable, Reaches;
    ReachesChain(f);
    var s1 := SecondSet(f, s);
    var s2 := ClaimRun(f, s1, "e", Second(f));
    s' := Take(f, s2, Tick(ONE_SECOND));
  }

  /** A resolve on its way to the store of a task that can be set again. */
  lemma ResolveSentSettable(f: Faults) returns (s: State)
    requires !SetOnce(f)
    ensures Reachable(f, s) && Idle(s) && Settable(f, s) && |s.resolutions| == 1
    ensures var d := Done(First(f), GOOD);
            s.resolutions[0] == Resolution(ResolveSent, Resolve(d, NOW), d) && Holds(s, d)
    ensures Rested(s, TheResolution(0))
  {
    hide Reachable, Reaches;
    var s0 := FirstSet(f);
    var s1 := CompletedRun(f, s0, First(f), GOOD);
    s := SendResolveRun(f, s1, s1.store[GUID]);
  }

  /** A second set, and the task is completed in the same way again, at the same reading of the
      clock; then the resolve is retried. */
  lemma CompletedAgain(f: Faults, s: State) returns (s': State)
    requires Reachable(f, s) && Idle(s) && Settable(f, s)
    requires TheResolution(0) in s.waits && s.waits[TheResolution(0)] == NOW + ONE_SECOND
    ensures Reachable(f, s') && Reaches(f, s, s')
    ensures s'.resolutions == s.resolutions && Holds(s', Done(First(f), GOOD)) && Rested(s', TheResolution(0))
  {
    hide Reachable, Reaches;
    ReachesChain(f);
    var s1 := SecondSet(f, s);
    var s2 := CompletedRun(f, s1, Second(f), GOOD);
    s' := Take(f, s2, Tick(ONE_SECOND));
  }

  lemma ResolveAppliedTwice(f: Faults) returns (s: State, run: seq<Step>, q: Request)
    requires f.lostResolveAcks && !SetOnce(f)
    ensures Reachable(f, s) && Runs(f, s, run) && q.ResolveOf? && Open(s, q) && Applications(f, s, run, q) >= 2
  {
    hide Reachable, Reaches, Runs, Applications, Done, Resolve;
    s := ResolveSentSettable(f);
    q := ResolveOf(0, s.resolutions[0]);
    var s1 := Take(f, s, ResolveReply(0, Timeout(true)));
    var s2 := CompletedAgain(f, s1);
    run := TwoApplications(f, s, ResolveReply(0, Timeout(true)), s2, ResolveReply(0, Answer), q);
  }

  /** A set on its way to the store. */
  lemma SetSentState(f: Faults) returns (s: State)
    ensures Reachable(f, s) && |s.submissions| == 1 && s.submissions[0].phase == Setting && s.waits == map[]
  {
    hide Reachable, Reaches;
    var s0 := Start0(f, "e", 0);
    var s1 := Take(f, s0, Tick(NOW));
    var s2 := Take(f, s1, Submit(NewTask(GUID, 0, "")));
    s := StampRun(f, s2, 0);
  }

  lemma SetAppliedTwice(f: Faults) returns (s: State, run: seq<Step>, q: Request)
    requires f.lostSetAcks
    ensures Reachable(f, s) && Runs(f, s, run) && q.SetOf? && Open(s, q) && Applications(f, s, run, q) >= 2
  {
    hide Reachable, Reaches, Runs, Applications, Write;
    ReachesChain(f);
    s := SetSentState(f);
    q := SetOf(0);
    var s1 := Take(f, s, SetReply(0, Timeout(true)));
    var s2 := Take(f, s1, Tick(ONE_SECOND));
    var s3 := StampRun(f, s2, 0);
    run := TwoApplications(f, s, SetReply(0, Timeout(true)), s3, SetReply(0, Answer), q);
  }

  // ---------- Reports ----------

  /** Corollary: where attempts are applied at most once, the one that is applied is the first.
      A call that succeeds has been applied exactly once, whatever acknowledgements were lost. */
  lemma SuccessAppliedOnce(f: Faults, s: State, run: seq<Step>, step: Step, q: Request)
    requires Reachable(f, s) && Runs(f, s, run) && Open(s, q)
    requires Enabled(f, After(f, s, run), step) && Applied(After(f, s, run), step, q)
    requires NoAckLost(f, q) || (!q.SetOf? && SetOnce(f))
    ensures Applications(f, s, run, q) == 0
  {
    hide Enabled, Apply, Applied, Everything, Open, Reachable;
    ReachableEverything(f, s);
    var s1 := After(f, s, run);
    RunOfOne(f, s1, step);
    assert [step][1..] == [];
    assert Applications(f, Apply(f, s1, step), [], q) == 0;
    assert Applications(f, s1, [step], q) == 1;
    RunsCompose(f, s, run, [step]);
    ApplicationsCompose(f, s, run, [step], q);
    AppliedOnce(f, s, run + [step], q);
  }

  /** The answer that ends the call: anything but a timeout. */
  predicate Ends(f: Faults, s: State, step: Step, q: Request) {
    && Enabled(f, s, step) && Open(s, q)
    && match q
       case SwapOf(i, _) => step.CasReply? && step.i == i && !step.reply.Timeout?
       case ResolveOf(i, _) => step.ResolveReply? && step.i == i && !step.reply.Timeout?
       case SetOf(i) => step.SetReply? && step.i == i && !step.reply.Timeout?
  }

  /** The call returns without an error. */
  predicate Succeeds(s: State, step: Step, q: Request) {
    Applied(s, step, q) && (step.CasReply? || step.ResolveReply? || step.SetReply?) && step.reply.Answer?
  }

  /** What the call reports is what has happened, all attempts counted: one application on
      success, none on an error. */
  ghost predicate ReportsTruly(f: Faults, s: State, run: seq<Step>, step: Step, q: Request)
    requires Runs(f, s, run)
  {
    Ends(f, After(f, s, run), step, q) ==>
      Applications(f, s, run, q) + One(Applied(After(f, s, run), step, q)) == One(Succeeds(After(f, s, run), step, q))
  }

  lemma {:induction false} OpenAppliedNothing(f: Faults, s: State, run: seq<Step>, q: Request)
    requires Everything(f, s) && Runs(f, s, run) && Open(s, q) && Open(After(f, s, run), q) && NoAckLost(f, q)
    ensures Applications(f, s, run, q) == 0
    decreases |run|
  {
    hide Enabled, Apply, Applied;
    if run != [] {
      var s1 := Apply(f, s, run[0]);
      if !q.SetOf? { var cause := OpenIsEdge(s, q); }
      StepKeepsEverything(f, s, run[0]);
      CallsMoveOn(f, s, run[0], q);
      if Applied(s, run[0], q) { AppliedIsSpent(f, s, run[0], q); }
      if Closed(s1, q) {
        StaysClosed(f, s1, run[1..], q);
        assert false;
      }
      OpenAppliedNothing(f, s1, run[1..], q);
    }
  }

  lemma TruthfulReports(f: Faults, s: State, run: seq<Step>, step: Step, q: Request)
    requires Reachable(f, s) && Runs(f, s, run) && Open(s, q)
    requires if q.SwapOf? then TruthfulCas(f) else q.ResolveOf? && TruthfulResolve(f)
    ensures ReportsTruly(f, s, run, step, q)
  {
    hide Reachable, Everything, Runs, After, Apply, Holds;
    ReachableEverything(f, s);
    if Ends(f, After(f, s, run), step, q) {
      if Applied(After(f, s, run), step, q) {
        SuccessAppliedOnce(f, s, run, step, q);
      } else {
        OpenAppliedNothing(f, s, run, q);
      }
    }
  }

  /** Corollary. Swaps report truly, exactly: of a claim, start or completion that succeeds one attempt
      has been applied, and of one that fails none, if and only if no acknowledgement is lost and
      the store has no other failures. */
  lemma SwapsReportTruly(f: Faults)
    ensures (forall s, run, step, q :: Reachable(f, s) && Runs(f, s, run) && Open(s, q) && q.SwapOf? ==>
               ReportsTruly(f, s, run, step, q))
            <==> TruthfulCas(f)
  {
    hide Open, Runs, ReportsTruly;
    if TruthfulCas(f) {
      forall s, run, step, q: Request | Reachable(f, s) && Runs(f, s, run) && q.SwapOf? && Open(s, q)
        ensures ReportsTruly(f, s, run, step, q)
      {
        TruthfulReports(f, s, run, step, q);
      }
    } else {
      var s, run, step, q := SwapMisreported(f);
    }
  }

  /** And the same of resolves. */
  lemma ResolvesReportTruly(f: Faults)
    ensures (forall s, run, step, q :: Reachable(f, s) && Runs(f, s, run) && Open(s, q) && q.ResolveOf? ==>
               ReportsTruly(f, s, run, step, q))
            <==> TruthfulResolve(f)
  {
    hide Open, Runs, ReportsTruly;
    if TruthfulResolve(f) {
      forall s, run, step, q: Request | Reachable(f, s) && Runs(f, s, run) && q.ResolveOf? && Open(s, q)
        ensures ReportsTruly(f, s, run, step, q)
      {
        TruthfulReports(f, s, run, step, q);
      }
    } else {
      var s, run, step, q := ResolveMisreported(f);
    }
  }

  /** An attempt is applied and lost, the next one, a second later, finds another value. */
  lemma LossMisreported(f: Faults, s: State, lost: Step, end: Step, q: Request)
    requires Enabled(f, s, lost) && Applied(s, lost, q)
    requires var s1 := Apply(f, s, lost);
             var s2 := Apply(f, s1, Tick(ONE_SECOND));
             Ends(f, s2, end, q) && !Applied(s1, Tick(ONE_SECOND), q) && !Applied(s2, end, q)
    ensures Runs(f, s, [lost, Tick(ONE_SECOND)]) && !ReportsTruly(f, s, [lost, Tick(ONE_SECOND)], end, q)
  {
    var s1 := Apply(f, s, lost);
    assert Enabled(f, s1, Tick(ONE_SECOND));
    hide Enabled, Apply, Applied, Ends;
    var run := [lost, Tick(ONE_SECOND)];
    assert run[1..] == [Tick(ONE_SECOND)] && run[1..][1..] == [];
    RunOfOne(f, s1, Tick(ONE_SECOND));
    assert Applications(f, s1, [Tick(ONE_SECOND)], q) == 0;
  }

  /** The attempt that is applied reports an error. */
  lemma FailureMisreported(f: Faults, s: State, end: Step, q: Request)
    requires Ends(f, s, end, q) && Applied(s, end, q) && !Succeeds(s, end, q)
    ensures Runs(f, s, []) && !ReportsTruly(f, s, [], end, q)
  {
  }

  /** A claim on its way to the store. */
  lemma ClaimSentState(f: Faults) returns (s: State)
    ensures Reachable(f, s) && |s.works| == 1 && s.works[0].phase == Claiming && Rested(s, TheWork(0))
    ensures var w := s.works[0]; Holds(s, w.original) && w.original.guid == w.task.guid && w.original.state != w.task.state
  {
    hide Reachable, Reaches;
    var s0 := Start0(f, "e", 0);
    var s1 := Take(f, s0, Tick(NOW));
    var s2 := DesireRun(f, s1, NewTask(GUID, 0, ""));
    s := SendClaimRun(f, s2, "e", FirstVersion(NewTask(GUID, 0, ""), NOW));
  }

  lemma SwapMisreported(f: Faults) returns (s: State, run: seq<Step>, step: Step, q: Request)
    requires !TruthfulCas(f)
    ensures Reachable(f, s) && Runs(f, s, run) && q.SwapOf? && Open(s, q) && !ReportsTruly(f, s, run, step, q)
  {
    hide Reachable, Reaches, ReportsTruly, Runs;
    s := ClaimSentState(f);
    q := SwapOf(0, s.works[0]);
    if f.lostCasAcks {
      run, step := [CasReply(0, Timeout(true)), Tick(ONE_SECOND)], CasReply(0, Answer);
      LossMisreported(f, s, run[0], step, q);
    } else {
      run, step := [], CasReply(0, Failure(true));
      FailureMisreported(f, s, step, q);
    }
  }

  lemma CompletedState(f: Faults) returns (s: State, d: Task)
    ensures Reachable(f, s) && s.clock == NOW && s.resolutions == []
    ensures Holds(s, d) && Resolvable(d, NOW)
  {
    hide Reachable, Reaches;
    var k := FirstVersion(NewTask(GUID, 0, ""), NOW);
    var s0 := Start0(f, "e", 0);
    var s1 := Take(f, s0, Tick(NOW));
    var s2 := DesireRun(f, s1, NewTask(GUID, 0, ""));
    s := CompletedRun(f, s2, k, GOOD);
    d := Done(k, GOOD);
  }

  lemma ResolveSentState(f: Faults) returns (s: State)
    ensures Reachable(f, s) && |s.resolutions| == 1 && s.resolutions[0].phase == ResolveSent
    ensures Rested(s, TheResolution(0))
    ensures var x := s.resolutions[0];
            Holds(s, x.original) && x.original.guid == x.task.guid && x.original.state != x.task.state
  {
    hide Reachable, Reaches;
    var s0, d := CompletedState(f);
    s := SendResolveRun(f, s0, d);
  }

  lemma ResolveMisreported(f: Faults) returns (s: State, run: seq<Step>, step: Step, q: Request)
    requires !TruthfulResolve(f)
    ensures Reachable(f, s) && Runs(f, s, run) && q.ResolveOf? && Open(s, q) && !ReportsTruly(f, s, run, step, q)
  {
    hide Reachable, Reaches, ReportsTruly, Runs;
    s := ResolveSentState(f);
    q := ResolveOf(0, s.resolutions[0]);
    if f.lostResolveAcks {
      run, step := [ResolveReply(0, Timeout(true)), Tick(ONE_SECOND)], ResolveReply(0, Answer);
      LossMisreported(f, s, run[0], step, q);
    } else {
      run, step := [], ResolveReply(0, Failure(true));
      FailureMisreported(f, s, step, q);
    }
  }
}
