/**
What stagers publish. Publishes are paid for by resolves under any faults; while each key is
set once, every history has a single desire and only finished tasks are deleted.
*/
module Replies {
  import opened Models
  import opened Lifecycle
  import opened Protocol
  import opened Invariants
  import opened Preservation
  import opened Capacity

  // ---------- Publishes are resolves ----------

  function PublishedFor(published: seq<Task>, g: string): int {
    Total(seq(|published|, i requires 0 <= i < |published| => One(published[i].guid == g)))
  }

  /** A won resolve whose reply is still to be published. */
  function Owed(x: Resolution, g: string): int {
    One(x.phase == Publishing && x.task.guid == g)
  }

  function OwedFor(resolutions: seq<Resolution>, g: string): int {
    Total(seq(|resolutions|, i requires 0 <= i < |resolutions| => Owed(resolutions[i], g)))
  }

  lemma OwedPut(xs: seq<Resolution>, i: nat, x: Resolution, g: string)
    requires i <= |xs|
    ensures OwedFor(Put(xs, i, x), g) == OwedFor(xs, g) + Owed(x, g) - if i < |xs| then Owed(xs[i], g) else 0
  {
    var ws := seq(|xs|, k requires 0 <= k < |xs| => Owed(xs[k], g));
    var ys := Put(xs, i, x);
    var vs := seq(|ys|, k requires 0 <= k < |ys| => Owed(ys[k], g));
    if i < |xs| {
      assert vs == ws[i := Owed(x, g)];
      TotalUpdate(ws, i, Owed(x, g));
    } else {
      assert vs == ws + [Owed(x, g)];
      TotalAppend(ws, Owed(x, g));
    }
  }

  lemma PublishedAppend(published: seq<Task>, t: Task, g: string)
    ensures PublishedFor(published + [t], g) == PublishedFor(published, g) + One(t.guid == g)
  {
    var ws := seq(|published|, i requires 0 <= i < |published| => One(published[i].guid == g));
    var ps := published + [t];
    assert seq(|ps|, i requires 0 <= i < |ps| => One(ps[i].guid == g)) == ws + [One(t.guid == g)];
    TotalAppend(ws, One(t.guid == g));
  }

  ghost predicate PublishInv(s: State) {
    forall g :: PublishedFor(s.published, g) + OwedFor(s.resolutions, g) <= Resolves(HistoryOf(s, g))
  }

  lemma ResolvesGrow(h: History, h': History)
    requires h <= h'
    ensures Resolves(h) <= Resolves(h')
    decreases |h'|
  {
    if h != h' {
      var p := h'[..|h'| - 1];
      assert h <= p;
      ResolvesGrow(h, p);
    }
  }

  /** A resolution that does not move into `Publishing` owes nothing new. */
  lemma SettledKeepsPublish(s: State, s': State, i: nat, x: Resolution)
    requires PublishInv(s) && Grows(s, s') && i <= |s.resolutions| && x.phase != Publishing
    requires s'.published == s.published && s'.resolutions == Put(s.resolutions, i, x)
    ensures PublishInv(s')
  {
    forall g ensures PublishedFor(s'.published, g) + OwedFor(s'.resolutions, g) <= Resolves(HistoryOf(s', g)) {
      OwedPut(s.resolutions, i, x, g);
      ResolvesGrow(HistoryOf(s, g), HistoryOf(s', g));
    }
  }

  lemma ResolveKeepsPublish(s: State, i: nat, r: Reply)
    requires Inv(s) && PublishInv(s) && i < |s.resolutions| && s.resolutions[i].phase == ResolveSent
    ensures PublishInv(AfterResolve(s, i, r))
  {
    var x := s.resolutions[i];
    assert ResolutionOk(s, x);
    ResolveKeeps(s, i, r);
    if r.Answer? && Holds(s, x.original) {
      WonResolveKeepsPublish(s, i);
    } else {
      assert s.resolutions[i := x] == s.resolutions;
      SettledKeepsPublish(s, AfterResolve(s, i, r), i, AfterResolve(s, i, r).resolutions[i]);
    }
  }

  lemma WonResolveKeepsPublish(s: State, i: nat)
    requires PublishInv(s) && i < |s.resolutions| && Holds(s, s.resolutions[i].original)
    requires s.resolutions[i].phase == ResolveSent && s.resolutions[i].task.guid == s.resolutions[i].original.guid
    ensures PublishInv(AfterResolve(s, i, Answer))
  {
    var s', x := AfterResolve(s, i, Answer), s.resolutions[i];
    forall g ensures PublishedFor(s'.published, g) + OwedFor(s'.resolutions, g) <= Resolves(HistoryOf(s', g)) {
      hide PublishedFor, OwedFor, Resolves;
      OwedPut(s.resolutions, i, s'.resolutions[i], g);
      ResolvesAppend(HistoryOf(s, g), Entry(ResolveTaken, x.task));
    }
  }

  lemma ResolvesAppend(h: History, e: Entry)
    ensures Resolves(h + [e]) == Resolves(h) + One(e.cause.ResolveTaken?)
  {
    assert (h + [e])[..|h|] == h;
  }

  lemma PublishKeepsPublish(s: State, i: nat, ok: bool)
    requires PublishInv(s) && i < |s.resolutions| && s.resolutions[i].phase == Publishing
    ensures PublishInv(AfterPublish(s, i, ok))
  {
    var s' := AfterPublish(s, i, ok);
    forall g ensures PublishedFor(s'.published, g) + OwedFor(s'.resolutions, g) <= Resolves(HistoryOf(s', g)) {
      OwedPut(s.resolutions, i, s'.resolutions[i], g);
      PublishedAppend(s.published, s.resolutions[i].task, g);
    }
  }

  predicate OfResolutions(step: Step) {
    step.Accept? || step.SendResolve? || step.ResolveReply? || step.Publish? || step.DeleteReply?
  }

  lemma ResolutionsUntouched(f: Faults, s: State, step: Step)
    requires Enabled(f, s, step) && !OfResolutions(step)
    ensures Apply(f, s, step).resolutions == s.resolutions && Apply(f, s, step).published == s.published
  {
    if OfExecutors(step) {
      ExecutorsLeaveResolutions(f, s, step);
    }
  }

  lemma ExecutorsLeaveResolutions(f: Faults, s: State, step: Step)
    requires Enabled(f, s, step) && OfExecutors(step)
    ensures Apply(f, s, step).resolutions == s.resolutions && Apply(f, s, step).published == s.published
  {
    hide Sent, AfterCas;
    if step.CasReply? {
      CasLeavesRest(s, step.i, step.reply);
    }
  }

  lemma UntouchedKeepsPublish(s: State, s': State)
    requires PublishInv(s) && Grows(s, s') && s'.published == s.published && s'.resolutions == s.resolutions
    ensures PublishInv(s')
  {
    forall g ensures PublishedFor(s'.published, g) + OwedFor(s'.resolutions, g) <= Resolves(HistoryOf(s', g)) {
      ResolvesGrow(HistoryOf(s, g), HistoryOf(s', g));
    }
  }

  lemma DeleteKeepsPublish(s: State, i: nat, r: Reply)
    requires Inv(s) && PublishInv(s) && i < |s.resolutions| && s.resolutions[i].phase == Deleting
    ensures PublishInv(AfterDelete(s, i, r))
  {
    var s' := AfterDelete(s, i, r);
    assert s.resolutions[i := s.resolutions[i]] == s.resolutions;
    DeleteKeeps(s, i, r);
    SettledKeepsPublish(s, s', i, s'.resolutions[i]);
  }

  lemma StepKeepsPublish(f: Faults, s: State, step: Step)
    requires Inv(s) && PublishInv(s) && Enabled(f, s, step)
    ensures PublishInv(Apply(f, s, step))
  {
    hide Inv, PublishInv, Grows;
    if !OfResolutions(step) {
      StepKeeps(f, s, step);
      ResolutionsUntouched(f, s, step);
      UntouchedKeepsPublish(s, Apply(f, s, step));
    } else {
      match step
      case Accept(t) =>
        AcceptKeeps(s, t);
        SettledKeepsPublish(s, AfterAccept(s, t), |s.resolutions|, Resolution(Received, t, t));
      case SendResolve(i) =>
        SendResolveKeeps(s, i);
        SettledKeepsPublish(s, AfterSendResolve(s, i), i, AfterSendResolve(s, i).resolutions[i]);
      case ResolveReply(i, r) => ResolveKeepsPublish(s, i, r);
      case Publish(i, ok) => PublishKeepsPublish(s, i, ok);
      case DeleteReply(i, r) => DeleteKeepsPublish(s, i, r);
    }
  }

  // ---------- One desire per key ----------

  predicate Open(x: Submission) {
    x.phase != Submitted
  }

  ghost predicate OnceFor(s: State, g: string) {
    DesiredOnce(HistoryOf(s, g)) && (HistoryOf(s, g) != [] ==> g in s.used)
  }

  /** A submission that may still set its key is the only one, and has not set it yet. */
  ghost predicate OpenOnce(s: State) {
    && (forall i :: 0 <= i < |s.submissions| && Open(s.submissions[i]) ==> HistoryOf(s, s.submissions[i].task.guid) == [])
    && (forall i, j :: 0 <= i < j < |s.submissions| && Open(s.submissions[i]) && Open(s.submissions[j]) ==>
          s.submissions[i].task.guid != s.submissions[j].task.guid)
  }

  ghost predicate OnceInv(s: State) {
    (forall g :: OnceFor(s, g)) && OpenOnce(s)
  }

  lemma SetKeepsOnce(s: State, i: nat, r: Reply)
    requires Inv(s) && OnceInv(s) && i < |s.submissions| && s.submissions[i].phase == Setting
    requires r.Timeout? ==> !r.applied
    ensures OnceInv(AfterSet(s, i, r))
  {
    var s' := AfterSet(s, i, r);
    assert SubmissionOk(s, s.submissions[i]);
    assert Open(s.submissions[i]);
    forall g ensures OnceFor(s', g) {
      assert OnceFor(s, g);
    }
  }

  lemma SubmitKeepsOnce(s: State, t: Task)
    requires Inv(s) && OnceInv(s) && t.guid !in s.used
    ensures OnceInv(AfterSubmit(s, t))
  {
    var s' := AfterSubmit(s, t);
    forall i | 0 <= i < |s.submissions| ensures s.submissions[i].task.guid != t.guid {
      assert SubmissionOk(s, s.submissions[i]);
    }
    assert OnceFor(s, t.guid);
    forall g ensures OnceFor(s', g) {
      assert OnceFor(s, g);
    }
  }

  lemma StampsKeepOnce(s: State, i: nat)
    requires OnceInv(s) && i < |s.submissions| && Open(s.submissions[i])
    ensures OnceInv(AfterCreate(s, i)) && OnceInv(AfterStamp(s, i))
  {
    forall g ensures OnceFor(AfterCreate(s, i), g) && OnceFor(AfterStamp(s, i), g) {
      assert OnceFor(s, g);
    }
  }

  /** `h'` is `h`, or `h` with one more write that is neither a desire nor the first. */
  ghost predicate LaterWrite(h: History, h': History) {
    h' == h || (0 < |h| && |h'| == |h| + 1 && h <= h' && !h'[|h|].cause.Desired?)
  }

  ghost predicate LaterWrites(s: State, s': State) {
    && s'.submissions == s.submissions && s'.used == s.used
    && forall g :: LaterWrite(HistoryOf(s, g), HistoryOf(s', g))
  }

  lemma LaterWritesKeepOnce(s: State, s': State)
    requires OnceInv(s) && LaterWrites(s, s')
    ensures OnceInv(s')
  {
    forall g ensures OnceFor(s', g) {
      assert OnceFor(s, g);
      assert LaterWrite(HistoryOf(s, g), HistoryOf(s', g));
    }
    forall i | 0 <= i < |s.submissions| && Open(s.submissions[i])
      ensures HistoryOf(s', s.submissions[i].task.guid) == []
    {
      assert LaterWrite(HistoryOf(s, s.submissions[i].task.guid), HistoryOf(s', s.submissions[i].task.guid));
    }
  }

  lemma SwapIsLater(s: State, s': State, old': Task, cause: Cause, new': Task)
    requires StoreInv(s) && Edge(cause, old', new')
    requires s'.submissions == s.submissions && s'.used == s.used
    requires s'.history == s.history || s'.history == CompareAndSwap(s, old', cause, new').history
    ensures LaterWrites(s, s')
  {
    assert HistoryInv(s, old'.guid);
  }

  lemma CasIsLater(s: State, i: nat, r: Reply)
    requires Inv(s) && i < |s.works| && InFlight(s.works[i].phase)
    ensures LaterWrites(s, AfterCas(s, i, r))
  {
    var w := s.works[i];
    assert WorkOk(s, w);
    SwapIsLater(s, AfterCas(s, i, r), w.original, CauseOf(w.phase), w.task);
  }

  lemma ResolveIsLater(s: State, i: nat, r: Reply)
    requires Inv(s) && i < |s.resolutions| && s.resolutions[i].phase == ResolveSent
    ensures LaterWrites(s, AfterResolve(s, i, r))
  {
    var x := s.resolutions[i];
    assert ResolutionOk(s, x);
    SwapIsLater(s, AfterResolve(s, i, r), x.original, ResolveTaken, x.task);
  }

  lemma PassSwapIsLater(s: State, i: nat, g: string, applied: bool)
    requires Inv(s) && i < |s.passes| && g in s.passes[i].sent && g in s.passes[i].snapshot
    ensures LaterWrites(s, AfterSwap(s, i, g, applied))
  {
    var p := s.passes[i];
    assert PassOk(s, p);
    SwapIsLater(s, AfterSwap(s, i, g, applied), p.snapshot[g], p.sent[g].cause, p.sent[g].task);
  }

  lemma DeleteIsLater(s: State, i: nat, r: Reply)
    requires StoreInv(s) && i < |s.resolutions|
    ensures LaterWrites(s, AfterDelete(s, i, r))
  {
    assert HistoryInv(s, s.resolutions[i].task.guid);
  }

  predicate OfSubmissions(step: Step) {
    step.Submit? || step.StampCreated? || step.StampDesire? || step.SetReply?
  }

  lemma SubmissionsUntouched(f: Faults, s: State, step: Step)
    requires Enabled(f, s, step) && !OfSubmissions(step)
    ensures Apply(f, s, step).submissions == s.submissions && Apply(f, s, step).used == s.used
  {
    if OfExecutors(step) {
      ExecutorsLeaveSubmissions(f, s, step);
    } else if OfStore(step) {
      RepliesLeaveSubmissions(f, s, step);
    }
  }

  lemma ExecutorsLeaveSubmissions(f: Faults, s: State, step: Step)
    requires Enabled(f, s, step) && OfExecutors(step)
    ensures Apply(f, s, step).submissions == s.submissions && Apply(f, s, step).used == s.used
  {
    hide Sent, AfterCas;
    if step.CasReply? {
      CasLeavesRest(s, step.i, step.reply);
    }
  }

  lemma RepliesLeaveSubmissions(f: Faults, s: State, step: Step)
    requires Enabled(f, s, step) && OfStore(step) && !OfSubmissions(step)
    ensures Apply(f, s, step).submissions == s.submissions && Apply(f, s, step).used == s.used
  {
    hide AfterCas, AfterResolve, AfterDelete, AfterSwap;
    match step
    case CasReply(i, r) => AnswersLeaveSubmissions(s, i, r);
    case ResolveReply(i, r) => AnswersLeaveSubmissions(s, i, r);
    case DeleteReply(i, r) => AnswersLeaveSubmissions(s, i, r);
    case SwapReply(i, g, applied) => SwapsLeaveSubmissions(s, i, g, applied);
  }

  predicate SameSubmissions(s: State, s': State) {
    s'.submissions == s.submissions && s'.used == s.used
  }

  lemma AnswersLeaveSubmissions(s: State, i: nat, r: Reply)
    ensures i < |s.works| && InFlight(s.works[i].phase) ==> SameSubmissions(s, AfterCas(s, i, r))
    ensures i < |s.resolutions| ==>
              SameSubmissions(s, AfterResolve(s, i, r)) && SameSubmissions(s, AfterDelete(s, i, r))
  {
  }

  lemma SwapsLeaveSubmissions(s: State, i: nat, g: string, applied: bool)
    requires i < |s.passes| && g in s.passes[i].sent && g in s.passes[i].snapshot
    ensures SameSubmissions(s, AfterSwap(s, i, g, applied))
  {
  }

  /** Whatever is not a submission's step writes no desire, and nothing to an unused key. */
  lemma OthersWriteLater(f: Faults, s: State, step: Step)
    requires Inv(s) && Enabled(f, s, step) && !OfSubmissions(step)
    ensures LaterWrites(s, Apply(f, s, step))
  {
    if !OfStore(step) {
      StoreUntouched(f, s, step);
      SubmissionsUntouched(f, s, step);
    } else {
      match step
      case CasReply(i, r) => CasIsLater(s, i, r);
      case ResolveReply(i, r) => ResolveIsLater(s, i, r);
      case SwapReply(i, g, applied) => PassSwapIsLater(s, i, g, applied);
      case DeleteReply(i, r) => DeleteIsLater(s, i, r);
    }
  }

  lemma StepKeepsOnce(f: Faults, s: State, step: Step)
    requires Inv(s) && OnceInv(s) && Enabled(f, s, step) && SetOnce(f)
    ensures OnceInv(Apply(f, s, step))
  {
    if !OfSubmissions(step) {
      OthersWriteLater(f, s, step);
      LaterWritesKeepOnce(s, Apply(f, s, step));
    } else {
      match step
      case Submit(t) => SubmitKeepsOnce(s, t);
      case StampCreated(i) => StampsKeepOnce(s, i);
      case StampDesire(i) => StampsKeepOnce(s, i);
      case SetReply(i, r) => SetKeepsOnce(s, i, r);
    }
  }

  // ---------- Only finished tasks are deleted ----------

  ghost predicate DeletedFinished(h: History) {
    forall i :: 0 <= i < |h| && h[i].cause == Deleted ==> Finished(h[i].task)
  }

  /** Of a key that was set once only a finished task is deleted. */
  ghost predicate DeleteInv(s: State) {
    forall g :: DesiredOnce(HistoryOf(s, g)) ==> DeletedFinished(HistoryOf(s, g))
  }

  /** Once some version was finished, the stored one is. */
  lemma StaysFinished(s: State, t: Task)
    requires Inv(s) && DesiredOnce(HistoryOf(s, t.guid)) && Written(s, t) && Finished(t) && t.guid in s.store
    ensures Finished(s.store[t.guid]) && OutcomeOf(s.store[t.guid]) == OutcomeOf(t)
  {
    var h := HistoryOf(s, t.guid);
    assert HistoryInv(s, t.guid);
    var i :| 0 <= i < |h| && h[i].task == t;
    if i < |h| - 1 {
      LaterVersions(h, i, |h| - 1);
    }
  }

  lemma OnceBefore(h: History, h': History)
    requires h <= h' && DesiredOnce(h')
    ensures DesiredOnce(h)
  {
    assert forall i :: 0 < i < |h| ==> h[i] == h'[i];
  }

  lemma DeleteKeepsDelete(s: State, i: nat, r: Reply)
    requires Inv(s) && DeleteInv(s) && i < |s.resolutions| && s.resolutions[i].phase == Deleting
    ensures DeleteInv(AfterDelete(s, i, r))
  {
    var s', t := AfterDelete(s, i, r), s.resolutions[i].task;
    assert ResolutionOk(s, s.resolutions[i]);
    forall g | DesiredOnce(HistoryOf(s', g)) ensures DeletedFinished(HistoryOf(s', g)) {
      OnceBefore(HistoryOf(s, g), HistoryOf(s', g));
      if g == t.guid && g in s.store {
        StaysFinished(s, t);
      }
    }
  }

  lemma WriteKeepsDelete(s: State, s': State, cause: Cause, t: Task)
    requires DeleteInv(s) && cause != Deleted
    requires s'.history == s.history || s'.history == Write(s, cause, t).history
    ensures DeleteInv(s')
  {
    forall g | DesiredOnce(HistoryOf(s', g)) ensures DeletedFinished(HistoryOf(s', g)) {
      OnceBefore(HistoryOf(s, g), HistoryOf(s', g));
    }
  }

  lemma CasKeepsDelete(s: State, i: nat, r: Reply)
    requires DeleteInv(s) && i < |s.works| && InFlight(s.works[i].phase)
    ensures DeleteInv(AfterCas(s, i, r))
  {
    hide DeleteInv;
    WriteKeepsDelete(s, AfterCas(s, i, r), CauseOf(s.works[i].phase), s.works[i].task);
  }

  lemma ResolveKeepsDelete(s: State, i: nat, r: Reply)
    requires DeleteInv(s) && i < |s.resolutions|
    ensures DeleteInv(AfterResolve(s, i, r))
  {
    hide DeleteInv;
    WriteKeepsDelete(s, AfterResolve(s, i, r), ResolveTaken, s.resolutions[i].task);
  }

  lemma SetKeepsDelete(s: State, i: nat, r: Reply)
    requires DeleteInv(s) && i < |s.submissions|
    ensures DeleteInv(AfterSet(s, i, r))
  {
    hide DeleteInv;
    WriteKeepsDelete(s, AfterSet(s, i, r), Desired, s.submissions[i].task);
  }

  lemma SwapKeepsDelete(s: State, i: nat, g: string, applied: bool)
    requires Inv(s) && DeleteInv(s) && i < |s.passes| && g in s.passes[i].sent && g in s.passes[i].snapshot
    ensures DeleteInv(AfterSwap(s, i, g, applied))
  {
    hide DeleteInv;
    assert PassOk(s, s.passes[i]);
    WriteKeepsDelete(s, AfterSwap(s, i, g, applied), s.passes[i].sent[g].cause, s.passes[i].sent[g].task);
  }

  lemma SameHistoryKeepsDelete(s: State, s': State)
    requires DeleteInv(s) && s'.history == s.history
    ensures DeleteInv(s')
  {
    forall g ensures HistoryOf(s', g) == HistoryOf(s, g) {
    }
  }

  lemma StepKeepsDelete(f: Faults, s: State, step: Step)
    requires Inv(s) && DeleteInv(s) && Enabled(f, s, step)
    ensures DeleteInv(Apply(f, s, step))
  {
    hide Inv, DeleteInv;
    if !OfStore(step) {
      StoreUntouched(f, s, step);
      SameHistoryKeepsDelete(s, Apply(f, s, step));
    } else {
      match step
      case SetReply(i, r) => SetKeepsDelete(s, i, r);
      case CasReply(i, r) => CasKeepsDelete(s, i, r);
      case ResolveReply(i, r) => ResolveKeepsDelete(s, i, r);
      case SwapReply(i, g, applied) => SwapKeepsDelete(s, i, g, applied);
      case DeleteReply(i, r) => DeleteKeepsDelete(s, i, r);
    }
  }
}
