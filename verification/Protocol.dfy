/**
The run-once protocol as a labelled transition system. Stagers, executors and converge
passes share one store; everything they do to it goes through whole-value operations.
All nondeterminism (scheduling, message delivery, timeouts, crashes, the clock) is in the
label of the step, so a run is a sequence of labels.
*/
module Protocol {
  import opened Models
  import opened Lifecycle

  type ExecutorId = string

  // ---------- State ----------

  /** How the store answers a request. `Answer` is truthful; the other two report an error,
      which on a real network may hide that the operation was applied. */
  datatype Reply = Answer | Timeout(applied: bool) | Failure(applied: bool)

  /** A call of DesireTask in a stager. */
  datatype Submission = Submission(phase: SubmissionPhase, task: Task)
  datatype SubmissionPhase = Unstamped | Created | Setting | Submitted

  /** A kick being handled by an executor, from its memory reservation to the release.
      `task` is the local copy, assigned in place; `original` is the value the request in
      flight compares the store with. */
  datatype Work = Work(owner: ExecutorId, phase: WorkPhase, task: Task, original: Task)
  datatype WorkPhase = Reserved | Claiming | Holding | Starting | Executing | Completing | Releasing | WorkOver

  /** A kick being handled by a stager. */
  datatype Resolution = Resolution(phase: ResolutionPhase, task: Task, original: Task)
  datatype ResolutionPhase = Received | ResolveSent | Publishing | Deleting | ResolutionOver

  /** A converge pass: the task listing, then the executor listing, then the scan, then the swaps. */
  datatype Pass = Pass(
    stage: PassStage,
    snapshot: map<string, Task>,
    alive: set<ExecutorId>,
    timeToClaim: int,
    boundary: int,
    todo: set<string>,
    planned: map<string, Plan>,
    sent: map<string, Plan>)
  datatype PassStage = TasksListed | ExecutorsListed | Scanning
  datatype Plan = Plan(cause: Cause, task: Task)

  /** What one call keeps in the state. */
  datatype Record = TheSubmission(i: nat) | TheWork(i: nat) | TheResolution(i: nat) | ThePass(i: nat)

  /** `store` is what etcd holds; `history` records every write of each key and is what the
      properties speak of. An executor is in `memory` (its capacity) once its process has started,
      in `announced` once its presence node has been there, in `present` while it is there, in
      `running` until the process ends. `late` records who took a kick before being announced.
      A call that has seen a timeout sleeps; `waits` says until when. */
  datatype State = State(
    clock: int,
    store: map<string, Task>,
    history: map<string, History>,
    memory: map<ExecutorId, nat>,
    free: map<ExecutorId, int>,
    announced: set<ExecutorId>,
    present: set<ExecutorId>,
    late: set<ExecutorId>,
    running: set<ExecutorId>,
    desireKicks: set<Task>,
    completeKicks: set<Task>,
    used: set<string>,
    submissions: seq<Submission>,
    works: seq<Work>,
    resolutions: seq<Resolution>,
    published: seq<Task>,
    passes: seq<Pass>,
    waits: map<Record, int>)

  const INITIAL := State(0, map[], map[], map[], map[], {}, {}, {}, {}, {}, {}, {}, [], [], [], [], [], map[])

  /** Which faults of the environment are possible: an executor's swap, a stager's resolve or a
      stager's set that was applied and reports a timeout; a swap or a resolve that reports some
      other error, applied or not; a guid used for a second task; an executor that takes kicks
      before its presence is there. */
  datatype Faults = Faults(
    lostCasAcks: bool,
    casFailures: bool,
    lostResolveAcks: bool,
    resolveFailures: bool,
    lostSetAcks: bool,
    guidsReused: bool,
    latePresence: bool)

  /** The executors' compare-and-swap reports what it did. */
  predicate TruthfulCas(f: Faults) {
    !f.lostCasAcks && !f.casFailures
  }

  /** And so does the stagers'. */
  predicate TruthfulResolve(f: Faults) {
    !f.lostResolveAcks && !f.resolveFailures
  }

  /** Guids are not reused and a set that was applied is not retried. */
  predicate SetOnce(f: Faults) {
    !f.lostSetAcks && !f.guidsReused
  }

  // ---------- The store ----------

  function HistoryOf(s: State, g: string): History {
    if g in s.history then s.history[g] else []
  }

  predicate Holds(s: State, t: Task) {
    t.guid in s.store && s.store[t.guid] == t
  }

  function Write(s: State, cause: Cause, t: Task): (s': State)
    ensures s' == s.(store := s'.store, history := s'.history)
  {
    s.(store := s.store[t.guid := t],
       history := s.history[t.guid := HistoryOf(s, t.guid) + [Entry(cause, t)]])
  }

  function CompareAndSwap(s: State, old': Task, cause: Cause, new': Task): (s': State)
    ensures s' == s.(store := s'.store, history := s'.history)
  {
    if Holds(s, old') then Write(s, cause, new') else s
  }

  function Remove(s: State, g: string): (s': State)
    ensures s' == s.(store := s'.store, history := s'.history)
  {
    if g !in s.store then s else
      s.(store := s.store - {g},
         history := s.history[g := HistoryOf(s, g) + [Entry(Deleted, s.store[g])]])
  }

  // ---------- Sleeping ----------

  /** The call is not asleep. */
  predicate Rested(s: State, r: Record) {
    r in s.waits ==> s.waits[r] <= s.clock
  }

  /** After a timeout the call sleeps for a second before the next attempt. */
  function AfterTimeout(s: State, r: Record): State {
    s.(waits := s.waits[r := s.clock + ONE_SECOND])
  }

  // ---------- Steps ----------

  datatype Step =
    | Tick(d: nat)
    | Boot(executor: ExecutorId, capacity: nat)
    | Announce(executor: ExecutorId)
    | Expire(executor: ExecutorId)
    | Crash(executor: ExecutorId, lost: set<nat>)
    | Submit(task: Task)
    | StampCreated(i: nat)
    | StampDesire(i: nat)
    | SetReply(i: nat, reply: Reply)
    | Receive(executor: ExecutorId, kick: Task)
    | Send(i: nat, handle: string, outcome: Outcome)
    | CasReply(i: nat, reply: Reply)
    | Release(i: nat)
    | Accept(kick: Task)
    | SendResolve(i: nat)
    | ResolveReply(i: nat, reply: Reply)
    | Publish(i: nat, ok: bool)
    | DeleteReply(i: nat, reply: Reply)
    | ListTasks
    | ListExecutors(i: nat)
    | ReadBoundary(i: nat, timeToClaim: int)
    | Examine(i: nat, guid: string)
    | StampSwap(i: nat, guid: string)
    | SwapReply(i: nat, guid: string, applied: bool)

  predicate InFlight(p: WorkPhase) {
    p in {Claiming, Starting, Completing}
  }

  /** The value the next or pending compare-and-swap of this work expects to find. */
  function Expected(w: Work): Task {
    if InFlight(w.phase) then w.original else w.task
  }

  function CauseOf(p: WorkPhase): Cause
    requires InFlight(p)
  {
    match p case Claiming => ClaimTaken case Starting => RunStarted case Completing => RunFinished
  }

  function AfterSuccess(p: WorkPhase): WorkPhase
    requires InFlight(p)
  {
    match p case Claiming => Holding case Starting => Executing case Completing => Releasing
  }

  predicate Enabled(f: Faults, s: State, step: Step) {
    match step
    case Tick(_) => true
    case Boot(e, _) => e != "" && e !in s.memory
    case Announce(e) => e in s.memory && e !in s.announced
    case Expire(e) => e in s.present
    case Crash(e, lost) => e in s.running && forall i :: i in lost ==> i < |s.works| && s.works[i].owner == e
    case Submit(t) =>
      && t.executorId == "" && t.containerHandle == "" && t.createdAt <= s.clock && 0 <= t.memoryMB
      && Encodable(t) && (t.guid in s.used ==> f.guidsReused)
    case StampCreated(i) => i < |s.submissions| && s.submissions[i].phase == Unstamped && Rested(s, TheSubmission(i))
    case StampDesire(i) => i < |s.submissions| && s.submissions[i].phase == Created
    case SetReply(i, r) =>
      && i < |s.submissions| && s.submissions[i].phase == Setting
      && (r.Timeout? && r.applied ==> f.lostSetAcks)
    case Receive(e, t) =>
      && e in s.running && e in s.free && Claimable(t, s.clock) && t.memoryMB <= s.free[e]
      && (e in s.announced || f.latePresence)
    case Send(i, _, _) =>
      && i < |s.works| && s.works[i].phase in {Reserved, Holding, Executing} && s.works[i].owner in s.running
    case CasReply(i, r) =>
      && i < |s.works| && InFlight(s.works[i].phase) && Rested(s, TheWork(i))
      && (r.Timeout? && r.applied ==> f.lostCasAcks) && (r.Failure? ==> f.casFailures)
    case Release(i) =>
      && i < |s.works| && s.works[i].phase == Releasing && s.works[i].owner in s.running
      && s.works[i].owner in s.free
    case Accept(t) => Resolvable(t, s.clock)
    case SendResolve(i) => i < |s.resolutions| && s.resolutions[i].phase == Received
    case ResolveReply(i, r) =>
      && i < |s.resolutions| && s.resolutions[i].phase == ResolveSent && Rested(s, TheResolution(i))
      && (r.Timeout? && r.applied ==> f.lostResolveAcks) && (r.Failure? ==> f.resolveFailures)
    case Publish(i, _) => i < |s.resolutions| && s.resolutions[i].phase == Publishing
    case DeleteReply(i, _) => i < |s.resolutions| && s.resolutions[i].phase == Deleting && Rested(s, TheResolution(i))
    case ListTasks => true
    case ListExecutors(i) => i < |s.passes| && s.passes[i].stage == TasksListed
    case ReadBoundary(i, _) => i < |s.passes| && s.passes[i].stage == ExecutorsListed
    case Examine(i, g) =>
      && i < |s.passes| && s.passes[i].stage == Scanning && g in s.passes[i].todo && g in s.passes[i].snapshot
    case StampSwap(i, g) =>
      i < |s.passes| && s.passes[i].stage == Scanning && s.passes[i].todo == {} && g in s.passes[i].planned
    case SwapReply(i, g, _) =>
      && i < |s.passes| && s.passes[i].stage == Scanning && g in s.passes[i].sent && g in s.passes[i].snapshot
  }

  function Apply(f: Faults, s: State, step: Step): State
    requires Enabled(f, s, step)
  {
    match step
    case Tick(d) => s.(clock := s.clock + d)
    case Boot(e, m) => AfterBoot(s, e, m)
    case Announce(e) => AfterAnnounce(s, e)
    case Expire(e) => s.(present := s.present - {e})
    case Crash(e, lost) => AfterCrash(s, e, lost)
    case Submit(t) => AfterSubmit(s, t)
    case StampCreated(i) => AfterCreate(s, i)
    case StampDesire(i) => AfterStamp(s, i)
    case SetReply(i, r) => AfterSet(s, i, r)
    case Receive(e, t) => AfterReceive(s, e, t)
    case Send(i, handle, o) => AfterSend(s, i, handle, o)
    case CasReply(i, r) => AfterCas(s, i, r)
    case Release(i) => AfterRelease(s, i)
    case Accept(t) => AfterAccept(s, t)
    case SendResolve(i) => AfterSendResolve(s, i)
    case ResolveReply(i, r) => AfterResolve(s, i, r)
    case Publish(i, ok) => AfterPublish(s, i, ok)
    case DeleteReply(i, r) => AfterDelete(s, i, r)
    case ListTasks => AfterListTasks(s)
    case ListExecutors(i) => AfterListExecutors(s, i)
    case ReadBoundary(i, ttc) => AfterReadBoundary(s, i, ttc)
    case Examine(i, g) => AfterExamine(s, i, g)
    case StampSwap(i, g) => AfterStampSwap(s, i, g)
    case SwapReply(i, g, applied) => AfterSwap(s, i, g, applied)
  }

  function AfterBoot(s: State, e: ExecutorId, m: nat): State {
    s.(memory := s.memory[e := m], free := s.free[e := m], running := s.running + {e})
  }

  /** The presence node appears, for the first and only time. */
  function AfterAnnounce(s: State, e: ExecutorId): State {
    s.(announced := s.announced + {e}, present := s.present + {e})
  }

  /** The process ends. Of its goroutines some are lost; a request of another may still be
      on its way to the store. */
  function AfterCrash(s: State, e: ExecutorId, lost: set<nat>): State {
    s.(running := s.running - {e},
       works := seq(|s.works|, i requires 0 <= i < |s.works| =>
                  if i in lost then s.works[i].(phase := WorkOver) else s.works[i]))
  }

  function AfterSubmit(s: State, t: Task): State {
    s.(used := s.used + {t.guid}, submissions := s.submissions + [Submission(Unstamped, t)])
  }

  function AfterCreate(s: State, i: nat): State
    requires i < |s.submissions|
  {
    s.(submissions := s.submissions[i := Submission(Created, Create(s.submissions[i].task, s.clock))])
  }

  function AfterStamp(s: State, i: nat): State
    requires i < |s.submissions|
  {
    s.(submissions := s.submissions[i := Submission(Setting, Desire(s.submissions[i].task, s.clock))])
  }

  /** SetMulti is unconditional, a timeout is retried with new stamps a second later, success is kicked. */
  function AfterSet(s: State, i: nat, r: Reply): State
    requires i < |s.submissions|
  {
    var x := s.submissions[i];
    match r
    case Answer =>
      Write(s, Desired, x.task).(desireKicks := s.desireKicks + {x.task},
                                 submissions := s.submissions[i := x.(phase := Submitted)])
    case Timeout(applied) =>
      AfterTimeout((if applied then Write(s, Desired, x.task) else s)
                   .(submissions := s.submissions[i := x.(phase := Unstamped)]),
                   TheSubmission(i))
    case Failure(applied) =>
      (if applied then Write(s, Desired, x.task) else s).(submissions := s.submissions[i := x.(phase := Submitted)])
  }

  function AfterReceive(s: State, e: ExecutorId, t: Task): State
    requires e in s.free
  {
    s.(free := s.free[e := s.free[e] - t.memoryMB], works := s.works + [Work(e, Reserved, t, t)],
       late := if e in s.announced then s.late else s.late + {e})
  }

  function AfterSend(s: State, i: nat, handle: string, o: Outcome): State
    requires i < |s.works|
  {
    s.(works := s.works[i := Sent(s.works[i], s.clock, handle, o)])
  }

  /** Assigns the task's fields in place and leaves the serialised original to compare with. */
  function Sent(w: Work, now: int, handle: string, o: Outcome): Work {
    match w.phase
    case Reserved => Work(w.owner, Claiming, Claim(w.task, w.owner, now), w.task)
    case Holding => Work(w.owner, Starting, Start(w.task, handle, now), w.task)
    case Executing => Work(w.owner, Completing, Complete(w.task, o, now), w.task)
    case _ => w
  }

  function AfterCas(s: State, i: nat, r: Reply): State
    requires i < |s.works| && InFlight(s.works[i].phase)
  {
    var w := s.works[i];
    var cause := CauseOf(w.phase);
    match r
    case Answer =>
      if Holds(s, w.original) then
        Write(s, cause, w.task).(works := s.works[i := w.(phase := AfterSuccess(w.phase))],
                                 completeKicks := if w.phase == Completing then s.completeKicks + {w.task}
                                                  else s.completeKicks)
      else
        s.(works := s.works[i := w.(phase := Releasing)])
    case Timeout(applied) =>
      AfterTimeout(if applied then CompareAndSwap(s, w.original, cause, w.task) else s, TheWork(i))
    case Failure(applied) =>
      (if applied then CompareAndSwap(s, w.original, cause, w.task) else s).(works := s.works[i := w.(phase := Releasing)])
  }

  function AfterRelease(s: State, i: nat): State
    requires i < |s.works| && s.works[i].owner in s.free
  {
    var w := s.works[i];
    s.(free := s.free[w.owner := s.free[w.owner] + w.task.memoryMB], works := s.works[i := w.(phase := WorkOver)])
  }

  function AfterAccept(s: State, t: Task): State {
    s.(resolutions := s.resolutions + [Resolution(Received, t, t)])
  }

  function AfterSendResolve(s: State, i: nat): State
    requires i < |s.resolutions|
  {
    var t := s.resolutions[i].task;
    s.(resolutions := s.resolutions[i := Resolution(ResolveSent, Resolve(t, s.clock), t)])
  }

  function AfterResolve(s: State, i: nat, r: Reply): State
    requires i < |s.resolutions|
  {
    var x := s.resolutions[i];
    match r
    case Answer =>
      if Holds(s, x.original) then
        Write(s, ResolveTaken, x.task).(resolutions := s.resolutions[i := x.(phase := Publishing)])
      else
        s.(resolutions := s.resolutions[i := x.(phase := ResolutionOver)])
    case Timeout(applied) =>
      AfterTimeout(if applied then CompareAndSwap(s, x.original, ResolveTaken, x.task) else s, TheResolution(i))
    case Failure(applied) =>
      (if applied then CompareAndSwap(s, x.original, ResolveTaken, x.task) else s)
      .(resolutions := s.resolutions[i := x.(phase := ResolutionOver)])
  }

  function AfterPublish(s: State, i: nat, ok: bool): State
    requires i < |s.resolutions|
  {
    var x := s.resolutions[i];
    if ok then
      s.(published := s.published + [x.task], resolutions := s.resolutions[i := x.(phase := Deleting)])
    else
      s.(resolutions := s.resolutions[i := x.(phase := ResolutionOver)])
  }

  /** The delete compares nothing; a timeout is retried. */
  function AfterDelete(s: State, i: nat, r: Reply): State
    requires i < |s.resolutions|
  {
    var x := s.resolutions[i];
    match r
    case Answer => Remove(s, x.task.guid).(resolutions := s.resolutions[i := x.(phase := ResolutionOver)])
    case Timeout(applied) => AfterTimeout(if applied then Remove(s, x.task.guid) else s, TheResolution(i))
    case Failure(applied) =>
      (if applied then Remove(s, x.task.guid) else s).(resolutions := s.resolutions[i := x.(phase := ResolutionOver)])
  }

  function AfterListTasks(s: State): State {
    s.(passes := s.passes + [Pass(TasksListed, s.store, {}, 0, 0, {}, map[], map[])])
  }

  function AfterListExecutors(s: State, i: nat): State
    requires i < |s.passes|
  {
    s.(passes := s.passes[i := s.passes[i].(stage := ExecutorsListed, alive := s.present)])
  }

  function AfterReadBoundary(s: State, i: nat, timeToClaim: int): State
    requires i < |s.passes|
  {
    var p := s.passes[i];
    s.(passes := s.passes[i := p.(stage := Scanning, timeToClaim := timeToClaim,
                                  boundary := s.clock - timeToClaim, todo := p.snapshot.Keys)])
  }

  /** The pass after one listed task has been examined. */
  function Examined(p: Pass, g: string, d: Decision): Pass {
    var p1 := p.(todo := p.todo - {g});
    if d.Swap? then p1.(planned := p.planned[g := Plan(d.cause, d.task)]) else p1
  }

  function AfterExamine(s: State, i: nat, g: string): State
    requires i < |s.passes| && g in s.passes[i].snapshot
  {
    var p := s.passes[i];
    var t := p.snapshot[g];
    var d := Decide(t, p.boundary, p.timeToClaim, t.executorId in p.alive, s.clock);
    s.(passes := s.passes[i := Examined(p, g, d)],
       desireKicks := if d.KickDesire? then s.desireKicks + {t} else s.desireKicks,
       completeKicks := if d.KickComplete? then s.completeKicks + {t} else s.completeKicks)
  }

  function AfterStampSwap(s: State, i: nat, g: string): State
    requires i < |s.passes| && g in s.passes[i].planned
  {
    var p := s.passes[i];
    var plan := p.planned[g];
    s.(passes := s.passes[i := p.(planned := p.planned - {g},
                                  sent := p.sent[g := Plan(plan.cause, Stamp(plan.task, s.clock))])])
  }

  /** A pass does not retry: whatever the reply, the swap was applied or it was not. */
  function AfterSwap(s: State, i: nat, g: string, applied: bool): State
    requires i < |s.passes| && g in s.passes[i].sent && g in s.passes[i].snapshot
  {
    var p := s.passes[i];
    var plan := p.sent[g];
    (if applied then CompareAndSwap(s, p.snapshot[g], plan.cause, plan.task) else s)
    .(passes := s.passes[i := p.(sent := p.sent - {g})])
  }

  /** Which steps concern the executors, and which can write to the store. */
  predicate OfExecutors(step: Step) {
    step.Boot? || step.Crash? || step.Receive? || step.Send? || step.CasReply? || step.Release?
  }

  predicate OfStore(step: Step) {
    step.SetReply? || step.CasReply? || step.ResolveReply? || step.DeleteReply? || step.SwapReply?
  }

  predicate SameExecutors(s: State, s': State) {
    s'.works == s.works && s'.free == s.free && s'.memory == s.memory && s'.running == s.running
    && s'.late == s.late
  }

  lemma StagersLeaveExecutors(s: State, i: nat, r: Reply)
    ensures i < |s.submissions| ==> SameExecutors(s, AfterSet(s, i, r))
    ensures i < |s.resolutions| ==> SameExecutors(s, AfterResolve(s, i, r)) && SameExecutors(s, AfterDelete(s, i, r))
  {
    hide Write, CompareAndSwap, Remove, Holds;
  }

  lemma PassesLeaveExecutors(s: State, i: nat, g: string, applied: bool)
    requires i < |s.passes| && g in s.passes[i].sent && g in s.passes[i].snapshot
    ensures SameExecutors(s, AfterSwap(s, i, g, applied))
  {
  }

  lemma RepliesLeaveExecutors(f: Faults, s: State, step: Step)
    requires Enabled(f, s, step) && OfStore(step) && !step.CasReply?
    ensures SameExecutors(s, Apply(f, s, step))
  {
    hide SameExecutors, AfterSet, AfterResolve, AfterDelete, AfterSwap;
    match step
    case SetReply(i, r) => StagersLeaveExecutors(s, i, r);
    case ResolveReply(i, r) => StagersLeaveExecutors(s, i, r);
    case DeleteReply(i, r) => StagersLeaveExecutors(s, i, r);
    case SwapReply(i, g, applied) => PassesLeaveExecutors(s, i, g, applied);
  }

  lemma ExecutorsUntouched(f: Faults, s: State, step: Step)
    requires Enabled(f, s, step) && !OfExecutors(step)
    ensures SameExecutors(s, Apply(f, s, step))
  {
    if OfStore(step) {
      RepliesLeaveExecutors(f, s, step);
    }
  }

  lemma StoreUntouched(f: Faults, s: State, step: Step)
    requires Enabled(f, s, step) && !OfStore(step)
    ensures var s' := Apply(f, s, step); s'.store == s.store && s'.history == s.history
  {
    if OfExecutors(step) {
      ExecutorsLeaveStore(f, s, step);
    }
  }

  lemma ExecutorsLeaveStore(f: Faults, s: State, step: Step)
    requires Enabled(f, s, step) && OfExecutors(step) && !OfStore(step)
    ensures var s' := Apply(f, s, step); s'.store == s.store && s'.history == s.history
  {
    hide Sent;
  }

  lemma CasLeavesRest(s: State, i: nat, r: Reply)
    requires i < |s.works| && InFlight(s.works[i].phase)
    ensures var s' := AfterCas(s, i, r);
            && s'.submissions == s.submissions && s'.used == s.used
            && s'.present == s.present && s'.running == s.running
            && s'.resolutions == s.resolutions && s'.published == s.published
  {
    hide Write, CompareAndSwap, Holds;
  }

  lemma StagersLeavePresence(s: State, i: nat, r: Reply)
    ensures i < |s.submissions| ==> AfterSet(s, i, r).present == s.present
    ensures i < |s.resolutions| ==> AfterResolve(s, i, r).present == AfterDelete(s, i, r).present == s.present
  {
    hide Write, CompareAndSwap, Remove, Holds;
  }

  lemma RepliesLeavePresence(f: Faults, s: State, step: Step)
    requires Enabled(f, s, step) && OfStore(step)
    ensures Apply(f, s, step).present == s.present
  {
    hide AfterSet, AfterCas, AfterResolve, AfterDelete;
    match step
    case SetReply(i, r) => StagersLeavePresence(s, i, r);
    case CasReply(i, r) => CasLeavesRest(s, i, r);
    case ResolveReply(i, r) => StagersLeavePresence(s, i, r);
    case DeleteReply(i, r) => StagersLeavePresence(s, i, r);
    case SwapReply(i, g, applied) =>
  }

  // ---------- Runs ----------

  /** `run` can be taken from `s`, step by step. */
  predicate Runs(f: Faults, s: State, run: seq<Step>)
    decreases |run|
  {
    run == [] || (Enabled(f, s, run[0]) && Runs(f, Apply(f, s, run[0]), run[1..]))
  }

  function After(f: Faults, s: State, run: seq<Step>): State
    requires Runs(f, s, run)
    decreases |run|
  {
    if run == [] then s else After(f, Apply(f, s, run[0]), run[1..])
  }

  /** Some run leads from `s` to `s'`. */
  ghost predicate Reaches(f: Faults, s: State, s': State) {
    exists run :: Runs(f, s, run) && After(f, s, run) == s'
  }

  ghost predicate Reachable(f: Faults, s: State) {
    Reaches(f, INITIAL, s)
  }

  lemma {:induction false} RunsCompose(f: Faults, s: State, a: seq<Step>, b: seq<Step>)
    requires Runs(f, s, a) && Runs(f, After(f, s, a), b)
    ensures Runs(f, s, a + b) && After(f, s, a + b) == After(f, After(f, s, a), b)
    decreases |a|
  {
    if a == [] {
      assert a + b == b;
    } else {
      assert (a + b)[1..] == a[1..] + b;
      RunsCompose(f, Apply(f, s, a[0]), a[1..], b);
    }
  }

  lemma RunOfOne(f: Faults, s: State, step: Step)
    requires Enabled(f, s, step)
    ensures Runs(f, s, [step]) && After(f, s, [step]) == Apply(f, s, step)
  {
    assert [step][1..] == [];
    assert Runs(f, Apply(f, s, step), []);
  }

  lemma ReachesSelf(f: Faults, s: State)
    ensures Reaches(f, s, s)
  {
    assert Runs(f, s, []) && After(f, s, []) == s;
  }

  lemma ReachesStep(f: Faults, s: State, step: Step)
    requires Enabled(f, s, step)
    ensures Reaches(f, s, Apply(f, s, step))
  {
    RunOfOne(f, s, step);
  }

  lemma ReachesOn(f: Faults, s: State, s1: State, s2: State)
    requires Reaches(f, s, s1) && Reaches(f, s1, s2)
    ensures Reaches(f, s, s2)
  {
    var a :| Runs(f, s, a) && After(f, s, a) == s1;
    var b :| Runs(f, s1, b) && After(f, s1, b) == s2;
    RunsCompose(f, s, a, b);
  }

  /** The two facts about `Reaches` that a chain of calls needs. */
  lemma ReachesChain(f: Faults)
    ensures forall s :: Reaches(f, s, s)
    ensures forall s, s1, s2 :: Reaches(f, s, s1) && Reaches(f, s1, s2) ==> Reaches(f, s, s2)
  {
    forall s ensures Reaches(f, s, s) {
      ReachesSelf(f, s);
    }
    forall s, s1, s2 | Reaches(f, s, s1) && Reaches(f, s1, s2) ensures Reaches(f, s, s2) {
      ReachesOn(f, s, s1, s2);
    }
  }

  lemma ReachableStep(f: Faults, s: State, step: Step)
    requires Reachable(f, s) && Enabled(f, s, step)
    ensures Reachable(f, Apply(f, s, step)) && Reaches(f, s, Apply(f, s, step))
  {
    ReachesStep(f, s, step);
    ReachesOn(f, INITIAL, s, Apply(f, s, step));
  }

  // ---------- Runs beside a record ----------

  /** The step belongs to the call that keeps this record. */
  predicate Of(step: Step, r: Record) {
    match r
    case TheSubmission(i) => (step.StampCreated? || step.StampDesire? || step.SetReply?) && step.i == i
    case TheWork(i) => (step.Send? || step.CasReply? || step.Release?) && step.i == i
    case TheResolution(i) =>
      (step.SendResolve? || step.ResolveReply? || step.Publish? || step.DeleteReply?) && step.i == i
    case ThePass(i) =>
      && (step.ListExecutors? || step.ReadBoundary? || step.Examine? || step.StampSwap? || step.SwapReply?)
      && step.i == i
  }

  predicate NoneOf(run: seq<Step>, mine: set<Record>) {
    forall k, r :: 0 <= k < |run| && r in mine ==> !Of(run[k], r)
  }

  /** Some run of everybody but the calls that keep the records `mine` leads from `s` to `s'`. */
  ghost predicate ReachesBeside(f: Faults, s: State, s': State, mine: set<Record>) {
    exists run :: Runs(f, s, run) && After(f, s, run) == s' && NoneOf(run, mine)
  }

  lemma BesideSelf(f: Faults, s: State, mine: set<Record>)
    ensures ReachesBeside(f, s, s, mine) && Reaches(f, s, s)
  {
    assert Runs(f, s, []) && After(f, s, []) == s && NoneOf([], mine);
  }

  // ---------- Who sleeps ----------

  /** Only calls that have begun sleep. */
  predicate SleeperOk(s: State, r: Record) {
    match r
    case TheSubmission(i) => i < |s.submissions|
    case TheWork(i) => i < |s.works|
    case TheResolution(i) => i < |s.resolutions|
    case ThePass(_) => false
  }

  predicate SleepersOk(s: State) {
    forall r :: r in s.waits ==> SleeperOk(s, r)
  }

  predicate Longer(s: State, s': State) {
    |s.submissions| <= |s'.submissions| && |s.works| <= |s'.works| && |s.resolutions| <= |s'.resolutions|
  }

  lemma SetLonger(s: State, i: nat, r: Reply)
    requires SleepersOk(s) && i < |s.submissions|
    ensures Longer(s, AfterSet(s, i, r)) && SleepersOk(AfterSet(s, i, r))
  {
  }

  lemma CasLonger(s: State, i: nat, r: Reply)
    requires SleepersOk(s) && i < |s.works| && InFlight(s.works[i].phase)
    ensures Longer(s, AfterCas(s, i, r)) && SleepersOk(AfterCas(s, i, r))
  {
  }

  lemma ResolveLonger(s: State, i: nat, r: Reply)
    requires SleepersOk(s) && i < |s.resolutions|
    ensures Longer(s, AfterResolve(s, i, r)) && SleepersOk(AfterResolve(s, i, r))
  {
  }

  lemma DeleteLonger(s: State, i: nat, r: Reply)
    requires SleepersOk(s) && i < |s.resolutions|
    ensures Longer(s, AfterDelete(s, i, r)) && SleepersOk(AfterDelete(s, i, r))
  {
  }

  predicate OfPasses(step: Step) {
    step.ListTasks? || step.ListExecutors? || step.ReadBoundary? || step.Examine? || step.StampSwap? || step.SwapReply?
  }

  lemma PassesLonger(f: Faults, s: State, step: Step)
    requires Enabled(f, s, step) && OfPasses(step)
    ensures Longer(s, Apply(f, s, step)) && Apply(f, s, step).waits == s.waits
  {
    hide Decide, AfterSwap;
    if step.SwapReply? {
      SwapLonger(s, step.i, step.guid, step.applied);
    }
  }

  lemma SwapLonger(s: State, i: nat, g: string, applied: bool)
    requires i < |s.passes| && g in s.passes[i].sent && g in s.passes[i].snapshot
    ensures Longer(s, AfterSwap(s, i, g, applied)) && AfterSwap(s, i, g, applied).waits == s.waits
  {
  }

  predicate OfSleepers(step: Step) {
    step.SetReply? || step.CasReply? || step.ResolveReply? || step.DeleteReply?
  }

  lemma ExecutorsLonger(f: Faults, s: State, step: Step)
    requires Enabled(f, s, step) && OfExecutors(step) && !OfSleepers(step)
    ensures Longer(s, Apply(f, s, step)) && Apply(f, s, step).waits == s.waits
  {
    hide Sent;
  }

  lemma OthersLonger(f: Faults, s: State, step: Step)
    requires Enabled(f, s, step) && !OfExecutors(step) && !OfSleepers(step)
    ensures Longer(s, Apply(f, s, step)) && Apply(f, s, step).waits == s.waits
  {
    if OfPasses(step) {
      PassesLonger(f, s, step);
    }
  }

  lemma StepLonger(f: Faults, s: State, step: Step)
    requires SleepersOk(s) && Enabled(f, s, step)
    ensures Longer(s, Apply(f, s, step)) && SleepersOk(Apply(f, s, step))
  {
    if OfSleepers(step) {
      hide AfterSet, AfterCas, AfterResolve, AfterDelete, SleepersOk, Longer;
      match step
      case SetReply(i, r) => SetLonger(s, i, r);
      case CasReply(i, r) => CasLonger(s, i, r);
      case ResolveReply(i, r) => ResolveLonger(s, i, r);
      case DeleteReply(i, r) => DeleteLonger(s, i, r);
    } else {
      hide Apply;
      if OfExecutors(step) {
        ExecutorsLonger(f, s, step);
      } else {
        OthersLonger(f, s, step);
      }
    }
  }

  lemma {:induction false} RunLonger(f: Faults, s: State, run: seq<Step>)
    requires SleepersOk(s) && Runs(f, s, run)
    ensures Longer(s, After(f, s, run)) && SleepersOk(After(f, s, run))
    decreases |run|
  {
    hide SleepersOk, Enabled, Apply;
    if run != [] {
      StepLonger(f, s, run[0]);
      RunLonger(f, Apply(f, s, run[0]), run[1..]);
    }
  }

  /** A call that has not begun is not asleep. */
  lemma NewCallsRested(f: Faults, s: State)
    requires Reachable(f, s)
    ensures TheSubmission(|s.submissions|) !in s.waits && TheWork(|s.works|) !in s.waits
    ensures TheResolution(|s.resolutions|) !in s.waits
  {
    var run :| Runs(f, INITIAL, run) && After(f, INITIAL, run) == s;
    RunLonger(f, INITIAL, run);
  }
}
