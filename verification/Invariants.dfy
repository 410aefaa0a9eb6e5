/**
What every reachable state satisfies, whatever faults are allowed: the store is the end of
a legal history per key, and every value in a message, a local copy or a converge pass was
once stored.
*/
module Invariants {
  import opened Models
  import opened Lifecycle
  import opened Protocol

  /** Executors whose presence is gone; it never comes back. */
  function Lost(s: State): set<ExecutorId> {
    s.announced - s.present
  }

  /** Executors that a task can name. */
  function Known(s: State): set<ExecutorId> {
    s.announced + s.late
  }

  /** Executors that a listing may miss: lost ones, and those that did not wait for their presence. */
  function Excused(s: State): set<ExecutorId> {
    Lost(s) + s.late
  }

  // ---------- The store ----------

  ghost predicate EntryKnown(s: State, g: string, e: Entry) {
    && e.task.guid == g
    && 0 <= e.task.memoryMB && Encodable(e.task)
    && e.task.updatedAt <= s.clock
    && (e.task.executorId == "" || e.task.executorId in Known(s))
    && (e.cause == ExecutorLost ==> e.task.executorId in Excused(s))
  }

  ghost predicate HistoryInv(s: State, g: string) {
    && Legal(HistoryOf(s, g))
    && (forall i :: 0 <= i < |HistoryOf(s, g)| ==> EntryKnown(s, g, HistoryOf(s, g)[i]))
    && (g in s.store <==> Current(HistoryOf(s, g)).Some?)
    && (g in s.store ==> Current(HistoryOf(s, g)) == Some(s.store[g]))
  }

  ghost predicate StoreInv(s: State) {
    forall g :: HistoryInv(s, g)
  }

  /** The value was stored at some time. */
  ghost predicate Written(s: State, t: Task) {
    exists i :: 0 <= i < |HistoryOf(s, t.guid)| && HistoryOf(s, t.guid)[i].task == t
  }

  lemma WrittenFacts(s: State, t: Task)
    requires StoreInv(s) && Written(s, t)
    ensures WellFormed(t) && EntryKnown(s, t.guid, Entry(Desired, t))
  {
    var h := HistoryOf(s, t.guid);
    assert HistoryInv(s, t.guid);
    var i :| 0 <= i < |h| && h[i].task == t;
    assert EntryKnown(s, t.guid, h[i]);
    VersionsWellFormed(h, i);
  }

  lemma StoredIsWritten(s: State, g: string)
    requires StoreInv(s) && g in s.store
    ensures s.store[g].guid == g && Written(s, s.store[g])
  {
    var h := HistoryOf(s, g);
    assert HistoryInv(s, g);
    assert h[|h| - 1].task == s.store[g];
    assert EntryKnown(s, g, h[|h| - 1]);
  }

  // ---------- Messages and local copies ----------

  ghost predicate KickInv(s: State) {
    && (forall t :: t in s.desireKicks ==> Written(s, t) && t.state == Pending)
    && (forall t :: t in s.completeKicks ==> Written(s, t) && t.state == Completed)
  }

  ghost predicate SubmissionOk(s: State, x: Submission) {
    && x.task.guid in s.used
    && 0 <= x.task.memoryMB && Encodable(x.task)
    && Unassigned(x.task)
    && x.task.createdAt <= s.clock
    && (x.phase == Setting ==>
          x.task.state == Pending && x.task.createdAt <= x.task.updatedAt <= s.clock)
  }

  ghost predicate SubmissionInv(s: State) {
    forall i :: 0 <= i < |s.submissions| ==> SubmissionOk(s, s.submissions[i])
  }

  function StateIn(p: WorkPhase): TaskState {
    match p
    case Reserved => Pending
    case Claiming => Pending
    case Holding => Claimed
    case Starting => Claimed
    case Executing => Running
    case Completing => Running
    case _ => Invalid
  }

  ghost predicate WorkOk(s: State, w: Work) {
    && w.owner in Known(s) && w.owner != ""
    && 0 <= w.task.memoryMB
    && (w.phase !in {Releasing, WorkOver} ==>
          && (if w.phase in {Reserved, Claiming} then Claimable(Expected(w), s.clock) else Written(s, Expected(w)))
          && Expected(w).state == StateIn(w.phase)
          && w.task.guid == Expected(w).guid
          && w.task.memoryMB == Expected(w).memoryMB
          && (w.phase !in {Reserved, Claiming} ==> Expected(w).executorId == w.owner))
    && (InFlight(w.phase) ==>
          Edge(CauseOf(w.phase), w.original, w.task) && w.task.executorId == w.owner && w.task.updatedAt <= s.clock)
  }

  ghost predicate WorkInv(s: State) {
    forall i :: 0 <= i < |s.works| ==> WorkOk(s, s.works[i])
  }

  ghost predicate ResolutionOk(s: State, x: Resolution) {
    match x.phase
    case Received => Resolvable(x.task, s.clock)
    case ResolveSent =>
      Resolvable(x.original, s.clock) && Edge(ResolveTaken, x.original, x.task) && x.task.updatedAt <= s.clock
    case Publishing => Written(s, x.task) && x.task.state == Resolving
    case Deleting => Written(s, x.task) && x.task.state == Resolving
    case ResolutionOver => true
  }

  ghost predicate ResolutionInv(s: State) {
    && (forall i :: 0 <= i < |s.resolutions| ==> ResolutionOk(s, s.resolutions[i]))
    && (forall t :: t in s.published ==> Written(s, t) && t.state == Resolving)
  }

  // ---------- Converge passes ----------

  type Snapshot = map<string, Task>

  ghost predicate ListedOk(s: State, tasks: Snapshot) {
    forall g :: g in tasks ==> tasks[g].guid == g && Written(s, tasks[g])
  }

  /** Listing executors after tasks: an absent executor named in the listing is excused. */
  ghost predicate AbsentAreExcused(s: State, tasks: Snapshot, alive: set<ExecutorId>) {
    forall g :: g in tasks && tasks[g].state in {Claimed, Running} ==>
      tasks[g].executorId in alive || tasks[g].executorId in Excused(s)
  }

  predicate ByConverger(cause: Cause) {
    cause.NeverClaimed? || cause in {ExecutorLost, BackToPending, BackToCompleted}
  }

  ghost predicate SwapOk(s: State, t: Task, cause: Cause, t': Task) {
    && ByConverger(cause)
    && Edge(cause, t, t')
    && (cause == ExecutorLost ==> t.executorId in Excused(s))
  }

  ghost predicate PlannedOk(s: State, tasks: Snapshot, planned: map<string, Plan>) {
    forall g :: g in planned ==>
      g in tasks && SwapOk(s, tasks[g], planned[g].cause, Stamp(planned[g].task, s.clock))
  }

  ghost predicate AllSentOk(s: State, tasks: Snapshot, sent: map<string, Plan>) {
    forall g :: g in sent ==>
      g in tasks && SwapOk(s, tasks[g], sent[g].cause, sent[g].task) && sent[g].task.updatedAt <= s.clock
  }

  ghost predicate PassOk(s: State, p: Pass) {
    && ListedOk(s, p.snapshot)
    && (p.stage != TasksListed ==> AbsentAreExcused(s, p.snapshot, p.alive))
    && (p.stage == Scanning ==> p.boundary + p.timeToClaim <= s.clock)
    && PlannedOk(s, p.snapshot, p.planned)
    && AllSentOk(s, p.snapshot, p.sent)
  }

  ghost predicate PassInv(s: State) {
    forall i :: 0 <= i < |s.passes| ==> PassOk(s, s.passes[i])
  }

  ghost predicate ExecutorsInv(s: State) {
    && "" !in s.memory && s.running <= s.memory.Keys && s.free.Keys == s.memory.Keys
    && s.present <= s.announced && Known(s) <= s.memory.Keys
  }

  ghost predicate Inv(s: State) {
    && StoreInv(s) && KickInv(s) && SubmissionInv(s) && WorkInv(s) && ResolutionInv(s) && PassInv(s)
    && ExecutorsInv(s)
  }

  // ---------- Every step only adds to what is known ----------

  ghost predicate Grows(s: State, s': State) {
    && s.clock <= s'.clock
    && s.memory.Keys <= s'.memory.Keys
    && Known(s) <= Known(s') && Excused(s) <= Excused(s')
    && s.announced <= s'.announced && Lost(s) <= Lost(s')
    && s.used <= s'.used
    && forall g :: HistoryOf(s, g) <= HistoryOf(s', g)
  }

  lemma WriteGrows(s: State, cause: Cause, t: Task)
    ensures Grows(s, Write(s, cause, t))
  {
  }

  lemma SwapGrows(s: State, old': Task, cause: Cause, new': Task)
    ensures Grows(s, CompareAndSwap(s, old', cause, new'))
  {
    WriteGrows(s, cause, new');
  }

  lemma RemoveGrows(s: State, g: string)
    ensures Grows(s, Remove(s, g))
  {
  }

  lemma WrittenGrows(s: State, s': State)
    requires Grows(s, s')
    ensures forall t :: Written(s, t) ==> Written(s', t)
  {
    forall t | Written(s, t) ensures Written(s', t) {
      var i :| 0 <= i < |HistoryOf(s, t.guid)| && HistoryOf(s, t.guid)[i].task == t;
      assert HistoryOf(s', t.guid)[i].task == t;
    }
  }

  lemma EdgeLater(cause: Cause, old': Task, t: Task, now: int, later: int)
    requires Edge(cause, old', Stamp(t, now)) && now <= later
    ensures Edge(cause, old', Stamp(t, later))
  {
  }

  lemma PlannedGrows(s: State, s': State, tasks: Snapshot, planned: map<string, Plan>)
    requires Grows(s, s') && PlannedOk(s, tasks, planned)
    ensures PlannedOk(s', tasks, planned)
  {
    forall g | g in planned
      ensures g in tasks && SwapOk(s', tasks[g], planned[g].cause, Stamp(planned[g].task, s'.clock))
    {
      EdgeLater(planned[g].cause, tasks[g], planned[g].task, s.clock, s'.clock);
    }
  }

  lemma PassGrows(s: State, s': State, p: Pass)
    requires Grows(s, s') && PassOk(s, p)
    ensures PassOk(s', p)
  {
    WrittenGrows(s, s');
    PlannedGrows(s, s', p.snapshot, p.planned);
  }

  // ---------- The writes ----------

  lemma WriteKeepsStore(s: State, cause: Cause, t: Task)
    requires StoreInv(s)
    requires EntryOk(Current(HistoryOf(s, t.guid)), Entry(cause, t)) && cause != Deleted
    requires EntryKnown(s, t.guid, Entry(cause, t))
    ensures StoreInv(Write(s, cause, t)) && Written(Write(s, cause, t), t)
  {
    var s' := Write(s, cause, t);
    var h := HistoryOf(s, t.guid);
    assert HistoryInv(s, t.guid);
    LegalExtends(h, Entry(cause, t));
    assert HistoryOf(s', t.guid)[|h|] == Entry(cause, t);
    forall g ensures HistoryInv(s', g) {
      assert HistoryInv(s, g);
      forall i | 0 <= i < |HistoryOf(s', g)| ensures EntryKnown(s', g, HistoryOf(s', g)[i]) {
        if i < |HistoryOf(s, g)| { assert EntryKnown(s, g, HistoryOf(s, g)[i]); }
      }
    }
  }

  /** A compare-and-swap along an edge of the state machine, from any value at all: if it
      applies, the edge leads from the stored version. */
  lemma SwapKeepsStore(s: State, old': Task, cause: Cause, new': Task)
    requires StoreInv(s) && Edge(cause, old', new') && new'.updatedAt <= s.clock
    requires new'.executorId in {"", old'.executorId} || new'.executorId in Known(s)
    requires cause == ExecutorLost ==> old'.executorId in Excused(s)
    ensures StoreInv(CompareAndSwap(s, old', cause, new'))
    ensures Holds(s, old') ==> Written(CompareAndSwap(s, old', cause, new'), new')
  {
    if Holds(s, old') {
      assert HistoryInv(s, old'.guid);
      StoredIsWritten(s, old'.guid);
      WrittenFacts(s, old');
      EdgeFollows(cause, old', new');
      WriteKeepsStore(s, cause, new');
    }
  }

  lemma RemoveKeepsStore(s: State, g: string)
    requires StoreInv(s)
    ensures StoreInv(Remove(s, g))
  {
    var s' := Remove(s, g);
    if g in s.store {
      var h := HistoryOf(s, g);
      assert HistoryInv(s, g);
      StoredIsWritten(s, g);
      LegalExtends(h, Entry(Deleted, s.store[g]));
      assert EntryKnown(s, g, h[|h| - 1]);
      forall k ensures HistoryInv(s', k) {
        assert HistoryInv(s, k);
        forall i | 0 <= i < |HistoryOf(s', k)| ensures EntryKnown(s', k, HistoryOf(s', k)[i]) {
          if i < |HistoryOf(s, k)| { assert EntryKnown(s, k, HistoryOf(s, k)[i]); }
        }
      }
    }
  }

  lemma StoreGrows(s: State, s': State)
    requires StoreInv(s) && Grows(s, s') && s'.store == s.store && s'.history == s.history
    ensures StoreInv(s')
  {
    forall g ensures HistoryInv(s', g) {
      assert HistoryInv(s, g);
      forall i | 0 <= i < |HistoryOf(s', g)| ensures EntryKnown(s', g, HistoryOf(s', g)[i]) {
        assert EntryKnown(s, g, HistoryOf(s, g)[i]);
      }
    }
  }
}
