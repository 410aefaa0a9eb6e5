/**
The life of one task: the field assignments each operation makes, the edges of the
state machine those assignments are meant to follow, and the laws that hold of every
history built from such edges.
*/
module Lifecycle {
  import opened Models

  const ONE_SECOND := 1_000_000_000  // nanoseconds
  const THIRTY_SECONDS := 30 * ONE_SECOND
  const NOT_CLAIMED := "not claimed within time limit"
  const EXECUTOR_GONE := "executor disappeared before completion"

  // ---------- Field assignments ----------

  function Create(t: Task, now: int): Task {
    t.(createdAt := if t.createdAt == 0 then now else t.createdAt)
  }

  function Desire(t: Task, now: int): Task {
    t.(updatedAt := now, state := Pending)
  }

  function Claim(t: Task, executorId: string, now: int): Task {
    t.(updatedAt := now, state := Claimed, executorId := executorId)
  }

  function Start(t: Task, containerHandle: string, now: int): Task {
    t.(updatedAt := now, state := Running, containerHandle := containerHandle)
  }

  function Complete(t: Task, o: Outcome, now: int): Task {
    t.(updatedAt := now, state := Completed, failed := o.failed, failureReason := o.failureReason, result := o.result)
  }

  function Resolve(t: Task, now: int): Task {
    t.(updatedAt := now, state := Resolving)
  }

  function MarkFailed(t: Task, reason: string): Task {
    t.(state := Completed, failed := true, failureReason := reason)
  }

  function DemoteToPending(t: Task): Task {
    t.(state := Pending, executorId := "", containerHandle := "")
  }

  function DemoteToCompleted(t: Task): Task {
    t.(state := Completed)
  }

  function Stamp(t: Task, now: int): Task {
    t.(updatedAt := now)
  }

  // ---------- Convergence, task by task ----------

  /** Why a value was written. */
  datatype Cause =
    | Desired
    | ClaimTaken
    | RunStarted
    | RunFinished
    | NeverClaimed(timeToClaim: int)
    | ExecutorLost
    | BackToPending
    | ResolveTaken
    | BackToCompleted
    | Deleted

  datatype Decision = Leave | KickDesire | KickComplete | Swap(cause: Cause, task: Task)

  /** What a converge pass decides for one listed task; the new value is not yet stamped. */
  function Decide(t: Task, boundary: int, timeToClaim: int, executorIsAlive: bool, now: int): Decision {
    match t.state
    case Pending =>
      if t.createdAt <= boundary then Swap(NeverClaimed(timeToClaim), MarkFailed(t, NOT_CLAIMED)) else KickDesire
    case Claimed =>
      if !executorIsAlive then Swap(ExecutorLost, MarkFailed(t, EXECUTOR_GONE))
      else if THIRTY_SECONDS <= now - t.updatedAt then Swap(BackToPending, DemoteToPending(t))
      else Leave
    case Running =>
      if !executorIsAlive then Swap(ExecutorLost, MarkFailed(t, EXECUTOR_GONE)) else Leave
    case Completed => KickComplete
    case Resolving =>
      if THIRTY_SECONDS <= now - t.updatedAt then Swap(BackToCompleted, DemoteToCompleted(t)) else Leave
    case Invalid => Leave
    case Unknown(_) => Leave
  }

  /** What a pass decides, exactly: when it kicks, and when it replaces the task by what. */
  lemma DecisionTable(t: Task, boundary: int, timeToClaim: int, alive: bool, now: int)
    ensures var d := Decide(t, boundary, timeToClaim, alive, now);
      && (d.KickDesire? <==> t.state == Pending && boundary < t.createdAt)
      && (d.KickComplete? <==> t.state == Completed)
      && (d.Swap? && d.cause.NeverClaimed? <==> t.state == Pending && t.createdAt <= boundary)
      && (d.Swap? && d.cause.ExecutorLost? <==> t.state in {Claimed, Running} && !alive)
      && (d.Swap? && d.cause.BackToPending? <==>
            t.state == Claimed && alive && t.updatedAt + 30_000_000_000 <= now)
      && (d.Swap? && d.cause.BackToCompleted? <==> t.state == Resolving && t.updatedAt + 30_000_000_000 <= now)
      && (d.Swap? ==>
            match d.cause
            case NeverClaimed(ttc) =>
              && ttc == timeToClaim
              && d.task == t.(state := Completed, failed := true, failureReason := "not claimed within time limit")
            case ExecutorLost =>
              d.task == t.(state := Completed, failed := true,
                           failureReason := "executor disappeared before completion")
            case BackToPending => d.task == t.(state := Pending, executorId := "", containerHandle := "")
            case BackToCompleted => d.task == t.(state := Completed)
            case _ => false)
  {
  }

  // ---------- The intended state machine ----------

  /** `new` follows `old` by a write made for `cause`: source and target state, the fields
      that may differ and what becomes of them, and the time that must have passed. */
  ghost predicate Edge(cause: Cause, old': Task, new': Task) {
    && old'.updatedAt <= new'.updatedAt
    && match cause
       case ClaimTaken =>
         && old'.state == Pending && new'.executorId != ""
         && new' == old'.(updatedAt := new'.updatedAt, state := Claimed, executorId := new'.executorId)
       case RunStarted =>
         && old'.state == Claimed
         && new' == old'.(updatedAt := new'.updatedAt, state := Running, containerHandle := new'.containerHandle)
       case RunFinished =>
         && old'.state == Running
         && new' == old'.(updatedAt := new'.updatedAt, state := Completed, failed := new'.failed,
                          failureReason := new'.failureReason, result := new'.result)
       case NeverClaimed(timeToClaim) =>
         && old'.state == Pending && old'.createdAt + timeToClaim <= new'.updatedAt
         && new' == old'.(updatedAt := new'.updatedAt, state := Completed, failed := true,
                          failureReason := "not claimed within time limit")
       case ExecutorLost =>
         && old'.state in {Claimed, Running}
         && new' == old'.(updatedAt := new'.updatedAt, state := Completed, failed := true,
                          failureReason := "executor disappeared before completion")
       case BackToPending =>
         && old'.state == Claimed && old'.updatedAt + 30_000_000_000 <= new'.updatedAt
         && new' == old'.(updatedAt := new'.updatedAt, state := Pending, executorId := "", containerHandle := "")
       case ResolveTaken =>
         old'.state == Completed && new' == old'.(updatedAt := new'.updatedAt, state := Resolving)
       case BackToCompleted =>
         && old'.state == Resolving && old'.updatedAt + 30_000_000_000 <= new'.updatedAt
         && new' == old'.(updatedAt := new'.updatedAt, state := Completed)
       case Desired => false
       case Deleted => false
  }

  /** A swap that a pass decides on is an edge, whenever from the decision onwards it is stamped. */
  lemma DecisionsAreEdges(t: Task, boundary: int, timeToClaim: int, alive: bool, now: int, stamp: int)
    requires t.updatedAt <= now <= stamp && boundary + timeToClaim <= now
    requires Decide(t, boundary, timeToClaim, alive, now).Swap?
    ensures var d := Decide(t, boundary, timeToClaim, alive, now);
            Edge(d.cause, t, Stamp(d.task, stamp)) && (d.cause.ExecutorLost? ==> !alive)
  {
  }

  /** The fields no write changes. */
  ghost predicate SameWork(t: Task, u: Task) {
    u == t.(updatedAt := u.updatedAt, state := u.state, executorId := u.executorId,
            containerHandle := u.containerHandle, result := u.result, failed := u.failed,
            failureReason := u.failureReason)
  }

  predicate Finished(t: Task) {
    t.state in {Completed, Resolving}
  }

  /** Which fields go with which state. */
  ghost predicate WellFormed(t: Task) {
    && t.createdAt <= t.updatedAt
    && match t.state
       case Pending => t.executorId == "" && t.containerHandle == ""
       case Claimed => t.executorId != "" && t.containerHandle == ""
       case Running => t.executorId != ""
       case Completed => true
       case Resolving => true
       case Invalid => false
       case Unknown(_) => false
  }

  /** What a request must look like for the claim it leads to: Pending, with nobody assigned. */
  predicate Claimable(t: Task, now: int) {
    && t.state == Pending && Unassigned(t) && t.createdAt <= t.updatedAt <= now
    && 0 <= t.memoryMB && Encodable(t)
  }

  /** And for a resolve: Completed. */
  predicate Resolvable(t: Task, now: int) {
    t.state == Completed && t.updatedAt <= now && Encodable(t)
  }

  /** Neither call looks at the state of what it is given. Claiming a stored value follows the
      state machine exactly if it is Pending, and resolving one exactly if it is Completed. */
  lemma ClaimIsEdge(t: Task, executorId: string, now: int)
    requires executorId != "" && t.updatedAt <= now
    ensures (exists cause :: Edge(cause, t, Claim(t, executorId, now))) <==> t.state == Pending
  {
    if t.state == Pending {
      assert Edge(ClaimTaken, t, Claim(t, executorId, now));
    }
  }

  lemma ResolveIsEdge(t: Task, now: int)
    requires t.updatedAt <= now
    ensures (exists cause :: Edge(cause, t, Resolve(t, now))) <==> t.state == Completed
  {
    if t.state == Completed {
      assert Edge(ResolveTaken, t, Resolve(t, now));
    }
  }

  // ---------- Histories ----------

  /** One applied write of a key. `Deleted` carries the value that was removed. */
  datatype Entry = Entry(cause: Cause, task: Task)

  type History = seq<Entry>

  function Current(h: History): Option<Task> {
    if h == [] || h[|h| - 1].cause == Deleted then None else Some(h[|h| - 1].task)
  }

  /** What a stager submits: nothing decided yet. */
  predicate Unassigned(t: Task) {
    t.executorId == "" && t.containerHandle == ""
  }

  ghost predicate EntryOk(before: Option<Task>, e: Entry) {
    match e.cause
    case Desired => e.task.state == Pending && Unassigned(e.task) && e.task.createdAt <= e.task.updatedAt
    case Deleted => before == Some(e.task)
    case _ => before.Some? && Edge(e.cause, before.value, e.task)
  }

  /** Every write of the history is allowed after the ones before it. */
  ghost predicate Legal(h: History)
    decreases |h|
  {
    h != [] ==> Legal(h[..|h| - 1]) && EntryOk(Current(h[..|h| - 1]), h[|h| - 1])
  }

  lemma LegalExtends(h: History, e: Entry)
    requires Legal(h) && EntryOk(Current(h), e)
    ensures Legal(h + [e])
  {
    assert (h + [e])[..|h|] == h;
  }

  function Count(h: History, p: Cause -> bool): nat
    decreases |h|
  {
    if h == [] then 0 else Count(h[..|h| - 1], p) + if p(h[|h| - 1].cause) then 1 else 0
  }

  function Desires(h: History): nat { Count(h, (c: Cause) => c.Desired?) }
  function Claims(h: History): nat { Count(h, (c: Cause) => c.ClaimTaken?) }
  function Starts(h: History): nat { Count(h, (c: Cause) => c.RunStarted?) }
  function Resolves(h: History): nat { Count(h, (c: Cause) => c.ResolveTaken?) }
  function DemotionsToPending(h: History): nat { Count(h, (c: Cause) => c.BackToPending?) }
  function DemotionsToCompleted(h: History): nat { Count(h, (c: Cause) => c.BackToCompleted?) }

  function StateOf(h: History): TaskState {
    if Current(h).Some? then Current(h).value.state else Invalid
  }

  function One(b: bool): nat { if b then 1 else 0 }

  /** Conservation: each claim uses up a desire or a demotion to Pending, each start a claim
      and a desire, each resolve a desire or a demotion to Completed. The terms on the left that are not
      counts are what the present state still has to spend. */
  lemma {:induction false} Conservation(h: History)
    requires Legal(h)
    ensures Claims(h) + One(StateOf(h) == Pending) <= Desires(h) + DemotionsToPending(h)
    ensures Starts(h) + One(StateOf(h) == Claimed) <= Claims(h)
    ensures Starts(h) + One(StateOf(h) in {Pending, Claimed}) <= Desires(h)
    ensures Resolves(h) + One(StateOf(h) in {Pending, Claimed, Running, Completed})
            <= Desires(h) + DemotionsToCompleted(h)
    decreases |h|
  {
    if h != [] {
      Conservation(h[..|h| - 1]);
    }
  }

  lemma EntryWellFormed(before: Option<Task>, e: Entry)
    requires EntryOk(before, e) && (before.Some? ==> WellFormed(before.value))
    ensures WellFormed(e.task)
  {
  }

  /** Every version ever stored has the fields its state calls for. */
  lemma {:induction false} VersionsWellFormed(h: History, i: nat)
    requires Legal(h) && i < |h|
    ensures WellFormed(h[i].task)
    decreases |h|
  {
    hide WellFormed, EntryOk;
    var p := h[..|h| - 1];
    if i < |p| {
      VersionsWellFormed(p, i);
    } else {
      if p != [] {
        VersionsWellFormed(p, |p| - 1);
      }
      EntryWellFormed(Current(p), h[i]);
    }
  }

  /** What ends a task: an executor's report, or the failure a converge pass puts on it. */
  predicate EndsTask(cause: Cause) {
    cause.RunFinished? || cause.NeverClaimed? || cause.ExecutorLost?
  }

  lemma OnlyEndsFinish(before: Option<Task>, e: Entry)
    requires EntryOk(before, e) && Finished(e.task)
    ensures if EndsTask(e.cause) then e.task.state == Completed
            else before.Some? && Finished(before.value) && OutcomeOf(before.value) == OutcomeOf(e.task)
  {
  }

  /** A finished version has the outcome with which the task was ended. */
  lemma {:induction false} FinishedWasEnded(h: History, i: nat) returns (k: nat)
    requires Legal(h) && i < |h| && Finished(h[i].task)
    ensures k <= i && EndsTask(h[k].cause) && OutcomeOf(h[i].task) == OutcomeOf(h[k].task) && h[k].task.state == Completed
    decreases |h|
  {
    hide EntryOk, EndsTask, Finished;
    var p := h[..|h| - 1];
    if i < |p| {
      k := FinishedWasEnded(p, i);
    } else {
      OnlyEndsFinish(Current(p), h[i]);
      k := i;
      if !EndsTask(h[i].cause) {
        k := FinishedWasEnded(p, i - 1);
      }
    }
  }

  // ---------- Histories with a single desire ----------

  /** The key was set once, by the first write. */
  ghost predicate DesiredOnce(h: History) {
    forall i :: 0 < i < |h| ==> !h[i].cause.Desired?
  }

  lemma {:induction false} OneDesire(h: History)
    requires DesiredOnce(h)
    ensures Desires(h) <= 1
    decreases |h|
  {
    if |h| > 1 {
      OneDesire(h[..|h| - 1]);
    } else if |h| == 1 {
      assert Desires(h[..0]) == 0;
    }
  }

  /** The state machine's order, by which ties in `updatedAt` are broken. */
  function Rank(s: TaskState): int {
    match s
    case Pending => 1
    case Claimed => 2
    case Running => 3
    case Completed => 4
    case Resolving => 5
    case _ => 0
  }

  predicate Older(t: Task, u: Task) {
    t.updatedAt < u.updatedAt || (t.updatedAt == u.updatedAt && Rank(t.state) < Rank(u.state))
  }

  /** `u` is a later version of the same task: the work is the same, `u` is newer, and a
      finished task stays finished with its outcome. */
  ghost predicate Follows(t: Task, u: Task) {
    && SameWork(t, u)
    && Older(t, u)
    && (Finished(t) ==> Finished(u) && OutcomeOf(t) == OutcomeOf(u))
  }

  lemma EdgeFollows(cause: Cause, t: Task, u: Task)
    requires Edge(cause, t, u)
    ensures Follows(t, u)
  {
  }

  lemma FollowsTransitive(t: Task, u: Task, v: Task)
    requires Follows(t, u) && Follows(u, v)
    ensures Follows(t, v)
  {
  }

  /** Of two entries the later one follows the earlier one, unless it deletes that very version. */
  lemma {:induction false} LaterVersions(h: History, i: nat, j: nat)
    requires Legal(h) && DesiredOnce(h) && i < j < |h|
    ensures h[i].cause != Deleted
    ensures Follows(h[i].task, h[j].task) || (h[j].cause == Deleted && i == j - 1 && h[i].task == h[j].task)
    decreases |h|
  {
    var p := h[..|h| - 1];
    if j < |p| {
      LaterVersions(p, i, j);
    } else {
      var t := h[j - 1].task;
      assert Current(p) == Some(t);
      if h[j].cause != Deleted {
        EdgeFollows(h[j].cause, t, h[j].task);
      }
      if i < j - 1 {
        LaterVersions(p, i, j - 1);
        if h[j].cause != Deleted {
          FollowsTransitive(h[i].task, t, h[j].task);
        }
      }
    }
  }

  /** No value is stored twice, so equality of values is equality of versions. */
  lemma VersionsDistinct(h: History, i: nat, j: nat)
    requires Legal(h) && DesiredOnce(h) && i < |h| && j < |h|
    requires h[i].task == h[j].task && h[i].cause != Deleted && h[j].cause != Deleted
    ensures i == j
  {
    if i < j {
      LaterVersions(h, i, j);
    } else if j < i {
      LaterVersions(h, j, i);
    }
  }

  /** At most one write replaces any given stored value. */
  lemma ReplacedOnce(h: History, i: nat, j: nat)
    requires Legal(h) && DesiredOnce(h) && 0 < i < |h| && 0 < j < |h|
    requires h[i - 1].task == h[j - 1].task
    ensures i == j
  {
    hide Legal, DesiredOnce, Follows;
    LaterVersions(h, i - 1, i);
    LaterVersions(h, j - 1, j);
    VersionsDistinct(h, i - 1, j - 1);
  }

  /** Demotions take thirty seconds each, out of the time between creation and the last write. */
  lemma {:induction false} DemotionsTakeTime(h: History)
    requires Legal(h) && DesiredOnce(h) && h != []
    ensures THIRTY_SECONDS * (DemotionsToPending(h) + DemotionsToCompleted(h))
            <= h[|h| - 1].task.updatedAt - h[0].task.createdAt
    decreases |h|
  {
    var p := h[..|h| - 1];
    if p == [] {
      assert DemotionsToPending(p) == 0 && DemotionsToCompleted(p) == 0;
    } else {
      DemotionsTakeTime(p);
    }
  }
}
