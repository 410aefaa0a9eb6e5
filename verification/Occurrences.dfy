/** Every kind of write happens in some run, whatever the faults: none of the guarantees is empty. */
module Occurrences {
  import opened Models
  import opened Lifecycle
  import opened Protocol
  import opened Relapse
  import opened Scenarios

  ghost predicate OccursIn(s: State, c: Cause) {
    exists g, i :: 0 <= i < |HistoryOf(s, g)| && HistoryOf(s, g)[i].cause == c
  }

  ghost predicate Occurs(f: Faults, c: Cause) {
    exists s :: Reachable(f, s) && OccursIn(s, c)
  }

  lemma LastOccurs(f: Faults, s: State, g: string)
    requires Reachable(f, s) && HistoryOf(s, g) != []
    ensures Occurs(f, HistoryOf(s, g)[|HistoryOf(s, g)| - 1].cause)
  {
    assert OccursIn(s, HistoryOf(s, g)[|HistoryOf(s, g)| - 1].cause);
  }

  /** A task desired at a second past the epoch. */
  const FIRST := FirstVersion(NewTask(GUID, 0, ""), EARLY)

  lemma DesiredState(f: Faults) returns (s: State)
    ensures Reachable(f, s) && s.store == map[GUID := FIRST] && s.clock == EARLY && FIRST in s.desireKicks
    ensures "e" in s.running && "e" in s.announced && "e" in s.present && "e" in s.free && s.free["e"] == 0
    ensures s.works == [] && s.resolutions == [] && s.waits == map[] && Occurs(f, Desired)
  {
    hide Reachable, Reaches, OccursIn;
    var s0 := Start0(f, "e", 0);
    var s1 := Take(f, s0, Tick(EARLY));
    s := DesireRun(f, s1, NewTask(GUID, 0, ""));
    LastOccurs(f, s, GUID);
  }

  lemma ClaimedState(f: Faults) returns (s: State)
    ensures Reachable(f, s) && s.store == map[GUID := Claim(FIRST, "e", EARLY)] && Occurs(f, ClaimTaken)
    ensures s.clock == EARLY && "e" in s.present && "e" in s.running && "e" in s.free
    ensures s.works == [Work("e", Holding, Claim(FIRST, "e", EARLY), FIRST)] && s.resolutions == []
    ensures s.waits == map[]
  {
    hide Reachable, Reaches, OccursIn;
    var s0 := DesiredState(f);
    s := ClaimRun(f, s0, "e", FIRST);
    LastOccurs(f, s, GUID);
  }

  lemma CompletedState(f: Faults) returns (s: State)
    ensures Reachable(f, s) && s.store.Keys == {GUID} && s.clock == EARLY && Resolvable(s.store[GUID], EARLY)
    ensures s.store[GUID].guid == GUID && s.resolutions == [] && s.waits == map[]
    ensures Occurs(f, RunStarted) && Occurs(f, RunFinished)
  {
    hide Reachable, Reaches, OccursIn;
    var s1 := ClaimedState(f);
    var s2 := StartRun(f, s1, 0);
    LastOccurs(f, s2, GUID);
    s := CompleteRun(f, s2, 0, GOOD);
    LastOccurs(f, s, GUID);
  }

  lemma ResolvingState(f: Faults) returns (s: State)
    ensures Reachable(f, s) && s.store.Keys == {GUID} && s.clock == EARLY
    ensures s.store[GUID].guid == GUID && s.store[GUID].state == Resolving && s.store[GUID].updatedAt == EARLY
    ensures |s.resolutions| == 1 && s.resolutions[0].phase == Deleting && s.resolutions[0].task.guid == GUID
    ensures s.waits == map[] && Occurs(f, ResolveTaken)
  {
    hide Reachable, Reaches, OccursIn;
    var s1 := CompletedState(f);
    s := PublishRun(f, s1, s1.store[GUID]);
    LastOccurs(f, s, GUID);
  }

  lemma ClaimedRepairsOccur(f: Faults)
    ensures Occurs(f, ExecutorLost) && Occurs(f, BackToPending)
  {
    hide Reachable, Reaches, OccursIn;
    var s1 := ClaimedState(f);
    var expired := Take(f, s1, Expire("e"));
    var s2 := PassRun(f, expired, GUID, 1);
    LastOccurs(f, s2, GUID);
    var later := Take(f, s1, Tick(THIRTY_SECONDS));
    var s3 := PassRun(f, later, GUID, 1);
    LastOccurs(f, s3, GUID);
  }

  lemma ResolvingRepairOccurs(f: Faults)
    ensures Occurs(f, BackToCompleted)
  {
    hide Reachable, Reaches, OccursIn;
    var s1 := ResolvingState(f);
    var stuck := Take(f, s1, Tick(THIRTY_SECONDS));
    var s2 := PassRun(f, stuck, GUID, 1);
    LastOccurs(f, s2, GUID);
  }

  lemma TimeoutOccurs(f: Faults, timeToClaim: int)
    ensures Occurs(f, NeverClaimed(timeToClaim))
  {
    hide Reachable, Reaches, OccursIn;
    var s0 := DesiredState(f);
    var s1 := Take(f, s0, Tick(if timeToClaim < 0 then 0 else timeToClaim));
    var s2 := PassRun(f, s1, GUID, timeToClaim);
    LastOccurs(f, s2, GUID);
  }

  lemma DeletionOccurs(f: Faults)
    ensures Occurs(f, Deleted)
  {
    hide Reachable, Reaches, OccursIn;
    var s0 := ResolvingState(f);
    var s1 := Take(f, s0, DeleteReply(0, Answer));
    LastOccurs(f, s1, GUID);
  }

  /** Each edge of the state machine, a set, and a deletion. */
  lemma EveryWriteOccurs(f: Faults, c: Cause)
    ensures Occurs(f, c)
  {
    hide Occurs;
    match c
    case Desired => var s := DesiredState(f);
    case ClaimTaken => var s := ClaimedState(f);
    case RunStarted => var s := CompletedState(f);
    case RunFinished => var s := CompletedState(f);
    case ResolveTaken => var s := ResolvingState(f);
    case NeverClaimed(timeToClaim) => TimeoutOccurs(f, timeToClaim);
    case Deleted => DeletionOccurs(f);
    case BackToCompleted => ResolvingRepairOccurs(f);
    case _ => ClaimedRepairsOccur(f);
  }
}
