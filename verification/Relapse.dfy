/**
What a second set of one key makes possible. A key is set twice when its guid is used again, or
when a set that was applied reports a timeout and is retried.
*/
module Relapse {
  import opened Models
  import opened Lifecycle
  import opened Protocol
  import opened Scenarios

  const GUID := "task-1"
  const GOOD := Outcome(false, "", "done")
  const BAD := Outcome(true, "crashed", "")

  /** When a set that will be retried is made, and when everything else happens: the retry has
      slept for a second. */
  const EARLY := ONE_SECOND
  const NOW := EARLY + ONE_SECOND

  /** What the first set stores: a retried one was stamped a second before, a reused guid is
      desired twice at one reading of the clock. */
  function First(f: Faults): Task {
    FirstVersion(NewTask(GUID, 0, ""), if f.guidsReused then NOW else EARLY)
  }

  /** What the second set stores: the same task, stamped now. */
  function Second(f: Faults): Task {
    Stamp(First(f), NOW)
  }

  /** The version after either set has been claimed now does not show which set it was. */
  function Taken(f: Faults): Task {
    Claim(First(f), "e", NOW)
  }

  /** Executor "e" can take any kick that asks for no memory. */
  predicate Idle(s: State) {
    "e" in s.running && "e" in s.announced && "e" in s.free && s.free["e"] == 0 && s.clock == NOW
  }

  /** The key can be set again. */
  predicate Settable(f: Faults, s: State) {
    && !SetOnce(f)
    && (!f.guidsReused ==>
          && 0 < |s.submissions| && s.submissions[0] == Submission(Unstamped, First(f))
          && Rested(s, TheSubmission(0)))
  }

  lemma FirstSet(f: Faults) returns (s: State)
    requires !SetOnce(f)
    ensures Reachable(f, s) && Idle(s) && Settable(f, s)
    ensures Holds(s, First(f)) && Claimable(First(f), NOW) && First(f) in s.desireKicks
    ensures s.history == map[GUID := [Entry(Desired, First(f))]] && s.store.Keys == {GUID}
    ensures s.works == [] && s.resolutions == [] && s.published == []
  {
    hide Reachable, Reaches;
    var t := NewTask(GUID, 0, "");
    var s0 := Start0(f, "e", 0);
    if f.guidsReused {
      var s1 := Take(f, s0, Tick(NOW));
      s := DesireRun(f, s1, t);
    } else {
      var s1 := Take(f, s0, Tick(EARLY));
      var s2 := LostSetRun(f, s1, t);
      var s3 := Take(f, s2, Tick(ONE_SECOND));
      s := KickRun(f, s3, GUID);
    }
    assert HistoryOf(s, GUID) == [Entry(Desired, First(f))];
    assert s.history.Keys == {GUID};
  }

  lemma SecondSet(f: Faults, s: State) returns (s': State)
    requires Reachable(f, s) && Settable(f, s) && Idle(s)
    ensures Reachable(f, s') && Reaches(f, s, s') && Idle(s')
    ensures Holds(s', Second(f)) && Claimable(Second(f), NOW) && Second(f) in s'.desireKicks
    ensures s' == Write(s, Desired, Second(f)).(used := s'.used, submissions := s'.submissions,
                                                desireKicks := s'.desireKicks)
  {
    hide Reachable, Reaches;
    if f.guidsReused {
      s' := DesireRun(f, s, NewTask(GUID, 0, ""));
    } else {
      s' := RetrySetRun(f, s, 0);
    }
  }

  // ---------- One life ----------

  lemma StartsAppend(h: History, e: Entry)
    ensures Starts(h + [e]) == Starts(h) + One(e.cause.RunStarted?)
    ensures Starts([]) == 0
  {
    assert (h + [e])[..|h|] == h;
  }

  /** A claimed and started version of `k`. */
  function Started(k: Task): Task {
    Start(Claim(k, "e", NOW), "container", NOW)
  }

  function Done(k: Task, o: Outcome): Task {
    Complete(Started(k), o, NOW)
  }

  /** A stored Pending task is claimed and started. */
  lemma StartedRun(f: Faults, s: State, k: Task) returns (s': State)
    requires Reachable(f, s) && Idle(s) && Claimable(k, NOW) && Holds(s, k) && k.memoryMB == 0
    ensures Reachable(f, s') && Reaches(f, s, s') && TheWork(|s.works|) !in s.waits
    ensures Starts(HistoryOf(s', k.guid)) == Starts(HistoryOf(s, k.guid)) + 1
    ensures s' == s.(store := s.store[k.guid := Started(k)], history := s'.history,
                     works := s.works + [Work("e", Executing, Started(k), Claim(k, "e", NOW))])
  {
    hide Reachable, Reaches, Starts;
    ReachesChain(f);
    var g, n := k.guid, |s.works|;
    var s1 := ClaimRun(f, s, "e", k);
    assert s.free["e" := 0] == s.free;
    StartsAppend(HistoryOf(s, g), Entry(ClaimTaken, s1.store[g]));
    s' := StartRun(f, s1, n);
    StartsAppend(HistoryOf(s1, g), Entry(RunStarted, s'.store[g]));
    assert s'.works == s.works + [s'.works[n]];
  }

  /** And completed, with whatever outcome. */
  lemma CompletedRun(f: Faults, s: State, k: Task, o: Outcome) returns (s': State)
    requires Reachable(f, s) && Idle(s) && Claimable(k, NOW) && Holds(s, k) && k.memoryMB == 0
    ensures Reachable(f, s') && Reaches(f, s, s')
    ensures Starts(HistoryOf(s', k.guid)) == Starts(HistoryOf(s, k.guid)) + 1
    ensures s' == s.(store := s.store[k.guid := Done(k, o)], history := s'.history, works := s'.works,
                     completeKicks := s.completeKicks + {Done(k, o)})
  {
    hide Reachable, Reaches, Starts;
    ReachesChain(f);
    var s1 := StartedRun(f, s, k);
    s' := CompleteRun(f, s1, |s.works|, o);
    assert s.free["e" := 0] == s.free;
    StartsAppend(HistoryOf(s1, k.guid), Entry(RunFinished, s'.store[k.guid]));
  }

  /** And resolved and answered, short of being deleted. */
  lemma LifeRun(f: Faults, s: State, k: Task, o: Outcome) returns (s': State)
    requires Reachable(f, s) && Idle(s) && Claimable(k, NOW) && Holds(s, k) && k.memoryMB == 0
    ensures Reachable(f, s') && Reaches(f, s, s') && TheResolution(|s.resolutions|) !in s.waits
    ensures Starts(HistoryOf(s', k.guid)) == Starts(HistoryOf(s, k.guid)) + 1
    ensures var x := Resolve(Done(k, o), NOW);
            s' == s.(store := s.store[k.guid := x], history := s'.history, works := s'.works,
                     completeKicks := s.completeKicks + {Done(k, o)}, published := s.published + [x],
                     resolutions := s.resolutions + [Resolution(Deleting, x, Done(k, o))])
  {
    hide Reachable, Reaches, Starts;
    ReachesChain(f);
    var s1 := CompletedRun(f, s, k, o);
    s' := PublishRun(f, s1, s1.store[k.guid]);
    StartsAppend(HistoryOf(s1, k.guid), Entry(ResolveTaken, s'.store[k.guid]));
  }

  // ---------- Two lives ----------

  /** The second set starts nothing. */
  lemma SetAgain(f: Faults, s: State) returns (s': State)
    requires Reachable(f, s) && Settable(f, s) && Idle(s)
    ensures Reachable(f, s') && Reaches(f, s, s') && Idle(s') && s'.published == s.published
    ensures Holds(s', Second(f)) && Claimable(Second(f), NOW)
    ensures Starts(HistoryOf(s', GUID)) == Starts(HistoryOf(s, GUID))
  {
    hide Reachable, Reaches, Starts;
    s' := SecondSet(f, s);
    StartsAppend(HistoryOf(s, GUID), Entry(Desired, Second(f)));
  }

  /** Two lives of one guid. `mid` is the finished first life and `again` the beginning of the
      second; in the end it has been started twice and answered with different outcomes. */
  lemma TwoLives(f: Faults) returns (mid: State, again: State, s: State)
    requires !SetOnce(f)
    ensures Reachable(f, mid) && GUID in mid.store && Finished(mid.store[GUID])
    ensures Reaches(f, mid, again) && GUID in again.store && again.store[GUID].state == Pending
    ensures Reachable(f, s) && Starts(HistoryOf(s, GUID)) == 2
    ensures |s.published| == 2 && s.published[0].guid == s.published[1].guid == GUID
    ensures OutcomeOf(s.published[0]) == GOOD && OutcomeOf(s.published[1]) == BAD
  {
    hide Reachable, Reaches, Starts;
    ReachesChain(f);
    var s0 := FirstSet(f);
    StartsAppend([], Entry(Desired, First(f)));
    assert HistoryOf(s0, GUID) == [] + [Entry(Desired, First(f))];
    mid := LifeRun(f, s0, First(f), GOOD);
    again := SetAgain(f, mid);
    s := LifeRun(f, again, Second(f), BAD);
  }

  lemma SetBeforeDelete(f: Faults) returns (s: State)
    requires !SetOnce(f)
    ensures Reachable(f, s) && Holds(s, Second(f)) && Second(f).state == Pending && Second(f).guid == GUID
    ensures |s.resolutions| == 1 && s.resolutions[0].phase == Deleting && s.resolutions[0].task.guid == GUID
    ensures Rested(s, TheResolution(0))
  {
    hide Reachable, Reaches;
    var s0 := FirstSet(f);
    var s1 := LifeRun(f, s0, First(f), GOOD);
    s := SecondSet(f, s1);
  }

  /** A second set after the reply to the first: the delete that is still to come removes a
      Pending task. */
  lemma PendingDeleted(f: Faults) returns (s: State)
    requires !SetOnce(f)
    ensures Reachable(f, s) && |HistoryOf(s, GUID)| > 0
    ensures var e := HistoryOf(s, GUID)[|HistoryOf(s, GUID)| - 1]; e.cause == Deleted && e.task.state == Pending
  {
    hide Reachable, Reaches;
    var s0 := SetBeforeDelete(f);
    s := Take(f, s0, DeleteReply(0, Answer));
  }

  /** The second claim of the claimed value. */
  lemma TakenTwice(f: Faults) returns (s: State)
    requires !SetOnce(f)
    ensures Reachable(f, s) && s.clock == NOW && s.published == [] && Holds(s, Taken(f)) && "e" in s.running
    ensures HistoryOf(s, GUID) ==
              [Entry(Desired, First(f)), Entry(ClaimTaken, Taken(f)), Entry(Desired, Second(f)),
               Entry(ClaimTaken, Taken(f))]
    ensures |s.works| == 2 && s.works[1].phase == Holding && s.works[1].owner == "e" && s.works[1].task == Taken(f)
    ensures Rested(s, TheWork(1))
  {
    hide Reachable, Reaches;
    var s0 := FirstSet(f);
    var s1 := ClaimRun(f, s0, "e", First(f));
    var s2 := SecondSet(f, s1);
    s := ClaimRun(f, s2, "e", Second(f));
  }

  /** Two claims of one guid at one reading of the clock, one before the second set and one
      after it: the claimed value is stored a second time, and started from there. */
  lemma TwoClaims(f: Faults) returns (s: State, r: Task)
    requires !SetOnce(f)
    ensures Reachable(f, s) && s.clock == NOW && s.published == [] && EARLY <= First(f).createdAt
    ensures HistoryOf(s, GUID) ==
              [Entry(Desired, First(f)), Entry(ClaimTaken, Taken(f)), Entry(Desired, Second(f)),
               Entry(ClaimTaken, Taken(f)), Entry(RunStarted, r)]
  {
    hide Reachable, Reaches;
    var s0 := TakenTwice(f);
    s := StartRun(f, s0, 1);
    r := s.store[GUID];
  }
}
