/** Runs that can be taken: undisturbed calls, and what each fault of the environment makes possible. */
module Scenarios {
  import opened Models
  import opened Lifecycle
  import opened Protocol

  /** The task a stager builds for a staging request. */
  function NewTask(guid: string, memoryMB: nat, replyTo: string): Task {
    Task(guid, None, "", 0, memoryMB, 0, LogConfig("", "", None), 0, 0, Invalid, replyTo, "", "", "", false, "")
  }

  lemma Take(f: Faults, s: State, step: Step) returns (s': State)
    requires Reachable(f, s) && Enabled(f, s, step)
    ensures s' == Apply(f, s, step) && Reachable(f, s') && Reaches(f, s, s')
  {
    ReachableStep(f, s, step);
    s' := Apply(f, s, step);
  }

  lemma Start0(f: Faults, e: ExecutorId, m: nat) returns (s: State)
    requires e != ""
    ensures Reachable(f, s) && s == AfterAnnounce(AfterBoot(INITIAL, e, m), e)
  {
    ReachesSelf(f, INITIAL);
    s := Take(f, INITIAL, Boot(e, m));
    s := Take(f, s, Announce(e));
  }

  /** What DesireTask stores for `t` when nothing delays it. */
  function FirstVersion(t: Task, now: int): Task {
    Desire(Create(t, now), now)
  }

  /** A desire whose set is acknowledged: the task is stored as Pending and kicked. */
  lemma DesireRun(f: Faults, s: State, t: Task) returns (s': State)
    requires Reachable(f, s) && Enabled(f, s, Submit(t))
    ensures Reachable(f, s') && Reaches(f, s, s')
    ensures var v := FirstVersion(t, s.clock);
            var s1 := Write(s, Desired, v);
            s' == s1.(used := s.used + {t.guid}, submissions := s.submissions + [Submission(Submitted, v)],
                      desireKicks := s.desireKicks + {v})
  {
    hide Reachable, Reaches;
    ReachesChain(f);
    NewCallsRested(f, s);
    var n := |s.submissions|;
    var s1 := Take(f, s, Submit(t));
    var s2 := StampRun(f, s1, n);
    s' := Take(f, s2, SetReply(n, Answer));
    assert s'.submissions == s.submissions + [Submission(Submitted, FirstVersion(t, s.clock))];
  }

  /** A desire whose set is applied but reported as a timeout, up to the retry. */
  lemma LostSetRun(f: Faults, s: State, t: Task) returns (s': State)
    requires Reachable(f, s) && Enabled(f, s, Submit(t)) && f.lostSetAcks
    ensures Reachable(f, s') && Reaches(f, s, s')
    ensures var v := FirstVersion(t, s.clock);
            s' == Write(s, Desired, v).(used := s.used + {t.guid}, submissions := s.submissions + [Submission(Unstamped, v)],
                                           waits := s.waits[TheSubmission(|s.submissions|) := s.clock + ONE_SECOND])
  {
    hide Reachable, Reaches;
    ReachesChain(f);
    NewCallsRested(f, s);
    var n := |s.submissions|;
    var s1 := Take(f, s, Submit(t));
    var s2 := StampRun(f, s1, n);
    s' := Take(f, s2, SetReply(n, Timeout(true)));
    assert s'.submissions == s.submissions + [Submission(Unstamped, FirstVersion(t, s.clock))];
  }

  /** A submission stamps its task, for the first time or for a retry. */
  lemma StampRun(f: Faults, s: State, i: nat) returns (s': State)
    requires Reachable(f, s) && i < |s.submissions| && s.submissions[i].phase == Unstamped && Rested(s, TheSubmission(i))
    ensures Reachable(f, s') && Reaches(f, s, s')
    ensures s' == s.(submissions := s.submissions[i := Submission(Setting, FirstVersion(s.submissions[i].task, s.clock))])
  {
    hide Reachable, Reaches;
    ReachesChain(f);
    var s1 := Take(f, s, StampCreated(i));
    s' := Take(f, s1, StampDesire(i));
  }

  /** The retry of a set: it stores the task again. */
  lemma RetrySetRun(f: Faults, s: State, i: nat) returns (s': State)
    requires Reachable(f, s) && i < |s.submissions| && s.submissions[i].phase == Unstamped && Rested(s, TheSubmission(i))
    ensures Reachable(f, s') && Reaches(f, s, s')
    ensures var v := FirstVersion(s.submissions[i].task, s.clock);
            s' == Write(s, Desired, v).(submissions := s.submissions[i := Submission(Submitted, v)],
                                        desireKicks := s.desireKicks + {v})
  {
    hide Reachable, Reaches;
    ReachesChain(f);
    var s1 := StampRun(f, s, i);
    s' := Take(f, s1, SetReply(i, Answer));
  }

  /** A kick is received and its claim is on its way to the store. */
  lemma SendClaimRun(f: Faults, s: State, e: ExecutorId, k: Task) returns (s': State)
    requires Reachable(f, s) && Enabled(f, s, Receive(e, k))
    ensures Reachable(f, s') && Reaches(f, s, s')
    ensures s' == s.(free := s.free[e := s.free[e] - k.memoryMB], late := s'.late,
                     works := s.works + [Work(e, Claiming, Claim(k, e, s.clock), k)])
    ensures (e in s.announced ==> s'.late == s.late) && TheWork(|s.works|) !in s.waits
  {
    hide Reachable, Reaches;
    ReachesChain(f);
    NewCallsRested(f, s);
    var n := |s.works|;
    var s1 := Take(f, s, Receive(e, k));
    s' := Take(f, s1, Send(n, "", Outcome(false, "", "")));
    assert s'.works == s.works + [s'.works[n]];
  }

  /** A requested task that is stored is claimed by an executor with room for it. */
  lemma ClaimRun(f: Faults, s: State, e: ExecutorId, k: Task) returns (s': State)
    requires Reachable(f, s) && Enabled(f, s, Receive(e, k)) && Holds(s, k)
    ensures Reachable(f, s') && Reaches(f, s, s')
    ensures var c := Claim(k, e, s.clock);
            s' == Write(s, ClaimTaken, c).(free := s.free[e := s.free[e] - k.memoryMB], late := s'.late,
                                           works := s.works + [Work(e, Holding, c, k)])
    ensures (e in s.announced ==> s'.late == s.late) && TheWork(|s.works|) !in s.waits
  {
    hide Reachable, Reaches;
    ReachesChain(f);
    var n := |s.works|;
    var s1 := SendClaimRun(f, s, e, k);
    s' := Take(f, s1, CasReply(n, Answer));
    assert s'.works == s.works + [Work(e, Holding, Claim(k, e, s.clock), k)];
  }

  /** A claimed task that is still stored is started. */
  lemma StartRun(f: Faults, s: State, i: nat) returns (s': State)
    requires Reachable(f, s) && i < |s.works| && s.works[i].phase == Holding && s.works[i].owner in s.running
    requires Holds(s, s.works[i].task) && Rested(s, TheWork(i))
    ensures Reachable(f, s') && Reaches(f, s, s')
    ensures var w := s.works[i];
            var r := Start(w.task, "container", s.clock);
            s' == Write(s, RunStarted, r).(works := s.works[i := Work(w.owner, Executing, r, w.task)])
  {
    hide Reachable, Reaches;
    ReachesChain(f);
    var s1 := Take(f, s, Send(i, "container", Outcome(false, "", "")));
    s' := Take(f, s1, CasReply(i, Answer));
  }

  /** A started task that is still stored is completed and kicked. */
  lemma FinishRun(f: Faults, s: State, i: nat, o: Outcome) returns (s': State)
    requires Reachable(f, s) && i < |s.works| && s.works[i].phase == Executing && s.works[i].owner in s.running
    requires Holds(s, s.works[i].task) && Rested(s, TheWork(i))
    ensures Reachable(f, s') && Reaches(f, s, s')
    ensures var w := s.works[i];
            var d := Complete(w.task, o, s.clock);
            s' == Write(s, RunFinished, d).(works := s.works[i := Work(w.owner, Releasing, d, w.task)],
                                            completeKicks := s.completeKicks + {d})
  {
    hide Reachable, Reaches;
    ReachesChain(f);
    var s1 := Take(f, s, Send(i, "", o));
    s' := Take(f, s1, CasReply(i, Answer));
  }

  /** And its memory is released. */
  lemma CompleteRun(f: Faults, s: State, i: nat, o: Outcome) returns (s': State)
    requires Reachable(f, s) && i < |s.works| && s.works[i].phase == Executing
    requires s.works[i].owner in s.running && s.works[i].owner in s.free && Holds(s, s.works[i].task)
    requires Rested(s, TheWork(i))
    ensures Reachable(f, s') && Reaches(f, s, s')
    ensures var w := s.works[i];
            var d := Complete(w.task, o, s.clock);
            s' == Write(s, RunFinished, d).(works := s.works[i := Work(w.owner, WorkOver, d, w.task)],
                                            free := s.free[w.owner := s.free[w.owner] + d.memoryMB],
                                            completeKicks := s.completeKicks + {d})
  {
    hide Reachable, Reaches;
    ReachesChain(f);
    var s1 := FinishRun(f, s, i, o);
    s' := Take(f, s1, Release(i));
  }

  /** A swap is applied and reported as a timeout; the retry, a second later, finds another value. */
  lemma LostAnswerRun(f: Faults, s: State, i: nat) returns (s': State)
    requires f.lostCasAcks && Reachable(f, s) && i < |s.works| && InFlight(s.works[i].phase) && Rested(s, TheWork(i))
    requires var w := s.works[i]; Holds(s, w.original) && w.original.guid == w.task.guid && w.original != w.task
    ensures Reachable(f, s') && Reaches(f, s, s')
    ensures var w := s.works[i];
            s' == Write(s, CauseOf(w.phase), w.task).(clock := s.clock + ONE_SECOND,
                                                      works := s.works[i := w.(phase := Releasing)],
                                                      waits := s.waits[TheWork(i) := s.clock + ONE_SECOND])
  {
    hide Reachable, Reaches;
    ReachesChain(f);
    var s1 := Take(f, s, CasReply(i, Timeout(true)));
    var s2 := Take(f, s1, Tick(ONE_SECOND));
    s' := Take(f, s2, CasReply(i, Answer));
  }

  /** A start is not applied and reports a failure. */
  lemma FailedStartRun(f: Faults, s: State, i: nat) returns (s': State)
    requires f.casFailures && Reachable(f, s) && i < |s.works| && s.works[i].phase == Holding
    requires s.works[i].owner in s.running && Rested(s, TheWork(i))
    ensures Reachable(f, s') && Reaches(f, s, s')
    ensures var w := s.works[i];
            s' == s.(works := s.works[i := Work(w.owner, Releasing, Start(w.task, "container", s.clock), w.task)])
  {
    hide Reachable, Reaches;
    ReachesChain(f);
    var s1 := Take(f, s, Send(i, "container", Outcome(false, "", "")));
    s' := Take(f, s1, CasReply(i, Failure(false)));
  }

  /** A completion kick is accepted and its resolve is on its way to the store. */
  lemma SendResolveRun(f: Faults, s: State, k: Task) returns (s': State)
    requires Reachable(f, s) && Resolvable(k, s.clock)
    ensures Reachable(f, s') && Reaches(f, s, s') && TheResolution(|s.resolutions|) !in s.waits
    ensures s' == s.(resolutions := s.resolutions + [Resolution(ResolveSent, Resolve(k, s.clock), k)])
  {
    hide Reachable, Reaches;
    ReachesChain(f);
    NewCallsRested(f, s);
    var n := |s.resolutions|;
    var s1 := Take(f, s, Accept(k));
    s' := Take(f, s1, SendResolve(n));
    assert s'.resolutions == s.resolutions + [Resolution(ResolveSent, Resolve(k, s.clock), k)];
  }

  /** A kicked Completed task that is still stored is resolved and its reply published. */
  lemma PublishRun(f: Faults, s: State, k: Task) returns (s': State)
    requires Reachable(f, s) && Resolvable(k, s.clock) && Holds(s, k)
    ensures Reachable(f, s') && Reaches(f, s, s') && TheResolution(|s.resolutions|) !in s.waits
    ensures var x := Resolve(k, s.clock);
            s' == Write(s, ResolveTaken, x).(published := s.published + [x],
                                             resolutions := s.resolutions + [Resolution(Deleting, x, k)])
  {
    hide Reachable, Reaches;
    ReachesChain(f);
    var n := |s.resolutions|;
    var s1 := SendResolveRun(f, s, k);
    var s2 := Take(f, s1, ResolveReply(n, Answer));
    s' := Take(f, s2, Publish(n, true));
    assert s'.resolutions == s.resolutions + [Resolution(Deleting, Resolve(k, s.clock), k)];
  }

  /** A converge pass, up to its scan. */
  lemma ScanRun(f: Faults, s: State, timeToClaim: int) returns (s': State)
    requires Reachable(f, s)
    ensures Reachable(f, s') && Reaches(f, s, s')
    ensures s' == s.(passes := s.passes + [Pass(Scanning, s.store, s.present, timeToClaim, s.clock - timeToClaim,
                                                s.store.Keys, map[], map[])])
  {
    hide Reachable, Reaches;
    ReachesChain(f);
    var n := |s.passes|;
    var s1 := Take(f, s, ListTasks);
    var s2 := Take(f, s1, ListExecutors(n));
    s' := Take(f, s2, ReadBoundary(n, timeToClaim));
    assert s'.passes == s.passes + [s'.passes[n]];
  }

  /** A converge pass kicks a Pending task that is not overdue. */
  lemma KickRun(f: Faults, s: State, g: string) returns (s': State)
    requires Reachable(f, s) && g in s.store && s.store[g].state == Pending
    ensures Reachable(f, s') && Reaches(f, s, s')
    ensures s' == s.(passes := s'.passes, desireKicks := s.desireKicks + {s.store[g]})
  {
    hide Reachable, Reaches;
    ReachesChain(f);
    var s1 := ScanRun(f, s, s.clock - s.store[g].createdAt + 1);
    s' := Take(f, s1, Examine(|s.passes|, g));
  }

  /** The last examined swap of a pass is stamped and applied. */
  lemma SwapRun(f: Faults, s: State, i: nat, g: string) returns (s': State)
    requires Reachable(f, s) && i < |s.passes| && s.passes[i].stage == Scanning && s.passes[i].todo == {}
    requires g in s.passes[i].planned && g in s.passes[i].snapshot && Holds(s, s.passes[i].snapshot[g])
    ensures Reachable(f, s') && Reaches(f, s, s')
    ensures var plan := s.passes[i].planned[g];
            s' == Write(s, plan.cause, Stamp(plan.task, s.clock)).(passes := s'.passes)
  {
    hide Reachable, Reaches;
    ReachesChain(f);
    var s1 := Take(f, s, StampSwap(i, g));
    s' := Take(f, s1, SwapReply(i, g, true));
  }

  /** What a pass starting now decides for the task stored under `g`. */
  function DecisionNow(s: State, g: string, timeToClaim: int): Decision
    requires g in s.store
  {
    Decide(s.store[g], s.clock - timeToClaim, timeToClaim, s.store[g].executorId in s.present, s.clock)
  }

  /** A converge pass has examined the one stored task and plans to swap it. */
  lemma PlanRun(f: Faults, s: State, g: string, timeToClaim: int) returns (s': State)
    requires Reachable(f, s) && s.store.Keys == {g} && DecisionNow(s, g, timeToClaim).Swap?
    ensures Reachable(f, s') && Reaches(f, s, s')
    ensures var d := DecisionNow(s, g, timeToClaim);
            s' == s.(passes := s.passes + [Pass(Scanning, s.store, s.present, timeToClaim, s.clock - timeToClaim,
                                                {}, map[g := Plan(d.cause, d.task)], map[])])
  {
    hide Reachable, Reaches, Decide;
    ReachesChain(f);
    var n := |s.passes|;
    var s1 := ScanRun(f, s, timeToClaim);
    s' := Take(f, s1, Examine(n, g));
    assert s'.passes[n].todo == {};
    assert s'.passes == s.passes + [s'.passes[n]];
  }

  /** An undisturbed converge pass over one task that it decides to swap. */
  lemma PassRun(f: Faults, s: State, g: string, timeToClaim: int) returns (s': State)
    requires Reachable(f, s) && s.store.Keys == {g} && s.store[g].guid == g && DecisionNow(s, g, timeToClaim).Swap?
    ensures Reachable(f, s') && Reaches(f, s, s')
    ensures var d := DecisionNow(s, g, timeToClaim);
            s' == Write(s, d.cause, Stamp(d.task, s.clock)).(passes := s'.passes)
  {
    hide Reachable, Reaches, Decide;
    ReachesChain(f);
    var s1 := PlanRun(f, s, g, timeToClaim);
    s' := SwapRun(f, s1, |s.passes|, g);
  }
}
