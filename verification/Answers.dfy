/**
From every state every stored task can still be answered, as long as compare-and-swap tells the
truth: its goroutine goes on with it, or a converge pass repairs it.
*/
module Answers {
  import opened Models
  import opened Lifecycle
  import opened Protocol
  import opened Invariants
  import opened Preservation
  import opened Capacity
  import opened Relapse
  import opened Scenarios
  import opened Theorems
  import opened Orphans

  // ---------- Going on calmly ----------

  /** `s` is on a calm way from `s0`, and nothing has been published yet. */
  ghost predicate Path(f: Faults, s0: State, s: State) {
    Reachable(f, s) && CalmReaches(f, s0, s) && s.published == s0.published
  }

  lemma PathStarts(f: Faults, s: State)
    requires Reachable(f, s)
    ensures Path(f, s, s)
  {
    assert Runs(f, s, []) && CalmRun(f, s, []) && After(f, s, []) == s;
  }

  lemma CalmStep(f: Faults, s0: State, s: State, step: Step)
    requires Reachable(f, s) && CalmReaches(f, s0, s) && Enabled(f, s, step) && Calm(s, step)
    ensures Reachable(f, Apply(f, s, step)) && CalmReaches(f, s0, Apply(f, s, step))
  {
    hide Enabled, Apply, Calm;
    ReachableStep(f, s, step);
    var run :| Runs(f, s0, run) && CalmRun(f, s0, run) && After(f, s0, run) == s;
    RunOfOne(f, s, step);
    assert [step][1..] == [];
    assert CalmRun(f, Apply(f, s, step), []);
    CalmCompose(f, s0, run, [step]);
  }

  lemma Go(f: Faults, s0: State, s: State, step: Step) returns (s': State)
    requires Path(f, s0, s) && Enabled(f, s, step) && Calm(s, step) && Apply(f, s, step).published == s.published
    ensures s' == Apply(f, s, step) && Path(f, s0, s')
  {
    hide Enabled, Apply, Calm;
    CalmStep(f, s0, s, step);
    s' := Apply(f, s, step);
  }

  lemma Rest(f: Faults, s0: State, s: State, r: Record) returns (s': State)
    requires Path(f, s0, s)
    ensures Path(f, s0, s') && s' == s.(clock := s'.clock) && s.clock <= s'.clock && Rested(s', r)
  {
    hide Path;
    s' := Go(f, s0, s, Tick(if r in s.waits && s.clock < s.waits[r] then s.waits[r] - s.clock else 0));
  }

  /** What is known of a stored task. */
  lemma StoredFacts(f: Faults, s: State, g: string)
    requires Reachable(f, s) && g in s.store
    ensures var t := s.store[g];
            && t.guid == g && WellFormed(t) && t.updatedAt <= s.clock && 0 <= t.memoryMB && Encodable(t)
            && (t.executorId == "" || t.executorId in Known(s))
  {
    ReachableInv(f, s);
    StoredIsWritten(s, g);
    WrittenFacts(s, s.store[g]);
  }

  // ---------- A goroutine goes on ----------

  /** Work `i` of a running executor is at the stored task under `g`. */
  ghost predicate InHand(s: State, g: string, i: nat) {
    g in s.store && i < |s.works| && Witness(s.works[i], s.store[g]) && s.works[i].owner in s.running
  }

  lemma AnswerWork(f: Faults, s0: State, s: State, i: nat) returns (s': State)
    requires Path(f, s0, s) && i < |s.works| && InFlight(s.works[i].phase) && Rested(s, TheWork(i))
    requires var w := s.works[i]; Holds(s, w.original) && w.task.guid == w.original.guid && w.owner in s.running
    ensures Path(f, s0, s')
    ensures var w := s.works[i];
            && Holds(s', w.task) && s'.running == s.running && |s'.works| == |s.works|
            && s'.works[i] == w.(phase := AfterSuccess(w.phase))
  {
    hide Path;
    s' := Go(f, s0, s, CasReply(i, Answer));
  }

  lemma WorkFacts(f: Faults, s: State, i: nat)
    requires Reachable(f, s) && i < |s.works| && s.works[i].phase in {Starting, Completing}
    ensures var w := s.works[i];
            && Edge(CauseOf(w.phase), w.original, w.task) && w.task.executorId == w.owner
            && w.task.guid == w.original.guid
  {
    ReachableInv(f, s);
    assert WorkOk(s, s.works[i]);
  }

  /** The next request of a work on the stored task succeeds. */
  lemma SendWork(f: Faults, s0: State, s: State, g: string, i: nat) returns (s': State)
    requires Path(f, s0, s) && InHand(s, g, i) && s.works[i].phase in {Holding, Executing}
    ensures Path(f, s0, s') && InHand(s', g, i) && s'.store == s.store && s'.running == s.running
    ensures s'.works[i].phase == if s.works[i].phase == Holding then Starting else Completing
  {
    hide Path;
    s' := Go(f, s0, s, Send(i, "container", GOOD));
  }

  lemma Advance(f: Faults, s0: State, s: State, g: string, i: nat) returns (s': State)
    requires Path(f, s0, s) && InHand(s, g, i)
    ensures Path(f, s0, s') && g in s'.store
    ensures s.store[g].state == Running ==> s'.store[g].state == Completed
    ensures s'.store[g].state == Completed || (s'.store[g].state == Running && InHand(s', g, i))
  {
    var s1 := s;
    if s.works[i].phase in {Holding, Executing} {
      s1 := SendWork(f, s0, s, g, i);
    }
    s' := FinishSent(f, s0, s1, g, i);
  }

  lemma FinishSent(f: Faults, s0: State, s: State, g: string, i: nat) returns (s': State)
    requires Path(f, s0, s) && InHand(s, g, i) && s.works[i].phase in {Starting, Completing}
    ensures Path(f, s0, s') && g in s'.store
    ensures s.store[g].state == Running ==> s'.store[g].state == Completed
    ensures s'.store[g].state == Completed || (s'.store[g].state == Running && InHand(s', g, i))
  {
    StoredFacts(f, s, g);
    WorkFacts(f, s, i);
    var s1 := Rest(f, s0, s, TheWork(i));
    s' := AnswerWork(f, s0, s1, i);
  }

  // ---------- A converge pass repairs ----------

  /** The pass goes on until every listed task has been examined. */
  lemma {:induction false} ExamineRest(f: Faults, s0: State, s: State, n: nat, g: string) returns (s': State)
    requires Path(f, s0, s) && n < |s.passes| && s.passes[n].stage == Scanning
    requires s.passes[n].todo <= s.passes[n].snapshot.Keys && g !in s.passes[n].todo && g in s.passes[n].planned
    ensures Path(f, s0, s') && s'.store == s.store && s'.clock == s.clock && n < |s'.passes|
    ensures var p, p' := s.passes[n], s'.passes[n];
            && p' == p.(todo := {}, planned := p'.planned)
            && g in p'.planned && p'.planned[g] == p.planned[g]
    decreases |s.passes[n].todo|
  {
    hide Path, Decide;
    var p := s.passes[n];
    if p.todo == {} {
      s' := s;
    } else {
      var h :| h in p.todo;
      var s1 := Go(f, s0, s, Examine(n, h));
      assert s1.passes[n].todo == p.todo - {h};
      s' := ExamineRest(f, s0, s1, n, g);
    }
  }

  /** The listings of a pass, and the examination of one task. */
  lemma ExamineFirst(f: Faults, s0: State, s: State, g: string) returns (s': State)
    requires Path(f, s0, s) && g in s.store
    ensures Path(f, s0, s') && s'.store == s.store && s'.clock == s.clock && |s'.passes| == |s.passes| + 1
    ensures var d := DecisionNow(s, g, 1);
            && s'.passes[|s.passes|] ==
                 Examined(Pass(Scanning, s.store, s.present, 1, s.clock - 1, s.store.Keys, map[], map[]), g, d)
            && (d.KickDesire? ==> s.store[g] in s'.desireKicks)
            && (d.KickComplete? ==> s.store[g] in s'.completeKicks)
    ensures s'.memory == s.memory && s'.running == s.running && s'.works == s.works && s'.resolutions == s.resolutions
    ensures s'.announced == s.announced
  {
    hide Path, Decide;
    var n := |s.passes|;
    var s1 := Go(f, s0, s, ListTasks);
    var s2 := Go(f, s0, s1, ListExecutors(n));
    var s3 := Go(f, s0, s2, ReadBoundary(n, 1));
    s' := Go(f, s0, s3, Examine(n, g));
  }

  lemma PlansKeepGuid(s: State, g: string)
    requires g in s.store && DecisionNow(s, g, 1).Swap?
    ensures DecisionNow(s, g, 1).task.guid == s.store[g].guid
  {
  }

  /** A whole pass, whose swap of `g` is applied. */
  lemma Repair(f: Faults, s0: State, s: State, g: string) returns (s': State)
    requires Path(f, s0, s) && g in s.store && s.store[g].guid == g && DecisionNow(s, g, 1).Swap?
    ensures Path(f, s0, s') && g in s'.store && s'.store[g] == Stamp(DecisionNow(s, g, 1).task, s.clock)
  {
    PlansKeepGuid(s, g);
    hide Path, Decide;
    var n := |s.passes|;
    var s1 := ExamineFirst(f, s0, s, g);
    var s2 := ExamineRest(f, s0, s1, n, g);
    s' := SwapPlanned(f, s0, s2, n, g);
  }

  /** The swap of an examined task that is still stored is stamped and applied. */
  lemma SwapPlanned(f: Faults, s0: State, s: State, n: nat, g: string) returns (s': State)
    requires Path(f, s0, s) && n < |s.passes| && s.passes[n].stage == Scanning && s.passes[n].todo == {}
    requires g in s.passes[n].planned && g in s.passes[n].snapshot && Holds(s, s.passes[n].snapshot[g])
    requires s.passes[n].planned[g].task.guid == g
    ensures Path(f, s0, s') && g in s'.store && s'.store[g] == Stamp(s.passes[n].planned[g].task, s.clock)
  {
    hide Path;
    var s1 := Go(f, s0, s, StampSwap(n, g));
    s' := Go(f, s0, s1, SwapReply(n, g, true));
  }

  /** A task whose executor's process has ended is failed by a pass that does not see it. */
  lemma RepairLost(f: Faults, s0: State, s: State, g: string) returns (s': State)
    requires Path(f, s0, s) && g in s.store && s.store[g].state in {Claimed, Running}
    requires s.store[g].executorId !in s.running
    ensures Path(f, s0, s') && g in s'.store && s'.store[g].state == Completed
  {
    StoredFacts(f, s, g);
    hide Path;
    var e, s1 := s.store[g].executorId, s;
    if e in s.present {
      s1 := Go(f, s0, s, Expire(e));
    }
    s' := Repair(f, s0, s1, g);
  }

  /** A task that has been resolving for too long is demoted. */
  lemma RepairResolving(f: Faults, s0: State, s: State, g: string) returns (s': State)
    requires Path(f, s0, s) && g in s.store && s.store[g].state == Resolving
    ensures Path(f, s0, s') && g in s'.store && s'.store[g].state == Completed
  {
    StoredFacts(f, s, g);
    hide Path;
    var s1 := Go(f, s0, s, Tick(THIRTY_SECONDS));
    s' := Repair(f, s0, s1, g);
  }

  // ---------- A new executor takes it ----------

  lemma {:induction false} LongestOf(ids: set<string>) returns (n: nat)
    ensures forall e :: e in ids ==> |e| <= n
    decreases |ids|
  {
    if ids == {} {
      n := 0;
    } else {
      var e :| e in ids;
      var m := LongestOf(ids - {e});
      n := if m < |e| then |e| else m;
    }
  }

  lemma FreshId(ids: set<string>) returns (e: string)
    ensures e != "" && e !in ids
  {
    var n := LongestOf(ids);
    e := seq(n + 1, _ => 'x');
  }

  /** A Pending task is kicked by a pass or, if it is overdue, failed by it. */
  lemma TakePending(f: Faults, s0: State, s: State, g: string) returns (s': State)
    requires Path(f, s0, s) && g in s.store && s.store[g].state == Pending
    ensures Path(f, s0, s') && g in s'.store
    ensures s'.store[g].state == Completed || (s'.store[g].state == Claimed && exists i :: InHand(s', g, i))
  {
    StoredFacts(f, s, g);
    if DecisionNow(s, g, 1).Swap? {
      s' := Repair(f, s0, s, g);
    } else {
      var i;
      s', i := TakeKicked(f, s0, s, g);
    }
  }

  lemma TakeKicked(f: Faults, s0: State, s: State, g: string) returns (s': State, i: nat)
    requires Path(f, s0, s) && g in s.store && s.store[g].state == Pending && DecisionNow(s, g, 1).KickDesire?
    ensures Path(f, s0, s') && InHand(s', g, i) && s'.store[g].state == Claimed
  {
    StoredFacts(f, s, g);
    var t := s.store[g];
    var s1, e := KickedAndBooted(f, s0, s, g);
    s', i := ClaimByFresh(f, s0, s1, e, t);
  }

  /** A pass has kicked the task and a new executor with room for it has been announced. */
  lemma KickedAndBooted(f: Faults, s0: State, s: State, g: string) returns (s': State, e: ExecutorId)
    requires Path(f, s0, s) && g in s.store && 0 <= s.store[g].memoryMB && DecisionNow(s, g, 1).KickDesire?
    ensures Path(f, s0, s') && s'.store == s.store && s'.clock == s.clock && s.store[g] in s'.desireKicks
    ensures e != "" && e in s'.running && e in s'.announced && e in s'.free && s'.free[e] == s.store[g].memoryMB
  {
    hide Path, Decide, WellFormed;
    var s1 := ExamineFirst(f, s0, s, g);
    e := FreshId(s1.memory.Keys);
    s' := BootFresh(f, s0, s1, e, s.store[g].memoryMB);
  }

  lemma ClaimByFresh(f: Faults, s0: State, s: State, e: ExecutorId, t: Task) returns (s': State, i: nat)
    requires Path(f, s0, s) && Holds(s, t) && Claimable(t, s.clock) && t in s.desireKicks
    requires e != "" && e in s.running && e in s.announced && e in s.free && s.free[e] == t.memoryMB
    ensures Path(f, s0, s') && InHand(s', t.guid, i) && s'.store[t.guid].state == Claimed
  {
    i := |s.works|;
    var s1 := SendClaim(f, s0, s, e, t);
    s' := AnswerWork(f, s0, s1, i);
  }

  lemma SendClaim(f: Faults, s0: State, s: State, e: ExecutorId, t: Task) returns (s': State)
    requires Path(f, s0, s) && Claimable(t, s.clock) && t in s.desireKicks
    requires e in s.running && e in s.announced && e in s.free && s.free[e] == t.memoryMB
    ensures Path(f, s0, s') && s'.store == s.store && s'.running == s.running && Rested(s', TheWork(|s.works|))
    ensures s'.works == s.works + [Work(e, Claiming, Claim(t, e, s.clock), t)]
  {
    NewCallsRested(f, s);
    hide Path, Claimable;
    var s1 := Go(f, s0, s, Receive(e, t));
    s' := Go(f, s0, s1, Send(|s.works|, "", GOOD));
  }

  lemma BootFresh(f: Faults, s0: State, s: State, e: ExecutorId, m: nat) returns (s': State)
    requires Path(f, s0, s) && e != "" && e !in s.memory
    ensures Path(f, s0, s') && s' == AfterAnnounce(AfterBoot(s, e, m), e)
  {
    ReachableInv(f, s);
    hide Path;
    var s1 := Go(f, s0, s, Boot(e, m));
    s' := Go(f, s0, s1, Announce(e));
  }

  // ---------- To the reply ----------

  /** A Completed task is kicked by a pass, resolved, and answered. */
  lemma Reply(f: Faults, s0: State, s: State, g: string)
    requires Path(f, s0, s) && g in s.store && s.store[g].state == Completed
    ensures Answerable(f, s0, g)
  {
    StoredFacts(f, s, g);
    var t := s.store[g];
    var s1 := KickCompleted(f, s0, s, g);
    var s2 := ResolveKicked(f, s0, s1, t);
    PublishResolved(f, s0, s2, |s1.resolutions|);
  }

  lemma KickCompleted(f: Faults, s0: State, s: State, g: string) returns (s': State)
    requires Path(f, s0, s) && g in s.store && s.store[g].state == Completed
    ensures Path(f, s0, s') && s'.store == s.store && s'.clock == s.clock && s.store[g] in s'.completeKicks
  {
    assert DecisionNow(s, g, 1).KickComplete?;
    hide Path, Decide;
    s' := ExamineFirst(f, s0, s, g);
  }

  lemma ResolveKicked(f: Faults, s0: State, s: State, t: Task) returns (s': State)
    requires Path(f, s0, s) && Holds(s, t) && Resolvable(t, s.clock) && t in s.completeKicks
    ensures Path(f, s0, s') && |s.resolutions| < |s'.resolutions|
    ensures var x := s'.resolutions[|s.resolutions|]; x.phase == Publishing && x.task.guid == t.guid
  {
    var s1 := SendKicked(f, s0, s, t);
    hide Path, Resolvable;
    s' := Go(f, s0, s1, ResolveReply(|s.resolutions|, Answer));
  }

  lemma SendKicked(f: Faults, s0: State, s: State, t: Task) returns (s': State)
    requires Path(f, s0, s) && Resolvable(t, s.clock) && t in s.completeKicks
    ensures Path(f, s0, s') && s'.store == s.store && Rested(s', TheResolution(|s.resolutions|))
    ensures s'.resolutions == s.resolutions + [Resolution(ResolveSent, Resolve(t, s.clock), t)]
  {
    NewCallsRested(f, s);
    hide Path, Resolvable;
    var s1 := Go(f, s0, s, Accept(t));
    s' := Go(f, s0, s1, SendResolve(|s.resolutions|));
  }

  lemma PublishResolved(f: Faults, s0: State, s: State, n: nat)
    requires Path(f, s0, s) && n < |s.resolutions| && s.resolutions[n].phase == Publishing
    ensures Answerable(f, s0, s.resolutions[n].task.guid)
  {
    CalmStep(f, s0, s, Publish(n, true));
    assert Answered(s0, Apply(f, s, Publish(n, true)), s.resolutions[n].task.guid);
  }

  /** Whatever state the task is in, it can still be completed. */
  lemma Finish(f: Faults, s0: State, s: State, g: string) returns (s': State)
    requires Path(f, s0, s) && g in s.store && TruthfulCas(f)
    ensures Path(f, s0, s') && g in s'.store && s'.store[g].state == Completed
  {
    StoredFacts(f, s, g);
    var t := s.store[g];
    if t.state == Completed {
      s' := s;
    } else if t.state == Resolving {
      s' := RepairResolving(f, s0, s, g);
    } else if t.state in {Claimed, Running} && t.executorId !in s.running {
      s' := RepairLost(f, s0, s, g);
    } else {
      s' := FinishWork(f, s0, s, g);
    }
  }

  lemma FinishWork(f: Faults, s0: State, s: State, g: string) returns (s': State)
    requires Path(f, s0, s) && g in s.store && TruthfulCas(f)
    requires s.store[g].state == Pending || (s.store[g].state in {Claimed, Running} && s.store[g].executorId in s.running)
    ensures Path(f, s0, s') && g in s'.store && s'.store[g].state == Completed
  {
    var s1 := s;
    if s.store[g].state == Pending {
      s1 := TakePending(f, s0, s, g);
    } else {
      Hand(f, s, g);
    }
    s' := s1;
    if s1.store[g].state != Completed {
      var i :| InHand(s1, g, i);
      var s2 := Advance(f, s0, s1, g, i);
      s' := s2;
      if s2.store[g].state != Completed {
        s' := Advance(f, s0, s2, g, i);
      }
    }
  }

  /** No orphan: a stored Claimed or Running task of a running executor is in hand there. */
  lemma Hand(f: Faults, s: State, g: string)
    requires Reachable(f, s) && TruthfulCas(f) && g in s.store
    requires s.store[g].state in {Claimed, Running} && s.store[g].executorId in s.running
    ensures exists i :: InHand(s, g, i)
  {
    ReachableEverything(f, s);
    assert Assigned(s, s.store[g].executorId, g);
    var i :| 0 <= i < |s.works| && Witness(s.works[i], s.store[g]);
    assert InHand(s, g, i);
  }

  /** Every task can be answered, exactly: from every reachable state there is a calm run to a
      reply for every stored task, if and only if compare-and-swap is truthful. */
  lemma EveryTaskAnswerable(f: Faults)
    ensures (forall s, g :: Reachable(f, s) && g in s.store ==> Answerable(f, s, g)) <==> TruthfulCas(f)
  {
    hide Answerable;
    if TruthfulCas(f) {
      forall s, g | Reachable(f, s) && g in s.store ensures Answerable(f, s, g) {
        PathStarts(f, s);
        var s' := Finish(f, s, s, g);
        Reply(f, s, s', g);
      }
    } else {
      var s := AbandonedUnanswerable(f);
    }
  }
}
