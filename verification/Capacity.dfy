/**
Memory accounting of every executor, and what it means for the tasks in the store: as long
as compare-and-swap tells the truth, each stored Claimed or Running task of a running
executor is held by a goroutine there, so together they fit its memory.
*/
module Capacity {
  import opened Models
  import opened Protocol
  import opened Invariants
  import opened Preservation

  // ---------- Sums ----------

  function Total(ws: seq<int>): int
    decreases |ws|
  {
    if ws == [] then 0 else Total(ws[..|ws| - 1]) + ws[|ws| - 1]
  }

  lemma {:induction false} TotalUpdate(ws: seq<int>, i: nat, x: int)
    requires i < |ws|
    ensures Total(ws[i := x]) == Total(ws) - ws[i] + x
    decreases |ws|
  {
    var n := |ws| - 1;
    if i == n {
      assert ws[i := x][..n] == ws[..n];
    } else {
      assert ws[i := x][..n] == ws[..n][i := x];
      TotalUpdate(ws[..n], i, x);
    }
  }

  lemma TotalAppend(ws: seq<int>, x: int)
    ensures Total(ws + [x]) == Total(ws) + x
  {
    assert (ws + [x])[..|ws|] == ws;
  }

  lemma {:induction false} TotalZero(ws: seq<int>)
    requires forall i :: 0 <= i < |ws| ==> ws[i] == 0
    ensures Total(ws) == 0
    decreases |ws|
  {
    if ws != [] { TotalZero(ws[..|ws| - 1]); }
  }

  // ---------- Reservations ----------

  /** What this work has taken out of the memory of `e`. */
  function Reservation(w: Work, e: ExecutorId): int {
    if w.owner == e && w.phase != WorkOver then w.task.memoryMB else 0
  }

  function Reservations(works: seq<Work>, e: ExecutorId): seq<int> {
    seq(|works|, i requires 0 <= i < |works| => Reservation(works[i], e))
  }

  function Held(works: seq<Work>, e: ExecutorId): int {
    Total(Reservations(works, e))
  }

  lemma HeldPut(works: seq<Work>, i: nat, w: Work, e: ExecutorId)
    requires i <= |works|
    ensures Held(Put(works, i, w), e)
            == Held(works, e) + Reservation(w, e) - if i < |works| then Reservation(works[i], e) else 0
  {
    if i < |works| {
      assert Reservations(works[i := w], e) == Reservations(works, e)[i := Reservation(w, e)];
      TotalUpdate(Reservations(works, e), i, Reservation(w, e));
    } else {
      assert Reservations(works + [w], e) == Reservations(works, e) + [Reservation(w, e)];
      TotalAppend(Reservations(works, e), Reservation(w, e));
    }
  }

  /** Conservation of memory: what is free and what is reserved make up the capacity. */
  ghost predicate MemoryInv(s: State) {
    forall e :: e in s.running && e in s.memory && e in s.free ==>
      s.free[e] + Held(s.works, e) == s.memory[e] && 0 <= s.free[e]
  }

  lemma BootKeepsMemory(s: State, e: ExecutorId, m: nat)
    requires Inv(s) && MemoryInv(s) && e !in s.memory
    ensures MemoryInv(AfterBoot(s, e, m))
  {
    forall i | 0 <= i < |s.works| ensures Reservations(s.works, e)[i] == 0 {
      assert WorkOk(s, s.works[i]);
    }
    TotalZero(Reservations(s.works, e));
  }

  lemma CrashKeepsMemory(s: State, e: ExecutorId, lost: set<nat>)
    requires MemoryInv(s) && forall i :: i in lost ==> i < |s.works| && s.works[i].owner == e
    ensures MemoryInv(AfterCrash(s, e, lost))
  {
    var s' := AfterCrash(s, e, lost);
    forall d | d in s'.running ensures Reservations(s'.works, d) == Reservations(s.works, d) {
    }
  }

  lemma ReceiveKeepsMemory(s: State, e: ExecutorId, t: Task)
    requires MemoryInv(s) && e in s.free && t.memoryMB <= s.free[e]
    ensures MemoryInv(AfterReceive(s, e, t))
  {
    var s' := AfterReceive(s, e, t);
    forall d | d in s'.running && d in s'.memory && d in s'.free
      ensures s'.free[d] + Held(s'.works, d) == s'.memory[d] && 0 <= s'.free[d]
    {
      HeldPut(s.works, |s.works|, Work(e, Reserved, t, t), d);
    }
  }

  /** A step that only moves a work along, with the same owner and the same memory. */
  lemma MoveKeepsMemory(s: State, s': State, i: nat, w: Work)
    requires MemoryInv(s) && i < |s.works| && s'.works == s.works[i := w]
    requires s'.running == s.running && s'.memory == s.memory && s'.free == s.free
    requires w.owner == s.works[i].owner && w.task.memoryMB == s.works[i].task.memoryMB
    requires w.phase == WorkOver <==> s.works[i].phase == WorkOver
    ensures MemoryInv(s')
  {
    forall d | d in s'.running && d in s'.memory && d in s'.free
      ensures s'.free[d] + Held(s'.works, d) == s'.memory[d]
    {
      HeldPut(s.works, i, w, d);
    }
  }

  lemma ReleaseKeepsMemory(s: State, i: nat)
    requires Inv(s) && MemoryInv(s) && i < |s.works| && s.works[i].owner in s.free && s.works[i].phase == Releasing
    ensures MemoryInv(AfterRelease(s, i))
  {
    assert WorkOk(s, s.works[i]);
    var s' := AfterRelease(s, i);
    forall d | d in s'.running && d in s'.memory && d in s'.free
      ensures s'.free[d] + Held(s'.works, d) == s'.memory[d] && 0 <= s'.free[d]
    {
      HeldPut(s.works, i, s.works[i].(phase := WorkOver), d);
    }
  }

  lemma CasKeepsMemory(s: State, i: nat, r: Reply)
    requires MemoryInv(s) && i < |s.works| && InFlight(s.works[i].phase)
    ensures MemoryInv(AfterCas(s, i, r))
  {
    assert s.works[i := s.works[i]] == s.works;
    MoveKeepsMemory(s, AfterCas(s, i, r), i, AfterCas(s, i, r).works[i]);
  }

  lemma SameExecutorsKeepMemory(s: State, s': State)
    requires MemoryInv(s) && SameExecutors(s, s')
    ensures MemoryInv(s')
  {
  }

  lemma StepKeepsMemory(f: Faults, s: State, step: Step)
    requires Inv(s) && MemoryInv(s) && Enabled(f, s, step)
    ensures MemoryInv(Apply(f, s, step))
  {
    hide Inv, MemoryInv;
    if !OfExecutors(step) {
      ExecutorsUntouched(f, s, step);
      SameExecutorsKeepMemory(s, Apply(f, s, step));
      return;
    }
    match step
    case Boot(e, m) => BootKeepsMemory(s, e, m);
    case Crash(e, lost) => CrashKeepsMemory(s, e, lost);
    case Receive(e, t) => ReceiveKeepsMemory(s, e, t);
    case Send(i, h, o) => MoveKeepsMemory(s, AfterSend(s, i, h, o), i, Sent(s.works[i], s.clock, h, o));
    case CasReply(i, r) => CasKeepsMemory(s, i, r);
    case Release(i) => ReleaseKeepsMemory(s, i);
  }

  // ---------- No orphaned work ----------

  /** This work will next compare the store with exactly the stored value `t`. */
  predicate Witness(w: Work, t: Task) {
    w.phase in {Holding, Starting, Executing, Completing} && w.owner == t.executorId && Expected(w) == t
  }

  predicate Assigned(s: State, e: ExecutorId, g: string) {
    g in s.store && s.store[g].state in {Claimed, Running} && s.store[g].executorId == e
  }

  ghost predicate Witnessed(s: State, g: string)
    requires g in s.store
  {
    exists i :: 0 <= i < |s.works| && Witness(s.works[i], s.store[g])
  }

  /** Every stored Claimed or Running task of a running executor is in somebody's hands there. */
  ghost predicate NoOrphan(s: State) {
    forall e, g :: e in s.running && Assigned(s, e, g) ==> Witnessed(s, g)
  }

  /** The works that witness something go on doing so, and nothing new needs a witness. */
  lemma WitnessesStay(s: State, s': State)
    requires NoOrphan(s) && s'.running <= s.running
    requires forall g, e :: Assigned(s', e, g) && e in s'.running ==> g in s.store && s.store[g] == s'.store[g]
    requires |s.works| <= |s'.works|
    requires forall i, g ::
               (&& 0 <= i < |s.works|
                && g in s.store && g in s'.store && s'.store[g] == s.store[g]
                && s.store[g].executorId in s'.running
                && Witness(s.works[i], s.store[g])) ==> Witness(s'.works[i], s.store[g])
    ensures NoOrphan(s')
  {
    forall e, g | e in s'.running && Assigned(s', e, g) ensures Witnessed(s', g) {
      assert Assigned(s, e, g);
      var i :| 0 <= i < |s.works| && Witness(s.works[i], s.store[g]);
      assert Witness(s'.works[i], s'.store[g]);
    }
  }

  lemma GuidsMatch(s: State)
    requires StoreInv(s)
    ensures forall g :: g in s.store ==> s.store[g].guid == g
  {
    forall g | g in s.store ensures s.store[g].guid == g {
      StoredIsWritten(s, g);
    }
  }

  lemma WonCasKeepsNoOrphan(s: State, i: nat)
    requires Inv(s) && NoOrphan(s) && i < |s.works| && InFlight(s.works[i].phase) && Holds(s, s.works[i].original)
    ensures NoOrphan(AfterCas(s, i, Answer))
  {
    var s', w := AfterCas(s, i, Answer), s.works[i];
    assert WorkOk(s, w);
    GuidsMatch(s);
    forall e, g | e in s'.running && Assigned(s', e, g) ensures Witnessed(s', g) {
      if g == w.task.guid {
        assert Witness(s'.works[i], s'.store[g]);
      } else {
        assert Assigned(s, e, g);
        var k :| 0 <= k < |s.works| && Witness(s.works[k], s.store[g]);
        assert Witness(s'.works[k], s'.store[g]);
      }
    }
  }

  lemma CasKeepsNoOrphan(s: State, i: nat)
    requires Inv(s) && NoOrphan(s) && i < |s.works| && InFlight(s.works[i].phase)
    ensures NoOrphan(AfterCas(s, i, Answer))
  {
    if Holds(s, s.works[i].original) {
      WonCasKeepsNoOrphan(s, i);
    } else {
      LostCasKeepsNoOrphan(s, i);
    }
  }

  lemma LostCasKeepsNoOrphan(s: State, i: nat)
    requires Inv(s) && NoOrphan(s) && i < |s.works| && InFlight(s.works[i].phase) && !Holds(s, s.works[i].original)
    ensures NoOrphan(AfterCas(s, i, Answer))
  {
    GuidsMatch(s);
    WitnessesStay(s, AfterCas(s, i, Answer));
  }

  lemma SwapKeepsNoOrphan(s: State, i: nat, g: string, applied: bool)
    requires Inv(s) && NoOrphan(s) && i < |s.passes| && g in s.passes[i].sent && g in s.passes[i].snapshot
    ensures NoOrphan(AfterSwap(s, i, g, applied))
  {
    assert PassOk(s, s.passes[i]);
    SentSwapOk(s, s.passes[i], g);
    hide Inv, PassOk;
    WitnessesStay(s, AfterSwap(s, i, g, applied));
  }

  lemma BootKeepsNoOrphan(s: State, e: ExecutorId, m: nat)
    requires Inv(s) && NoOrphan(s) && e !in s.memory
    ensures NoOrphan(AfterBoot(s, e, m))
  {
    var s' := AfterBoot(s, e, m);
    forall d, g | d in s'.running && Assigned(s', d, g) ensures Witnessed(s', g) {
      StoredIsWritten(s, g);
      WrittenFacts(s, s.store[g]);
      assert Assigned(s, d, g);
      var k :| 0 <= k < |s.works| && Witness(s.works[k], s.store[g]);
      assert Witness(s'.works[k], s'.store[g]);
    }
  }

  /** Store writes by stagers never make a task Claimed or Running. */
  lemma SetKeepsNoOrphan(s: State, i: nat, r: Reply)
    requires Inv(s) && NoOrphan(s) && i < |s.submissions| && s.submissions[i].phase == Setting
    ensures NoOrphan(AfterSet(s, i, r))
  {
    assert SubmissionOk(s, s.submissions[i]);
    WitnessesStay(s, AfterSet(s, i, r));
  }

  lemma ResolveKeepsNoOrphan(s: State, i: nat, r: Reply)
    requires Inv(s) && NoOrphan(s) && i < |s.resolutions| && s.resolutions[i].phase == ResolveSent
    ensures NoOrphan(AfterResolve(s, i, r))
  {
    assert ResolutionOk(s, s.resolutions[i]);
    WitnessesStay(s, AfterResolve(s, i, r));
  }

  lemma ExecutorsKeepNoOrphan(f: Faults, s: State, step: Step)
    requires Inv(s) && NoOrphan(s) && Enabled(f, s, step) && OfExecutors(step) && !f.lostCasAcks && !f.casFailures
    ensures NoOrphan(Apply(f, s, step))
  {
    hide Inv, NoOrphan;
    match step
    case Boot(e, m) => BootKeepsNoOrphan(s, e, m);
    case Crash(e, lost) => CrashKeepsNoOrphan(s, e, lost);
    case Receive(e, t) => MovesKeepNoOrphan(s, 0, e, t, "", Outcome(false, "", ""));
    case Send(i, h, o) => MovesKeepNoOrphan(s, i, "", s.works[i].task, h, o);
    case CasReply(i, r) =>
      if r.Answer? {
        CasKeepsNoOrphan(s, i);
      } else {
        LateAnswerKeepsNoOrphan(s, i);
      }
    case Release(i) => ReleaseKeepsNoOrphan(s, i);
  }

  lemma CrashKeepsNoOrphan(s: State, e: ExecutorId, lost: set<nat>)
    requires NoOrphan(s) && forall i :: i in lost ==> i < |s.works| && s.works[i].owner == e
    ensures NoOrphan(AfterCrash(s, e, lost))
  {
    WitnessesStay(s, AfterCrash(s, e, lost));
  }

  lemma MovesKeepNoOrphan(s: State, i: nat, e: ExecutorId, t: Task, handle: string, o: Outcome)
    requires NoOrphan(s)
    ensures e in s.free ==> NoOrphan(AfterReceive(s, e, t))
    ensures i < |s.works| && s.works[i].phase in {Reserved, Holding, Executing} ==> NoOrphan(AfterSend(s, i, handle, o))
  {
    if e in s.free {
      WitnessesStay(s, AfterReceive(s, e, t));
    }
    if i < |s.works| && s.works[i].phase in {Reserved, Holding, Executing} {
      WitnessesStay(s, AfterSend(s, i, handle, o));
    }
  }

  lemma LateAnswerKeepsNoOrphan(s: State, i: nat)
    requires NoOrphan(s) && i < |s.works| && InFlight(s.works[i].phase)
    ensures NoOrphan(AfterCas(s, i, Timeout(false)))
  {
    WitnessesStay(s, AfterCas(s, i, Timeout(false)));
  }

  lemma ReleaseKeepsNoOrphan(s: State, i: nat)
    requires NoOrphan(s) && i < |s.works| && s.works[i].phase == Releasing && s.works[i].owner in s.free
    ensures NoOrphan(AfterRelease(s, i))
  {
    WitnessesStay(s, AfterRelease(s, i));
  }

  lemma NothingMovesKeepsNoOrphan(s: State, s': State)
    requires NoOrphan(s) && SameExecutors(s, s') && s'.store == s.store
    ensures NoOrphan(s')
  {
    WitnessesStay(s, s');
  }

  lemma DeleteKeepsNoOrphan(s: State, i: nat, r: Reply)
    requires NoOrphan(s) && i < |s.resolutions|
    ensures NoOrphan(AfterDelete(s, i, r))
  {
    WitnessesStay(s, AfterDelete(s, i, r));
  }

  lemma StepKeepsNoOrphan(f: Faults, s: State, step: Step)
    requires Inv(s) && NoOrphan(s) && Enabled(f, s, step) && !f.lostCasAcks && !f.casFailures
    ensures NoOrphan(Apply(f, s, step))
  {
    hide Inv, NoOrphan;
    if OfExecutors(step) {
      ExecutorsKeepNoOrphan(f, s, step);
    } else if !OfStore(step) {
      ExecutorsUntouched(f, s, step);
      StoreUntouched(f, s, step);
      NothingMovesKeepsNoOrphan(s, Apply(f, s, step));
    } else {
      match step
      case SetReply(i, r) => SetKeepsNoOrphan(s, i, r);
      case ResolveReply(i, r) => ResolveKeepsNoOrphan(s, i, r);
      case DeleteReply(i, r) => DeleteKeepsNoOrphan(s, i, r);
      case SwapReply(i, g, applied) => SwapKeepsNoOrphan(s, i, g, applied);
    }
  }

  // ---------- Capacity ----------

  /** Memory of a set of stored tasks. */
  ghost function MemoryOf(store: map<string, Task>, gs: set<string>): int
    requires gs <= store.Keys
  {
    if gs == {} then 0 else var g :| g in gs; store[g].memoryMB + MemoryOf(store, gs - {g})
  }

  lemma MemoryOfRemove(store: map<string, Task>, gs: set<string>, g: string)
    requires gs <= store.Keys && g in gs
    ensures MemoryOf(store, gs) == store[g].memoryMB + MemoryOf(store, gs - {g})
    decreases |gs|
  {
    var h :| h in gs && MemoryOf(store, gs) == store[h].memoryMB + MemoryOf(store, gs - {h});
    if h != g {
      MemoryOfRemove(store, gs - {h}, g);
      MemoryOfRemove(store, gs - {g}, h);
      assert gs - {h} - {g} == gs - {g} - {h};
    }
  }

  /** What the store says executor `e` is using. */
  ghost function Load(s: State, e: ExecutorId): int {
    MemoryOf(s.store, set g | g in s.store && Assigned(s, e, g))
  }

  ghost predicate WitnessedBelow(s: State, e: ExecutorId, gs: set<string>, n: nat)
    requires n <= |s.works| && gs <= s.store.Keys
  {
    forall g :: g in gs ==> Assigned(s, e, g) && exists i :: 0 <= i < n && Witness(s.works[i], s.store[g])
  }

  /** A witness has reserved the memory of the one task it witnesses, and nobody owes memory. */
  ghost predicate WitnessesReserve(s: State, e: ExecutorId) {
    && (forall i :: 0 <= i < |s.works| ==> 0 <= Reservation(s.works[i], e))
    && (forall i, g :: 0 <= i < |s.works| && Assigned(s, e, g) && Witness(s.works[i], s.store[g]) ==>
          s.works[i].task.guid == g && Reservation(s.works[i], e) == s.store[g].memoryMB)
  }

  lemma InvReserves(s: State, e: ExecutorId)
    requires Inv(s)
    ensures WitnessesReserve(s, e)
  {
    GuidsMatch(s);
    forall i | 0 <= i < |s.works| ensures WorkOk(s, s.works[i]) {
    }
  }

  lemma HeldPrefix(s: State, e: ExecutorId, n: nat)
    requires 0 < n <= |s.works|
    ensures Held(s.works[..n], e) == Held(s.works[..n - 1], e) + Reservation(s.works[n - 1], e)
  {
    assert s.works[..n] == s.works[..n - 1] + [s.works[n - 1]];
    HeldPut(s.works[..n - 1], n - 1, s.works[n - 1], e);
  }

  lemma WitnessedEarlier(s: State, e: ExecutorId, gs: set<string>, n: nat)
    requires 0 < n <= |s.works| && gs <= s.store.Keys && WitnessedBelow(s, e, gs, n)
    requires forall g :: g in gs ==> !Witness(s.works[n - 1], s.store[g])
    ensures WitnessedBelow(s, e, gs, n - 1)
  {
    forall g | g in gs ensures exists i :: 0 <= i < n - 1 && Witness(s.works[i], s.store[g]) {
      var i :| 0 <= i < n && Witness(s.works[i], s.store[g]);
    }
  }

  /** Distinct guids need distinct witnesses, each of which has reserved its task's memory. */
  lemma {:induction false} WitnessesPay(s: State, e: ExecutorId, gs: set<string>, n: nat)
    requires WitnessesReserve(s, e) && n <= |s.works| && gs <= s.store.Keys && WitnessedBelow(s, e, gs, n)
    ensures MemoryOf(s.store, gs) <= Held(s.works[..n], e)
  {
    if n == 0 {
      assert gs == {};
    } else {
      var w := s.works[n - 1];
      var g := w.task.guid;
      HeldPrefix(s, e, n);
      var rest := if g in gs && Witness(w, s.store[g]) then gs - {g} else gs;
      WitnessedEarlier(s, e, rest, n);
      WitnessesPay(s, e, rest, n - 1);
      if rest != gs {
        MemoryOfRemove(s.store, gs, g);
      }
    }
  }

  lemma CapacityRespected(s: State, e: ExecutorId)
    requires Inv(s) && MemoryInv(s) && NoOrphan(s) && e in s.running
    ensures e in s.memory && Load(s, e) <= s.memory[e]
  {
    var gs := set g | g in s.store && Assigned(s, e, g);
    forall g | g in gs ensures exists i :: 0 <= i < |s.works| && Witness(s.works[i], s.store[g]) {
      assert Witnessed(s, g);
    }
    InvReserves(s, e);
    WitnessesPay(s, e, gs, |s.works|);
    assert s.works[..|s.works|] == s.works;
  }
}
