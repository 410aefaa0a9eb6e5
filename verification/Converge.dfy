/**
ConvergeTasks, statement by statement: two listings, the scan, the batch of swaps executed
by goroutines in any order, and the deletion of nodes that do not parse. With everybody else
at work in between it is a pass of the protocol; in a quiet world it maps one function over
the store.
*/
module Converge {
  import opened Models
  import opened TaskJson
  import opened Lifecycle
  import opened Protocol
  import opened Invariants
  import opened Preservation
  import opened ConvergeSpec
  import opened World

  // ---------- The protocol steps of a pass ----------

  lemma ListTasksTaken(f: Faults, s: State)
    requires Reachable(f, s)
    ensures Reachable(f, AfterListTasks(s)) && Reaches(f, s, AfterListTasks(s))
  {
    ReachableStep(f, s, ListTasks);
  }

  lemma ListExecutorsTaken(f: Faults, s: State, k: nat)
    requires Reachable(f, s) && k < |s.passes| && s.passes[k].stage == TasksListed
    ensures Reachable(f, AfterListExecutors(s, k)) && Reaches(f, s, AfterListExecutors(s, k))
  {
    ReachableStep(f, s, ListExecutors(k));
  }

  lemma ReadBoundaryTaken(f: Faults, s: State, k: nat, timeToClaim: int)
    requires Reachable(f, s) && k < |s.passes| && s.passes[k].stage == ExecutorsListed
    ensures Reachable(f, AfterReadBoundary(s, k, timeToClaim)) && Reaches(f, s, AfterReadBoundary(s, k, timeToClaim))
  {
    ReachableStep(f, s, ReadBoundary(k, timeToClaim));
  }

  lemma ExamineTaken(f: Faults, s: State, k: nat, g: string)
    requires Reachable(f, s) && k < |s.passes| && s.passes[k].stage == Scanning
    requires g in s.passes[k].todo && g in s.passes[k].snapshot
    ensures Reachable(f, AfterExamine(s, k, g)) && Reaches(f, s, AfterExamine(s, k, g))
  {
    ReachableStep(f, s, Examine(k, g));
  }

  lemma StampSwapTaken(f: Faults, s: State, k: nat, g: string)
    requires Reachable(f, s) && k < |s.passes| && s.passes[k].stage == Scanning
    requires s.passes[k].todo == {} && g in s.passes[k].planned
    ensures Reachable(f, AfterStampSwap(s, k, g)) && Reaches(f, s, AfterStampSwap(s, k, g))
  {
    ReachableStep(f, s, StampSwap(k, g));
  }

  lemma SwapTaken(f: Faults, s: State, k: nat, g: string, applied: bool)
    requires Reachable(f, s) && k < |s.passes| && s.passes[k].stage == Scanning
    requires g in s.passes[k].sent && g in s.passes[k].snapshot
    ensures Reachable(f, AfterSwap(s, k, g, applied)) && Reaches(f, s, AfterSwap(s, k, g, applied))
  {
    ReachableStep(f, s, SwapReply(k, g, applied));
  }

  /** The tasks a pass handles can be serialised and are listed under their guids. */
  lemma PassEncodable(f: Faults, s: State, k: nat)
    requires Reachable(f, s) && k < |s.passes|
    ensures forall g :: g in s.passes[k].snapshot ==>
              Encodable(s.passes[k].snapshot[g]) && s.passes[k].snapshot[g].guid == g
    ensures forall g :: g in s.passes[k].sent ==>
              && g in s.passes[k].snapshot
              && Encodable(s.passes[k].sent[g].task) && s.passes[k].sent[g].task.guid == g
  {
    ReachableInv(f, s);
    var p := s.passes[k];
    assert PassOk(s, p);
    forall g | g in p.snapshot ensures Encodable(p.snapshot[g]) && p.snapshot[g].guid == g {
      WrittenFacts(s, p.snapshot[g]);
    }
    forall g | g in p.sent ensures g in p.snapshot && Encodable(p.sent[g].task) && p.sent[g].task.guid == g {
      EdgeFollows(p.sent[g].cause, p.snapshot[g], p.sent[g].task);
    }
  }

  /** A listed node parses exactly when it is a task, and then as that task. */
  ghost predicate Lists(list: seq<(string, Json)>, snapshot: map<string, Task>) {
    && (forall i :: 0 <= i < |list| ==>
          Decode(list[i].1) == if list[i].0 in snapshot then Some(snapshot[list[i].0]) else None)
    && (forall i, j :: 0 <= i < j < |list| ==> list[i].0 != list[j].0)
    && (forall g :: g in snapshot ==> exists i :: 0 <= i < |list| && list[i].0 == g)
  }

  lemma ListingParses(list: seq<(string, Json)>, nodes: map<string, Json>, store: map<string, Task>)
    requires Enumerates(list, nodes) && NodesMatch(nodes, store)
    ensures Lists(list, store)
  {
    hide Encode, Decode;
    forall i | 0 <= i < |list|
      ensures Decode(list[i].1) == if list[i].0 in store then Some(store[list[i].0]) else None
    {
      if list[i].0 in store {
        DecodeInvertsEncode(store[list[i].0]);
      }
    }
  }

  lemma NoNodesNoTasks(nodes: map<string, Json>, store: map<string, Task>)
    requires NodesMatch(nodes, store)
    ensures nodes == map[] ==> store == map[]
  {
    if g :| g in store {
      assert g in nodes;
    }
  }

  /** The guids still to be looked at. */
  ghost function Remaining(list: seq<(string, Json)>, n: nat, snapshot: map<string, Task>): set<string>
    requires n <= |list|
  {
    set i | n <= i < |list| && list[i].0 in snapshot :: list[i].0
  }

  /** The protocol's answer to a pass's swap has the effect the store had. */
  lemma PassSwapMatches(nodes: map<string, Json>, nodes': map<string, Json>, s: State, k: nat, g: string, applied: bool)
    requires NodesMatch(nodes, s.store) && k < |s.passes| && g in s.passes[k].sent && g in s.passes[k].snapshot
    requires var t, t' := s.passes[k].snapshot[g], s.passes[k].sent[g].task;
             && Encodable(t) && Encodable(t') && t.guid == t'.guid == g
             && nodes' == if applied && Matches(nodes, g, Encode(t)) then nodes[g := Encode(t')] else nodes
    ensures NodesMatch(nodes', AfterSwap(s, k, g, applied).store)
  {
    hide Encode, Decode;
    SwapMatches(nodes, s, s.passes[k].snapshot[g], s.passes[k].sent[g].cause, s.passes[k].sent[g].task);
  }

  class Converger {
    const world: World

    constructor (world: World)
      ensures this.world == world
    {
      this.world := world;
    }

    /** Everybody else: a run of the protocol that leaves pass `k` alone, in which nobody desires
        a task under a key whose node does not parse. A quiet world does nothing. */
    method Interfere(ghost k: nat, ghost junk: set<string>)
      requires world.Coupled() && k < |world.s.passes| && forall g :: g in junk ==> g !in world.s.store
      modifies world
      ensures world.Coupled() && world.timeouts == old(world.timeouts) && world.calls == old(world.calls)
      ensures ReachesBeside(world.f, old(world.s), world.s, {ThePass(k)}) && Reaches(world.f, old(world.s), world.s)
      ensures k < |world.s.passes| && world.s.passes[k] == old(world.s).passes[k]
      ensures forall g :: g in junk ==> g !in world.s.store
      ensures world.quiet ==> world.s == old(world.s) && world.now == old(world.now) && world.nodes == old(world.nodes)
    {
      BesideSelf(world.f, world.s, {ThePass(k)});
    }

    /** The switch of the scan, on one parsed task. */
    method ExamineTask(task: Task, alive: set<string>, boundary: int, timeToClaim: int) returns (d: Decision)
      requires world.Coupled()
      modifies world`now, world`s
      ensures world.Coupled() && world.s == old(world.s).(clock := world.now) && Reaches(world.f, old(world.s), world.s)
      ensures world.quiet ==> world.now == old(world.now)
      ensures d == Decide(task, boundary, timeToClaim, task.executorId in alive, world.now)
    {
      ReachesSelf(world.f, world.s);
      hide Reachable, Reaches;
      d := Leave;
      match task.state {
        case Pending =>
          if task.createdAt <= boundary {
            d := Swap(NeverClaimed(timeToClaim), MarkFailed(task, NOT_CLAIMED));
          } else {
            d := KickDesire;
          }
        case Claimed =>
          var now := world.Time();
          var claimedTooLong := now - task.updatedAt >= THIRTY_SECONDS;
          var executorIsAlive := task.executorId in alive;
          if !executorIsAlive {
            d := Swap(ExecutorLost, MarkFailed(task, EXECUTOR_GONE));
          } else if claimedTooLong {
            d := Swap(BackToPending, DemoteToPending(task));
          }
        case Running =>
          var executorIsAlive := task.executorId in alive;
          if !executorIsAlive {
            d := Swap(ExecutorLost, MarkFailed(task, EXECUTOR_GONE));
          }
        case Completed =>
          d := KickComplete;
        case Resolving =>
          var now := world.Time();
          var resolvingTooLong := now - task.updatedAt >= THIRTY_SECONDS;
          if resolvingTooLong {
            d := Swap(BackToCompleted, DemoteToCompleted(task));
          }
        case Invalid =>
        case Unknown(_) =>
      }
    }

    /** The keys of the pairs from position `n` on. */
    ghost function Keys(pairs: seq<Pair>, n: nat): set<string>
      requires n <= |pairs|
    {
      set j | n <= j < |pairs| :: pairs[j].old'.guid
    }

    /** The pairs scheduled for a swap are the pass's plans, one per key. */
    ghost predicate Scheduled(pairs: seq<Pair>, planned: map<string, Plan>, snapshot: map<string, Task>) {
      && (forall i :: 0 <= i < |pairs| ==>
            var g := pairs[i].old'.guid;
            g in snapshot && snapshot[g] == pairs[i].old' && g in planned && planned[g].task == pairs[i].new')
      && OnePerKey(pairs)
      && planned.Keys == Keys(pairs, 0)
    }

    ghost function DecisionOn(p: Pass, g: string, now: int): Decision
      requires g in p.snapshot
    {
      Decide(p.snapshot[g], p.boundary, p.timeToClaim, p.snapshot[g].executorId in p.alive, now)
    }

    /** The scan has kicked what it decided to kick, each task outside `todo`, and nothing else. */
    ghost predicate KickedAll(s: State, s0: State, p: Pass, now: int) {
      && s.desireKicks == s0.desireKicks +
           (set g | g in p.snapshot && g !in p.todo && DecisionOn(p, g, now).KickDesire? :: p.snapshot[g])
      && s.completeKicks == s0.completeKicks +
           (set g | g in p.snapshot && g !in p.todo && DecisionOn(p, g, now).KickComplete? :: p.snapshot[g])
    }

    ghost predicate Kicked(s: State, s': State, d: Decision, t: Task) {
      && s'.desireKicks == s.desireKicks + (if d.KickDesire? then {t} else {})
      && s'.completeKicks == s.completeKicks + (if d.KickComplete? then {t} else {})
    }

    lemma KickedOneMore(s: State, s': State, s0: State, p: Pass, g: string, d: Decision, now: int)
      requires KickedAll(s, s0, p, now) && g in p.snapshot && g in p.todo && d == DecisionOn(p, g, now)
      requires Kicked(s, s', d, p.snapshot[g])
      ensures KickedAll(s', s0, Examined(p, g, d), now)
    {
      hide Decide;
    }

    lemma KickedOver(s: State, s0: State, p: Pass, now: int)
      requires KickedAll(s, s0, p, now) && p.todo == {} && p.boundary == now - p.timeToClaim
      ensures s.desireKicks == s0.desireKicks + DesiresKicked(p.snapshot, p.alive, p.timeToClaim, now)
      ensures s.completeKicks == s0.completeKicks + CompletesKicked(p.snapshot, p.alive, p.timeToClaim, now)
    {
      hide Decide;
    }

    ghost predicate SameKicks(s: State, s': State) {
      s'.desireKicks == s.desireKicks && s'.completeKicks == s.completeKicks
    }

    /** What the pass plans for `g` is what is decided on it at time `now`. */
    ghost predicate DecidedAt(p: Pass, g: string, now: int)
      requires g in p.snapshot
    {
      var d := DecisionOn(p, g, now);
      if d.Swap? then g in p.planned && p.planned[g] == Plan(d.cause, d.task) else g !in p.planned
    }

    /** The scan has decided each task outside `todo` at time `now`. */
    ghost predicate DecidedAll(p: Pass, now: int) {
      forall g :: g in p.snapshot && g !in p.todo ==> DecidedAt(p, g, now)
    }

    /** Each at some time. */
    ghost predicate DecidedSometime(p: Pass) {
      forall g :: g in p.snapshot && g !in p.todo ==> exists now :: DecidedAt(p, g, now)
    }

    lemma DecidedNow(p: Pass, g: string, d: Decision, now: int)
      requires DecidedSometime(p) && g in p.snapshot && g in p.todo && g !in p.planned && d == DecisionOn(p, g, now)
      ensures DecidedSometime(Examined(p, g, d))
    {
      hide Decide;
      var p' := Examined(p, g, d);
      forall h | h in p'.snapshot && h !in p'.todo ensures exists t :: DecidedAt(p', h, t) {
        if h == g {
          assert DecidedAt(p', g, now);
        } else {
          var t :| DecidedAt(p, h, t);
          assert DecidedAt(p', h, t);
        }
      }
    }

    /** The pairs of a scan: for each listed task what was decided on it at some time, one per key. */
    ghost predicate PlannedRight(pairs: seq<Pair>, p: Pass) {
      && OnePerKey(pairs)
      && (forall i :: 0 <= i < |pairs| ==>
            pairs[i].old'.guid in p.snapshot && p.snapshot[pairs[i].old'.guid] == pairs[i].old')
      && forall g :: g in p.snapshot ==> exists now :: PlannedAt(pairs, p, g, now)
    }

    ghost predicate PlannedAt(pairs: seq<Pair>, p: Pass, g: string, now: int)
      requires g in p.snapshot
    {
      var d := DecisionOn(p, g, now);
      if d.Swap? then Pair(p.snapshot[g], d.task) in pairs else forall i :: 0 <= i < |pairs| ==> pairs[i].old'.guid != g
    }

    lemma ScheduledIsPlanned(pairs: seq<Pair>, p: Pass, p': Pass)
      requires Scheduled(pairs, p.planned, p.snapshot) && DecidedSometime(p) && p.todo == {}
      requires p' == p.(planned := p'.planned, sent := p'.sent)
      ensures PlannedRight(pairs, p')
    {
      hide Decide;
      forall g | g in p.snapshot ensures exists now :: PlannedAt(pairs, p', g, now) {
        var now :| DecidedAt(p, g, now);
        if g in p.planned {
          var i :| 0 <= i < |pairs| && pairs[i].old'.guid == g;
          assert pairs[i] == Pair(p.snapshot[g], p.planned[g].task);
        }
        assert PlannedAt(pairs, p', g, now);
      }
    }

    /** One parsed task of the scan: decide, kick or schedule. */
    method ScanTask(task: Task, alive: set<string>, boundary: int, timeToClaim: int, ghost k: nat) returns (d: Decision)
      requires world.Coupled() && k < |world.s.passes|
      requires var p := world.s.passes[k];
               && p.stage == Scanning && p.alive == alive && p.boundary == boundary && p.timeToClaim == timeToClaim
               && task.guid in p.todo && task.guid in p.snapshot && p.snapshot[task.guid] == task
      modifies world`now, world`s
      ensures world.Coupled() && k < |world.s.passes| && Reaches(world.f, old(world.s), world.s)
      ensures world.s.passes[k] == Examined(old(world.s).passes[k], task.guid, d)
      ensures world.s.store == old(world.s).store && (world.quiet ==> world.now == old(world.now))
      ensures Kicked(old(world.s), world.s, d, task)
      ensures d == Decide(task, boundary, timeToClaim, task.executorId in alive, world.now)
    {
      hide Reachable, Reaches;
      ReachesChain(world.f);
      d := ExamineTask(task, alive, boundary, timeToClaim);
      ExamineTaken(world.f, world.s, k, task.guid);
      world.s := AfterExamine(world.s, k, task.guid);
    }

    /** What the scan has done with the first `n` nodes of the list. */
    ghost predicate ScannedTo(list: seq<(string, Json)>, n: nat, p0: Pass, p: Pass, pairs: seq<Pair>,
                              keysToDelete: seq<string>)
      requires n <= |list|
    {
      && p == p0.(todo := Remaining(list, n, p0.snapshot), planned := p.planned)
      && Scheduled(pairs, p.planned, p0.snapshot)
      && (forall i :: 0 <= i < |pairs| ==> pairs[i].old'.guid !in p.todo)
      && (forall g :: g in keysToDelete <==> exists i :: 0 <= i < n && list[i].0 == g && g !in p0.snapshot)
    }

    lemma OnePerKeyOneMore(pairs: seq<Pair>, p: Pair)
      requires OnePerKey(pairs) && p.old'.guid !in Keys(pairs, 0)
      ensures OnePerKey(pairs + [p]) && Keys(pairs + [p], 0) == Keys(pairs, 0) + {p.old'.guid}
    {
      var pairs' := pairs + [p];
      forall i | 0 <= i < |pairs| ensures pairs'[i] == pairs[i] && pairs[i].old'.guid in Keys(pairs, 0) {
      }
      assert pairs'[|pairs|] == p;
    }

    lemma ScheduledOneMore(pairs: seq<Pair>, planned: map<string, Plan>, snapshot: map<string, Task>, g: string, plan: Plan)
      requires Scheduled(pairs, planned, snapshot) && g !in planned && g in snapshot && snapshot[g].guid == g
      ensures Scheduled(pairs + [Pair(snapshot[g], plan.task)], planned[g := plan], snapshot)
    {
      OnePerKeyOneMore(pairs, Pair(snapshot[g], plan.task));
      hide OnePerKey, Keys;
      assert planned[g := plan].Keys == planned.Keys + {g};
    }

    lemma RemainingOneLess(list: seq<(string, Json)>, n: nat, snapshot: map<string, Task>)
      requires n < |list| && list[n].0 in snapshot && forall i, j :: 0 <= i < j < |list| ==> list[i].0 != list[j].0
      ensures list[n].0 in Remaining(list, n, snapshot)
      ensures Remaining(list, n, snapshot) - {list[n].0} == Remaining(list, n + 1, snapshot)
    {
    }

    /** The scan's lists after one more parsed task. */
    lemma ScannedTask(list: seq<(string, Json)>, n: nat, p0: Pass, p: Pass, pairs: seq<Pair>,
                      keysToDelete: seq<string>, d: Decision)
      requires n < |list| && Lists(list, p0.snapshot) && ScannedTo(list, n, p0, p, pairs, keysToDelete)
      requires list[n].0 in p0.snapshot && p0.snapshot[list[n].0].guid == list[n].0
      ensures var pairs' := if d.Swap? then pairs + [Pair(p0.snapshot[list[n].0], d.task)] else pairs;
              ScannedTo(list, n + 1, p0, Examined(p, list[n].0, d), pairs', keysToDelete)
    {
      hide Encode, Decode;
      var g := list[n].0;
      RemainingOneLess(list, n, p0.snapshot);
      if d.Swap? {
        ScheduledOneMore(pairs, p.planned, p0.snapshot, g, Plan(d.cause, d.task));
      }
    }

    lemma ScannedJunk(list: seq<(string, Json)>, n: nat, p0: Pass, p: Pass, pairs: seq<Pair>, keysToDelete: seq<string>)
      requires n < |list| && ScannedTo(list, n, p0, p, pairs, keysToDelete) && list[n].0 !in p0.snapshot
      ensures ScannedTo(list, n + 1, p0, p, pairs, keysToDelete + [list[n].0])
    {
      assert Remaining(list, n + 1, p0.snapshot) == Remaining(list, n, p0.snapshot);
    }

    lemma DecidedOneMore(p: Pass, g: string, d: Decision, now: int)
      requires DecidedAll(p, now) && g in p.snapshot && g in p.todo && g !in p.planned
      requires d == DecisionOn(p, g, now)
      ensures DecidedAll(Examined(p, g, d), now)
    {
      hide Decide;
      assert DecidedAt(Examined(p, g, d), g, now);
      forall h | h in p.snapshot && h !in p.todo ensures DecidedAt(Examined(p, g, d), h, now) {
        assert DecidedAt(p, h, now);
      }
    }

    /** The state of the scan after `n` nodes, in a world that may be quiet. */
    ghost predicate ScanAt(list: seq<(string, Json)>, n: nat, k: nat, junk: set<string>, p0: Pass, s0: State,
                             pairs: seq<Pair>, keysToDelete: seq<string>)
      reads this, world
      requires n <= |list|
    {
      && world.Coupled() && k < |world.s.passes| && (forall g :: g in junk ==> g !in world.s.store)
      && ScannedTo(list, n, p0, world.s.passes[k], pairs, keysToDelete) && DecidedSometime(world.s.passes[k])
      && (world.quiet ==> world.now == s0.clock && world.s.store == s0.store && DecidedAll(world.s.passes[k], world.now))
      && (world.quiet ==> KickedAll(world.s, s0, world.s.passes[k], world.now))
    }

    /** One turn of the loop over the listed nodes. */
    method ScanNode(list: seq<(string, Json)>, n: nat, ghost p0: Pass, ghost s0: State, ghost k: nat,
                    ghost junk: set<string>,
                    alive: set<string>, boundary: int, timeToClaim: int, pairs: seq<Pair>, keysToDelete: seq<string>)
      returns (pairs': seq<Pair>, keysToDelete': seq<string>)
      requires n < |list| && Lists(list, p0.snapshot) && ScanAt(list, n, k, junk, p0, s0, pairs, keysToDelete)
      requires p0.stage == Scanning && p0.alive == alive && p0.boundary == boundary && p0.timeToClaim == timeToClaim
      requires forall g :: g in p0.snapshot ==> p0.snapshot[g].guid == g
      modifies world
      ensures ScanAt(list, n + 1, k, junk, p0, s0, pairs', keysToDelete')
      ensures Reaches(world.f, old(world.s), world.s) && world.calls == old(world.calls)
      ensures world.quiet ==> world.nodes == old(world.nodes)
    {
      hide Encode, Decode, Reachable, Reaches;
      ReachesChain(world.f);
      pairs', keysToDelete' := pairs, keysToDelete;
      Interfere(k, junk);
      ghost var p := world.s.passes[k];
      var task := Decode(list[n].1);
      if task.None? {
        ScannedJunk(list, n, p0, p, pairs, keysToDelete);
        keysToDelete' := keysToDelete + [list[n].0];
      } else {
        ghost var g := list[n].0;
        ghost var s := world.s;
        assert g in p.todo && g !in p.planned;
        var d := ScanTask(task.value, alive, boundary, timeToClaim, k);
        ScannedTask(list, n, p0, p, pairs, keysToDelete, d);
        DecidedNow(p, g, d, world.now);
        if world.quiet {
          DecidedOneMore(p, g, d, world.now);
          KickedOneMore(s, world.s, s0, p, g, d, world.now);
        }
        if d.Swap? {
          pairs' := pairs + [Pair(task.value, d.task)];
        }
      }
    }

    /** The loop over the listed nodes. */
    method Scan(list: seq<(string, Json)>, alive: set<string>, boundary: int, timeToClaim: int, ghost k: nat,
                ghost junk: set<string>)
      returns (pairs: seq<Pair>, keysToDelete: seq<string>)
      requires world.Coupled() && k < |world.s.passes| && forall g :: g in junk ==> g !in world.s.store
      requires var p := world.s.passes[k];
               && p == Pass(Scanning, p.snapshot, alive, timeToClaim, boundary, p.snapshot.Keys, map[], map[])
               && Lists(list, p.snapshot)
      modifies world
      ensures ScanAt(list, |list|, k, junk, old(world.s).passes[k], old(world.s), pairs, keysToDelete)
      ensures Reaches(world.f, old(world.s), world.s) && world.calls == old(world.calls)
      ensures world.quiet ==> world.nodes == old(world.nodes)
    {
      hide Encode, Decode, Reachable, Reaches, NodesMatch;
      ReachesChain(world.f);
      pairs, keysToDelete := [], [];
      ghost var p0, s0 := world.s.passes[k], world.s;
      assert p0.todo == Remaining(list, 0, p0.snapshot);
      PassEncodable(world.f, world.s, k);
      for n := 0 to |list|
        invariant ScanAt(list, n, k, junk, p0, s0, pairs, keysToDelete)
        invariant Reaches(world.f, old(world.s), world.s) && world.calls == old(world.calls)
        invariant world.quiet ==> world.nodes == old(world.nodes)
      {
        pairs, keysToDelete := ScanNode(list, n, p0, s0, k, junk, alive, boundary, timeToClaim, pairs, keysToDelete);
      }
    }

    // ---------- The batch ----------

    /** Where the batch is: pairs from `next` on are unstamped, those in `going` have a
        goroutine on the way to the store. */
    ghost predicate BatchPass(pairs: seq<Pair>, next: nat, going: map<string, Pair>, p0: Pass, p: Pass) {
      p == p0.(planned := p.planned, sent := p.sent) && StillPlanned(pairs, next, p0, p) && StillGoing(going, p0, p)
    }

    ghost predicate StillPlanned(pairs: seq<Pair>, next: nat, p0: Pass, p: Pass) {
      && next <= |pairs| && p.planned.Keys == Keys(pairs, next)
      && forall g :: g in p.planned ==> g in p0.planned && p.planned[g] == p0.planned[g]
    }

    ghost predicate StillGoing(going: map<string, Pair>, p0: Pass, p: Pass) {
      && p.sent.Keys == going.Keys
      && forall g :: g in going ==>
           && g in p0.snapshot && g in p0.planned && g !in p.planned
           && going[g] == Pair(p0.snapshot[g], p.sent[g].task)
           && p.sent[g] == Plan(p0.planned[g].cause, Stamp(p0.planned[g].task, p.sent[g].task.updatedAt))
    }

    /** In a quiet world the store is the snapshot with the finished swaps applied. */
    ghost predicate QuietStore(store: map<string, Task>, p0: Pass, p: Pass, now: int) {
      && store.Keys == p0.snapshot.Keys
      && (forall g :: g in store ==>
            store[g] == if g in p0.planned && g !in p.planned && g !in p.sent then Stamp(p0.planned[g].task, now)
                        else p0.snapshot[g])
      && (forall g :: g in p.sent ==> p.sent[g].task.updatedAt == now)
    }

    ghost predicate BatchState(s: State, quiet: bool, pairs: seq<Pair>, next: nat, going: map<string, Pair>,
                               k: nat, junk: set<string>, p0: Pass, now: int)
    {
      && k < |s.passes| && (forall g :: g in junk ==> g !in s.store)
      && BatchPass(pairs, next, going, p0, s.passes[k])
      && (quiet ==> s.clock == now && QuietStore(s.store, p0, s.passes[k], now))
    }

    ghost predicate BatchAt(pairs: seq<Pair>, next: nat, going: map<string, Pair>,
                            k: nat, junk: set<string>, p0: Pass, now: int)
      reads this, world
    {
      world.Coupled() && BatchState(world.s, world.quiet, pairs, next, going, k, junk, p0, now)
    }

    ghost predicate BatchReady(pairs: seq<Pair>, p0: Pass) {
      && p0.stage == Scanning && p0.todo == {} && p0.sent == map[]
      && Scheduled(pairs, p0.planned, p0.snapshot)
      && forall g :: g in p0.snapshot ==> Encodable(p0.snapshot[g]) && p0.snapshot[g].guid == g
    }

    lemma KeysOneLess(pairs: seq<Pair>, n: nat)
      requires n < |pairs| && OnePerKey(pairs)
      ensures pairs[n].old'.guid in Keys(pairs, n)
      ensures Keys(pairs, n) - {pairs[n].old'.guid} == Keys(pairs, n + 1)
    {
    }

    /** The pass after plan `g` has been stamped at `t`, and after its swap has been answered. */
    ghost function StampedPass(p: Pass, g: string, t: int): Pass
      requires g in p.planned
    {
      p.(planned := p.planned - {g}, sent := p.sent[g := Plan(p.planned[g].cause, Stamp(p.planned[g].task, t))])
    }

    lemma StampedPlanned(pairs: seq<Pair>, next: nat, p0: Pass, p: Pass, t: int)
      requires OnePerKey(pairs) && StillPlanned(pairs, next, p0, p) && next < |pairs|
      ensures pairs[next].old'.guid in p.planned
      ensures StillPlanned(pairs, next + 1, p0, StampedPass(p, pairs[next].old'.guid, t))
    {
      hide OnePerKey;
      KeysOneLess(pairs, next);
    }

    lemma StampedGoing(going: map<string, Pair>, p0: Pass, p: Pass, g: string, t: int)
      requires StillGoing(going, p0, p) && g in p.planned && g in p0.planned && g in p0.snapshot
      requires p.planned[g] == p0.planned[g]
      ensures StillGoing(going[g := Pair(p0.snapshot[g], Stamp(p0.planned[g].task, t))], p0, StampedPass(p, g, t))
    {
    }

    lemma StampedOne(pairs: seq<Pair>, next: nat, going: map<string, Pair>, p0: Pass, p: Pass, t: int)
      requires Scheduled(pairs, p0.planned, p0.snapshot) && BatchPass(pairs, next, going, p0, p) && next < |pairs|
      ensures pairs[next].old'.guid in p.planned
      ensures BatchPass(pairs, next + 1, going[pairs[next].old'.guid := Pair(pairs[next].old', Stamp(pairs[next].new', t))],
                        p0, StampedPass(p, pairs[next].old'.guid, t))
    {
      StampedPlanned(pairs, next, p0, p, t);
      var g := pairs[next].old'.guid;
      assert g in p0.planned && p.planned[g] == p0.planned[g];
      StampedGoing(going, p0, p, g, t);
      hide StillPlanned, StillGoing;
    }

    lemma QuietStamped(store: map<string, Task>, p0: Pass, p: Pass, g: string, now: int)
      requires QuietStore(store, p0, p, now) && g in p.planned
      ensures QuietStore(store, p0, StampedPass(p, g, now), now)
    {
    }

    lemma QuietSwapped(s: State, k: nat, p0: Pass, g: string, now: int)
      requires k < |s.passes| && g in s.passes[k].sent && g in s.passes[k].snapshot && s.passes[k].snapshot == p0.snapshot
      requires QuietStore(s.store, p0, s.passes[k], now) && p0.snapshot[g].guid == g && s.passes[k].sent[g].task.guid == g
      requires g in p0.planned && g !in s.passes[k].planned
      requires s.passes[k].sent[g].task == Stamp(p0.planned[g].task, s.passes[k].sent[g].task.updatedAt)
      ensures QuietStore(AfterSwap(s, k, g, true).store, p0, AfterSwap(s, k, g, true).passes[k], now)
    {
    }

    lemma StampedState(s: State, quiet: bool, pairs: seq<Pair>, next: nat, going: map<string, Pair>,
                       k: nat, junk: set<string>, p0: Pass, now: int)
      requires Scheduled(pairs, p0.planned, p0.snapshot) && next < |pairs|
      requires BatchState(s, quiet, pairs, next, going, k, junk, p0, now)
      ensures pairs[next].old'.guid in s.passes[k].planned && pairs[next].old'.guid !in going
      ensures s.passes[k].stage == p0.stage && s.passes[k].todo == p0.todo
      ensures BatchState(AfterStampSwap(s, k, pairs[next].old'.guid), quiet, pairs, next + 1,
                         going[pairs[next].old'.guid := Pair(pairs[next].old', Stamp(pairs[next].new', s.clock))],
                         k, junk, p0, now)
    {
      StampedOne(pairs, next, going, p0, s.passes[k], s.clock);
      if quiet {
        QuietStamped(s.store, p0, s.passes[k], pairs[next].old'.guid, now);
      }
    }

    lemma SwappedState(s: State, quiet: bool, pairs: seq<Pair>, next: nat, going: map<string, Pair>, g: string,
                       applied: bool,
                       k: nat, junk: set<string>, p0: Pass, now: int)
      requires BatchState(s, quiet, pairs, next, going, k, junk, p0, now) && g in going && (quiet ==> applied)
      requires p0.snapshot[g].guid == g && s.passes[k].sent[g].task.guid == g && g !in junk
      ensures BatchState(AfterSwap(s, k, g, applied), quiet, pairs, next, going - {g}, k, junk, p0, now)
    {
      if quiet {
        QuietSwapped(s, k, p0, g, now);
      }
    }

    /** Others run, and the clock is read. */
    method ReadClock(pairs: seq<Pair>, next: nat, going: map<string, Pair>,
                     ghost k: nat, ghost junk: set<string>, ghost p0: Pass, ghost now: int) returns (t: int)
      requires BatchAt(pairs, next, going, k, junk, p0, now)
      modifies world
      ensures BatchAt(pairs, next, going, k, junk, p0, now) && t == world.s.clock
      ensures Reaches(world.f, old(world.s), world.s) && world.calls == old(world.calls)
      ensures world.quiet ==> world.nodes.Keys == old(world.nodes).Keys && SameKicks(old(world.s), world.s)
    {
      hide Encode, Decode, QuietStore, NodesMatch, BatchPass, Reachable, Reaches;
      ReachesChain(world.f);
      Interfere(k, junk);
      t := world.Time();
    }

    /** Before the goroutine of a pair is spawned its new value is stamped. */
    method StampNext(pairs: seq<Pair>, next: nat, going: map<string, Pair>,
                     ghost k: nat, ghost junk: set<string>, ghost p0: Pass, ghost now: int)
      returns (going': map<string, Pair>)
      requires BatchReady(pairs, p0) && next < |pairs| && BatchAt(pairs, next, going, k, junk, p0, now)
      modifies world
      ensures BatchAt(pairs, next + 1, going', k, junk, p0, now)
      ensures Reaches(world.f, old(world.s), world.s) && world.calls == old(world.calls)
      ensures |going'.Keys| == |going.Keys| + 1 && going'.Keys == going.Keys + {pairs[next].old'.guid}
      ensures world.quiet ==> world.nodes.Keys == old(world.nodes).Keys && SameKicks(old(world.s), world.s)
    {
      hide Encode, Decode, Encodable, QuietStore, NodesMatch, OnePerKey, BatchPass, Scheduled, Reachable, Reaches;
      ReachesChain(world.f);
      var t := ReadClock(pairs, next, going, k, junk, p0, now);
      going' := going[pairs[next].old'.guid := Pair(pairs[next].old', Stamp(pairs[next].new', t))];
      StampedState(world.s, world.quiet, pairs, next, going, k, junk, p0, now);
      StampSwapTaken(world.f, world.s, k, pairs[next].old'.guid);
      world.s := AfterStampSwap(world.s, k, pairs[next].old'.guid);
    }

    /** The compare-and-swap of one pair against the world's store. */
    method SwapOne(g: string, old': Task, new': Task, ghost k: nat) returns (err: StoreError, ghost applied: bool)
      requires world.Coupled() && k < |world.s.passes| && g in world.s.passes[k].sent && g in world.s.passes[k].snapshot
      requires world.s.passes[k].stage == Scanning
      requires world.s.passes[k].snapshot[g] == old' && world.s.passes[k].sent[g].task == new'
      modifies world`nodes, world`timeouts, world`calls, world`s
      ensures world.Coupled() && Reaches(world.f, old(world.s), world.s)
      ensures Encodable(old') && Encodable(new')
      ensures world.calls == old(world.calls) + [SwapRequest(g, Encode(old'), Encode(new'), err)]
      ensures world.s == AfterSwap(old(world.s), k, g, applied) && (world.quiet ==> applied)
      ensures world.nodes.Keys == old(world.nodes).Keys
    {
      hide Encode, Decode;
      PassEncodable(world.f, world.s, k);
      ghost var nodes := world.nodes;
      err, applied := world.CompareAndSwap(g, Encode(old'), Encode(new'), true, true);
      PassSwapMatches(nodes, world.nodes, world.s, k, g, applied);
      SwapTaken(world.f, world.s, k, g, applied);
      world.s := AfterSwap(world.s, k, g, applied);
    }

    // ---------- What a batch asks for ----------

    /** The store is asked to swap this pair, the new value stamped at some time. */
    ghost predicate AsksFor(c: Call, p: Pair) {
      && c.SwapRequest? && c.key == p.old'.guid && Encodable(p.old') && c.old' == Encode(p.old')
      && exists now :: Encodable(Stamp(p.new', now)) && c.new' == Encode(Stamp(p.new', now))
    }

    ghost predicate AsksForSome(c: Call, pairs: seq<Pair>) {
      exists i :: 0 <= i < |pairs| && AsksFor(c, pairs[i])
    }

    ghost predicate IsAskedFor(asked: seq<Call>, p: Pair) {
      exists k :: 0 <= k < |asked| && AsksFor(asked[k], p)
    }

    ghost function KeysOf(asked: seq<Call>): set<string> {
      set k | 0 <= k < |asked| && asked[k].SwapRequest? :: asked[k].key
    }

    /** Every request is for one of the pairs, no two for the same key, and all keys have been
        asked for but the `rest`. */
    ghost predicate AskedBut(asked: seq<Call>, pairs: seq<Pair>, rest: set<string>) {
      && (forall k :: 0 <= k < |asked| ==> AsksForSome(asked[k], pairs))
      && (forall k, l :: 0 <= k < l < |asked| && asked[k].SwapRequest? && asked[l].SwapRequest? ==>
            asked[k].key != asked[l].key)
      && KeysOf(asked) == Keys(pairs, 0) - rest
    }

    /** The store has been asked for every pair exactly once, and for nothing else. */
    ghost predicate AskedOnce(asked: seq<Call>, pairs: seq<Pair>) {
      && |asked| == |pairs|
      && (forall k :: 0 <= k < |asked| ==> AsksForSome(asked[k], pairs))
      && (forall i :: 0 <= i < |pairs| ==> IsAskedFor(asked, pairs[i]))
    }

    lemma AskedOneMore(asked: seq<Call>, pairs: seq<Pair>, rest: set<string>, c: Call, i: nat)
      requires AskedBut(asked, pairs, rest) && i < |pairs| && AsksFor(c, pairs[i]) && c.key in rest
      ensures AskedBut(asked + [c], pairs, rest - {c.key})
    {
      hide AsksFor, Encode;
      var asked' := asked + [c];
      assert c.SwapRequest? && c.key == pairs[i].old'.guid by { AsksKey(c, pairs[i]); }
      assert asked'[|asked|] == c && c.key in Keys(pairs, 0);
      KeysOfOneMore(asked, c);
      forall k | 0 <= k < |asked'| ensures AsksForSome(asked'[k], pairs) {
        if k < |asked| {
          assert asked'[k] == asked[k];
        }
      }
      forall k | 0 <= k < |asked| && asked[k].SwapRequest? ensures asked[k].key in KeysOf(asked) {
      }
    }

    lemma KeysOfOneMore(asked: seq<Call>, c: Call)
      requires c.SwapRequest?
      ensures KeysOf(asked + [c]) == KeysOf(asked) + {c.key}
    {
      var asked' := asked + [c];
      assert asked'[|asked|] == c;
      forall k | 0 <= k < |asked| && asked[k].SwapRequest? ensures asked[k].key in KeysOf(asked') {
        assert asked'[k] == asked[k];
      }
    }

    lemma AsksKey(c: Call, p: Pair)
      requires AsksFor(c, p)
      ensures c.SwapRequest? && c.key == p.old'.guid
    {
    }

    lemma AskedAll(asked: seq<Call>, pairs: seq<Pair>)
      requires AskedBut(asked, pairs, {}) && OnePerKey(pairs) && |asked| == |pairs|
      ensures AskedOnce(asked, pairs)
    {
      forall i | 0 <= i < |pairs| ensures IsAskedFor(asked, pairs[i]) {
        var k := AskedIn(asked, pairs, i);
      }
    }

    lemma AskedIn(asked: seq<Call>, pairs: seq<Pair>, i: nat) returns (k: nat)
      requires AskedBut(asked, pairs, {}) && OnePerKey(pairs) && i < |pairs|
      ensures k < |asked| && AsksFor(asked[k], pairs[i])
    {
      hide AsksFor;
      var g := pairs[i].old'.guid;
      assert g in Keys(pairs, 0);
      assert g in KeysOf(asked);
      k :| 0 <= k < |asked| && asked[k].SwapRequest? && asked[k].key == g;
      assert AsksForSome(asked[k], pairs);
      var j :| 0 <= j < |pairs| && AsksFor(asked[k], pairs[j]);
      AsksKey(asked[k], pairs[j]);
      assert pairs[i].old'.guid == pairs[j].old'.guid;
      assert i == j;
    }

    /** Since `calls0` the batch has asked `n` times, for all pairs but the unstamped ones and
        those that are going. */
    ghost predicate AskedAt(calls0: seq<Call>, calls: seq<Call>, pairs: seq<Pair>, next: nat,
                            going: map<string, Pair>, n: nat)
      requires next <= |pairs|
    {
      && |calls0| <= |calls| && calls0 == calls[..|calls0|] && |calls| == |calls0| + n
      && AskedBut(calls[|calls0|..], pairs, Keys(pairs, next) + going.Keys)
    }

    lemma AskedNothing(calls: seq<Call>, pairs: seq<Pair>)
      ensures AskedAt(calls, calls, pairs, 0, map[], 0)
    {
      var nothing: map<string, Pair> := map[];
      assert calls[|calls|..] == [];
      assert Keys(pairs, 0) - (Keys(pairs, 0) + nothing.Keys) == {};
    }

    /** A pair that is stamped and handed to a goroutine is still to be asked for. */
    lemma AskedLater(calls0: seq<Call>, calls: seq<Call>, pairs: seq<Pair>, next: nat, going: map<string, Pair>,
                     going': map<string, Pair>, n: nat)
      requires next < |pairs| && OnePerKey(pairs) && AskedAt(calls0, calls, pairs, next, going, n)
      requires going'.Keys == going.Keys + {pairs[next].old'.guid}
      ensures AskedAt(calls0, calls, pairs, next + 1, going', n)
    {
      KeysOneLess(pairs, next);
      assert Keys(pairs, next) + going.Keys == Keys(pairs, next + 1) + going'.Keys;
    }

    lemma AskedNow(calls0: seq<Call>, calls: seq<Call>, pairs: seq<Pair>, next: nat, going: map<string, Pair>,
                   c: Call, i: nat, n: nat)
      requires next <= |pairs| && AskedAt(calls0, calls, pairs, next, going, n) && i < |pairs| && AsksFor(c, pairs[i])
      requires c.SwapRequest? && c.key in going && c.key !in Keys(pairs, next)
      ensures AskedAt(calls0, calls + [c], pairs, next, going - {c.key}, n + 1)
    {
      hide AsksFor, AskedBut;
      var rest := Keys(pairs, next) + going.Keys;
      AskedOneMore(calls[|calls0|..], pairs, rest, c, i);
      assert (calls + [c])[|calls0|..] == calls[|calls0|..] + [c];
      assert Keys(pairs, next) + (going - {c.key}).Keys == rest - {c.key};
    }

    /** What a goroutine has in hand is one of the pairs, stamped. */
    lemma GoingIsPair(pairs: seq<Pair>, next: nat, going: map<string, Pair>, p0: Pass, p: Pass, g: string) returns (i: nat)
      requires BatchPass(pairs, next, going, p0, p) && Scheduled(pairs, p0.planned, p0.snapshot) && g in going
      ensures i < |pairs| && going[g].old' == pairs[i].old' && pairs[i].old'.guid == g && g !in Keys(pairs, next)
      ensures going[g].new' == Stamp(pairs[i].new', going[g].new'.updatedAt)
    {
      assert g in Keys(pairs, 0);
      i :| 0 <= i < |pairs| && pairs[i].old'.guid == g;
    }

    // ---------- The goroutines ----------

    /** One goroutine of the batch; an error of its compare-and-swap is only logged. Its signal
        finds room in the channel, which holds `done` of them and has one place per pair. */
    method RunSwap(pairs: seq<Pair>, next: nat, going: map<string, Pair>, g: string, done: nat,
                   ghost k: nat, ghost junk: set<string>, ghost p0: Pass, ghost now: int,
                   ghost calls0: seq<Call>, ghost n: nat)
      returns (done': nat)
      requires BatchReady(pairs, p0) && p0.snapshot.Keys !! junk
      requires g in going && BatchAt(pairs, next, going, k, junk, p0, now) && done < |pairs|
      requires next <= |pairs| && AskedAt(calls0, world.calls, pairs, next, going, n)
      modifies world
      ensures BatchAt(pairs, next, going - {g}, k, junk, p0, now) && done' == done + 1
      ensures AskedAt(calls0, world.calls, pairs, next, going - {g}, n + 1)
      ensures Reaches(world.f, old(world.s), world.s)
      ensures world.quiet ==> world.nodes.Keys == old(world.nodes).Keys && SameKicks(old(world.s), world.s)
    {
      hide Encode, Decode, Encodable, QuietStore, NodesMatch, Reachable, Reaches, AskedAt, Scheduled, OnePerKey;
      ReachesChain(world.f);
      Interfere(k, junk);
      PassEncodable(world.f, world.s, k);
      ghost var s, calls := world.s, world.calls;
      ghost var applied;
      ghost var i := GoingIsPair(pairs, next, going, p0, s.passes[k], g);
      var err;
      err, applied := SwapOne(g, going[g].old', going[g].new', k);
      SwappedState(s, world.quiet, pairs, next, going, g, applied, k, junk, p0, now);
      AskedNow(calls0, calls, pairs, next, going, SwapRequest(g, Encode(going[g].old'), Encode(going[g].new'), err), i, n);
      done' := done + 1;
    }

    /** Some of the goroutines get to run, in any order; at least until there is a signal in the
        channel if somebody waits for one. */
    method LetRun(pairs: seq<Pair>, next: nat, going: map<string, Pair>, done: nat, awaited: bool,
                  ghost k: nat, ghost junk: set<string>, ghost p0: Pass, ghost now: int,
                  ghost calls0: seq<Call>, ghost n: nat)
      returns (going': map<string, Pair>, done': nat)
      requires BatchReady(pairs, p0) && p0.snapshot.Keys !! junk
      requires BatchAt(pairs, next, going, k, junk, p0, now) && done + |going.Keys| <= |pairs|
      requires awaited ==> 0 < done + |going.Keys|
      requires next <= |pairs| && done <= n && AskedAt(calls0, world.calls, pairs, next, going, n)
      modifies world
      ensures BatchAt(pairs, next, going', k, junk, p0, now) && done' + |going'.Keys| == done + |going.Keys|
      ensures awaited ==> 0 < done'
      ensures done <= done' && AskedAt(calls0, world.calls, pairs, next, going', n - done + done')
      ensures Reaches(world.f, old(world.s), world.s)
      ensures world.quiet ==> world.nodes.Keys == old(world.nodes).Keys && SameKicks(old(world.s), world.s)
    {
      hide Encode, Decode, NodesMatch, Reachable, Reaches, BatchState, BatchReady, AskedAt;
      ReachesChain(world.f);
      going', done' := going, done;
      var more := *;
      while going' != map[] && (more || (awaited && done' == 0))
        invariant BatchAt(pairs, next, going', k, junk, p0, now) && done' + |going'.Keys| == done + |going.Keys|
        invariant done <= done' && AskedAt(calls0, world.calls, pairs, next, going', n - done + done')
        invariant Reaches(world.f, old(world.s), world.s)
        invariant world.quiet ==> world.nodes.Keys == old(world.nodes).Keys && SameKicks(old(world.s), world.s)
        decreases |going'.Keys|
      {
        var g :| g in going';
        assert (going' - {g}).Keys == going'.Keys - {g};
        done' := RunSwap(pairs, next, going', g, done', k, junk, p0, now, calls0, n - done + done');
        going' := going' - {g};
        more := *;
      }
    }

    lemma BatchStarts(s: State, quiet: bool, pairs: seq<Pair>, k: nat, junk: set<string>)
      requires k < |s.passes| && BatchReady(pairs, s.passes[k]) && (forall g :: g in junk ==> g !in s.store)
      requires quiet ==> s.store == s.passes[k].snapshot
      ensures BatchState(s, quiet, pairs, 0, map[], k, junk, s.passes[k], s.clock)
    {
    }

    lemma ReadyIsOnePerKey(pairs: seq<Pair>, p0: Pass)
      requires BatchReady(pairs, p0)
      ensures OnePerKey(pairs)
    {
    }

    lemma AskedInAll(calls0: seq<Call>, calls: seq<Call>, pairs: seq<Pair>)
      requires AskedAt(calls0, calls, pairs, |pairs|, map[], |pairs|) && OnePerKey(pairs)
      ensures |calls0| <= |calls| && calls0 == calls[..|calls0|] && AskedOnce(calls[|calls0|..], pairs)
    {
      hide AsksFor;
      var nothing: map<string, Pair> := map[];
      assert Keys(pairs, |pairs|) + nothing.Keys == {};
      AskedAll(calls[|calls0|..], pairs);
    }

    /** The pairs are stamped and handed to goroutines, some of which get to run meanwhile. */
    method SpawnAll(pairs: seq<Pair>, ghost k: nat, ghost junk: set<string>, ghost p0: Pass, ghost now: int)
      returns (going: map<string, Pair>, done: nat)
      requires BatchReady(pairs, p0) && p0.snapshot.Keys !! junk && BatchAt(pairs, 0, map[], k, junk, p0, now)
      modifies world
      ensures BatchAt(pairs, |pairs|, going, k, junk, p0, now) && done + |going.Keys| == |pairs|
      ensures AskedAt(old(world.calls), world.calls, pairs, |pairs|, going, done)
      ensures Reaches(world.f, old(world.s), world.s)
      ensures world.quiet ==> world.nodes.Keys == old(world.nodes).Keys && SameKicks(old(world.s), world.s)
    {
      hide Encode, Decode, NodesMatch, Reachable, Reaches, BatchState, BatchReady, AskedAt, OnePerKey;
      ReachesChain(world.f);
      ghost var calls0 := world.calls;
      AskedNothing(world.calls, pairs);
      ReadyIsOnePerKey(pairs, p0);
      going, done := map[], 0;
      for next := 0 to |pairs|
        invariant BatchAt(pairs, next, going, k, junk, p0, now) && done + |going.Keys| == next
        invariant AskedAt(calls0, world.calls, pairs, next, going, done)
        invariant Reaches(world.f, old(world.s), world.s)
        invariant world.quiet ==> world.nodes.Keys == old(world.nodes).Keys && SameKicks(old(world.s), world.s)
      {
        going, done := LetRun(pairs, next, going, done, false, k, junk, p0, now, calls0, done);
        ghost var before := going;
        going := StampNext(pairs, next, going, k, junk, p0, now);
        AskedLater(calls0, world.calls, pairs, next, before, going, done);
      }
    }

    /** One signal per pair is taken out of the channel. Each of them comes: as long as one is
        missing a goroutine is going. */
    method WaitAll(pairs: seq<Pair>, going: map<string, Pair>, done: nat, ghost k: nat, ghost junk: set<string>,
                   ghost p0: Pass, ghost now: int, ghost calls0: seq<Call>)
      returns (signals: nat, left: nat)
      requires BatchReady(pairs, p0) && p0.snapshot.Keys !! junk && BatchAt(pairs, |pairs|, going, k, junk, p0, now)
      requires done + |going.Keys| == |pairs| && AskedAt(calls0, world.calls, pairs, |pairs|, going, done)
      modifies world
      ensures BatchAt(pairs, |pairs|, map[], k, junk, p0, now) && signals == |pairs| && left == 0
      ensures AskedAt(calls0, world.calls, pairs, |pairs|, map[], |pairs|)
      ensures Reaches(world.f, old(world.s), world.s)
      ensures world.quiet ==> world.nodes.Keys == old(world.nodes).Keys && SameKicks(old(world.s), world.s)
    {
      hide Encode, Decode, NodesMatch, Reachable, Reaches, BatchState, BatchReady, AskedAt;
      ReachesChain(world.f);
      signals, left := 0, done;
      var running := going;
      while signals < |pairs|
        invariant BatchAt(pairs, |pairs|, running, k, junk, p0, now) && signals + left + |running.Keys| == |pairs|
        invariant AskedAt(calls0, world.calls, pairs, |pairs|, running, signals + left)
        invariant Reaches(world.f, old(world.s), world.s)
        invariant world.quiet ==> world.nodes.Keys == old(world.nodes).Keys && SameKicks(old(world.s), world.s)
      {
        running, left := LetRun(pairs, |pairs|, running, left, true, k, junk, p0, now, calls0, signals + left);
        left := left - 1;
        signals := signals + 1;
      }
      assert running.Keys == {};
      assert running == map[];
    }

    /** batchCompareAndSwapTasks: pairs are stamped and handed to goroutines in order, and the
        goroutines get to the store in any order, while others are still being spawned or after.
        When it is over no goroutine is left, nor a signal, and the store has been asked for
        every pair exactly once. */
    method BatchCompareAndSwap(pairs: seq<Pair>, ghost k: nat, ghost junk: set<string>) returns (signals: nat, left: nat)
      requires world.Coupled() && k < |world.s.passes| && (forall g :: g in junk ==> g !in world.s.store)
      requires BatchReady(pairs, world.s.passes[k]) && world.s.passes[k].snapshot.Keys !! junk
      requires world.quiet ==> world.s.store == world.s.passes[k].snapshot
      modifies world
      ensures BatchAt(pairs, |pairs|, map[], k, junk, old(world.s).passes[k], old(world.now))
      ensures signals == |pairs| && left == 0
      ensures |old(world.calls)| <= |world.calls| && old(world.calls) == world.calls[..|old(world.calls)|]
      ensures AskedOnce(world.calls[|old(world.calls)|..], pairs)
      ensures Reaches(world.f, old(world.s), world.s)
      ensures world.quiet ==> world.nodes.Keys == old(world.nodes).Keys && SameKicks(old(world.s), world.s)
    {
      hide Encode, Decode, NodesMatch, Reachable, Reaches, BatchState, BatchReady, AskedAt, AskedOnce, OnePerKey;
      ReachesChain(world.f);
      ghost var p0, now, calls0 := world.s.passes[k], world.now, world.calls;
      BatchStarts(world.s, world.quiet, pairs, k, junk);
      ReadyIsOnePerKey(pairs, p0);
      var going, done := SpawnAll(pairs, k, junk, p0, now);
      signals, left := WaitAll(pairs, going, done, k, junk, p0, now, calls0);
      AskedInAll(calls0, world.calls, pairs);
    }

    /** The store has been asked to delete each of these keys in turn. */
    ghost predicate DeletionsOf(asked: seq<Call>, keys: seq<string>) {
      |asked| == |keys| && forall n :: 0 <= n < |keys| ==> asked[n].Deletion? && asked[n].key == keys[n]
    }

    /** The unconditional delete of the nodes that did not parse. */
    method DeleteKeys(keys: seq<string>, ghost k: nat, ghost junk: set<string>)
      requires world.Coupled() && k < |world.s.passes|
      requires (forall g :: g in junk ==> g !in world.s.store) && forall g :: g in keys ==> g in junk
      modifies world
      ensures world.Coupled() && Reaches(world.f, old(world.s), world.s)
      ensures k < |world.s.passes| && world.s.passes[k] == old(world.s).passes[k]
      ensures |old(world.calls)| <= |world.calls| && old(world.calls) == world.calls[..|old(world.calls)|]
      ensures DeletionsOf(world.calls[|old(world.calls)|..], keys)
      ensures world.quiet ==> world.s == old(world.s) && world.nodes.Keys == old(world.nodes).Keys - set g | g in keys
    {
      hide Encode, Decode, Encodable, NodesMatch, Reachable, Reaches, DeletionsOf;
      ReachesChain(world.f);
      NothingDeleted(world.calls);
      for n := 0 to |keys|
        invariant world.Coupled() && Reaches(world.f, old(world.s), world.s)
        invariant k < |world.s.passes| && world.s.passes[k] == old(world.s).passes[k]
        invariant forall g :: g in junk ==> g !in world.s.store
        invariant |old(world.calls)| <= |world.calls| && old(world.calls) == world.calls[..|old(world.calls)|]
        invariant DeletionsOf(world.calls[|old(world.calls)|..], keys[..n])
        invariant world.quiet ==>
                    && world.s == old(world.s)
                    && world.nodes.Keys == old(world.nodes).Keys - set g | g in keys[..n]
      {
        ghost var calls := world.calls;
        DeleteOne(keys[n], k, junk);
        ghost var c := world.calls[|calls|];
        OneMoreDeleted(old(world.calls), calls, keys, n, c);
        assert keys[..n + 1] == keys[..n] + [keys[n]];
      }
      assert keys[..|keys|] == keys;
    }

    lemma NothingDeleted(calls: seq<Call>)
      ensures DeletionsOf(calls[|calls|..], [])
    {
    }

    lemma OneMoreDeleted(calls0: seq<Call>, calls: seq<Call>, keys: seq<string>, n: nat, c: Call)
      requires n < |keys| && |calls0| <= |calls| && DeletionsOf(calls[|calls0|..], keys[..n])
      requires c.Deletion? && c.key == keys[n]
      ensures DeletionsOf((calls + [c])[|calls0|..], keys[..n + 1])
    {
      assert (calls + [c])[|calls0|..] == calls[|calls0|..] + [c];
      assert keys[..n + 1] == keys[..n] + [keys[n]];
    }

    method DeleteOne(g: string, ghost k: nat, ghost junk: set<string>)
      requires world.Coupled() && k < |world.s.passes| && (forall h :: h in junk ==> h !in world.s.store) && g in junk
      modifies world
      ensures world.Coupled() && Reaches(world.f, old(world.s), world.s)
      ensures k < |world.s.passes| && world.s.passes[k] == old(world.s).passes[k]
      ensures forall h :: h in junk ==> h !in world.s.store
      ensures exists err :: world.calls == old(world.calls) + [Deletion(g, err)]
      ensures world.quiet ==> world.s == old(world.s) && world.nodes.Keys == old(world.nodes).Keys - {g}
    {
      hide Encode, Decode, Encodable, Reachable, Reaches;
      Interfere(k, junk);
      var err;
      ghost var applied;
      err, applied := world.Delete(g);
    }

    // ---------- The whole pass ----------

    /** The nodes of a listing that do not parse. */
    ghost function Junk(list: seq<(string, Json)>, snapshot: map<string, Task>): set<string> {
      set i | 0 <= i < |list| && list[i].0 !in snapshot :: list[i].0
    }

    /** The second listing: no directory means no executors, another error ends the pass. */
    method ListAlive(ghost k: nat, ghost junk: set<string>) returns (ok: bool, alive: set<string>, ghost listing: Call)
      requires world.Coupled() && k < |world.s.passes| && world.s.passes[k].stage == TasksListed
      requires forall g :: g in junk ==> g !in world.s.store
      modifies world
      ensures world.Coupled() && k < |world.s.passes| && forall g :: g in junk ==> g !in world.s.store
      ensures Reaches(world.f, old(world.s), world.s) && world.calls == old(world.calls) + [listing]
      ensures listing.ExecutorListing? && (ok <==> listing.err in {NoError, ErrorKeyNotFound})
      ensures ok ==> alive == if listing.err == NoError then listing.names else {}
      ensures ok ==> world.s.passes[k] == old(world.s).passes[k].(stage := ExecutorsListed, alive := alive)
      ensures world.quiet ==>
                && ok && alive == old(world.executors)
                && world.s == old(world.s).(passes := world.s.passes)
                && world.now == old(world.now) && world.nodes == old(world.nodes)
    {
      hide Encode, Decode, NodesMatch, Reachable, Reaches;
      ReachesChain(world.f);
      Interfere(k, junk);
      var err;
      err, alive := world.ListExecutors();
      listing := ExecutorListing(err, alive);
      ok := true;
      if err == ErrorKeyNotFound {
        alive := {};
      } else if err != NoError {
        return false, alive, listing;
      }
      ListExecutorsTaken(world.f, world.s, k);
      world.s := AfterListExecutors(world.s, k);
    }

    /** Both listings answered, with tasks and with executors or none. */
    ghost predicate Listed(seen: seq<Call>) {
      && |seen| == 2 && seen[0].TaskListing? && seen[0].err == NoError
      && seen[1].ExecutorListing? && seen[1].err in {NoError, ErrorKeyNotFound}
    }

    /** One of them failed, and nothing was asked for after it. */
    ghost predicate CutShort(seen: seq<Call>) {
      || (|seen| == 1 && seen[0].TaskListing? && seen[0].err != NoError)
      || (&& |seen| == 2 && seen[0].TaskListing? && seen[0].err == NoError
          && seen[1].ExecutorListing? && seen[1].err !in {NoError, ErrorKeyNotFound})
    }

    /** What the pass knows is what it was told. */
    ghost predicate Told(seen: seq<Call>, p: Pass) {
      && Listed(seen)
      && Lists(seen[0].nodes, p.snapshot)
      && p.alive == if seen[1].err == NoError then seen[1].names else {}
    }

    /** The clock reading after the listings. */
    method ReadBoundaryNow(timeToClaim: int, ghost k: nat, ghost junk: set<string>) returns (boundary: int)
      requires world.Coupled() && k < |world.s.passes| && world.s.passes[k].stage == ExecutorsListed
      requires forall g :: g in junk ==> g !in world.s.store
      modifies world
      ensures world.Coupled() && k < |world.s.passes| && forall g :: g in junk ==> g !in world.s.store
      ensures Reaches(world.f, old(world.s), world.s) && world.calls == old(world.calls)
      ensures var p := old(world.s).passes[k];
              world.s.passes[k] ==
                p.(stage := Scanning, timeToClaim := timeToClaim, boundary := boundary, todo := p.snapshot.Keys)
      ensures boundary == world.now - timeToClaim
      ensures world.quiet ==>
                && world.s == old(world.s).(passes := world.s.passes)
                && world.now == old(world.now) && world.nodes == old(world.nodes)
    {
      hide Encode, Decode, NodesMatch, Reachable, Reaches;
      ReachesChain(world.f);
      Interfere(k, junk);
      var now := world.Time();
      boundary := now - timeToClaim;
      ReadBoundaryTaken(world.f, world.s, k, timeToClaim);
      world.s := AfterReadBoundary(world.s, k, timeToClaim);
    }

    /** The listings and the clock reading before the scan. */
    method Prepare(timeToClaim: int)
      returns (ok: bool, list: seq<(string, Json)>, alive: set<string>, boundary: int,
               ghost k: nat, ghost junk: set<string>, ghost seen: seq<Call>)
      requires world.Coupled()
      modifies world
      ensures world.Coupled() && Reaches(world.f, old(world.s), world.s)
      ensures world.calls == old(world.calls) + seen && (if ok then Listed(seen) else CutShort(seen))
      ensures world.quiet && !ok ==>
                world.nodes == old(world.nodes) == map[] && world.s.store == old(world.s).store == map[]
                && SameKicks(old(world.s), world.s)
      ensures ok ==>
                && |old(world.s).passes| <= k < |world.s.passes| && (forall g :: g in junk ==> g !in world.s.store)
                && var p := world.s.passes[k];
                   && p == Pass(Scanning, p.snapshot, alive, timeToClaim, boundary, p.snapshot.Keys, map[], map[])
                   && Told(seen, p) && list == seen[0].nodes && junk == Junk(list, p.snapshot)
                   && (world.quiet ==>
                         && Enumerates(list, old(world.nodes)) && world.nodes == old(world.nodes)
                         && world.now == old(world.now) && world.s.store == old(world.s).store
                         && SameKicks(old(world.s), world.s)
                         && p.snapshot == old(world.s).store && alive == old(world.executors)
                         && boundary == old(world.now) - timeToClaim)
    {
      hide Encode, Decode, NodesMatch, Encodable, Reachable, Reaches, Enumerates, Lists;
      ReachesChain(world.f);
      var err;
      ok, alive, boundary, k, junk := false, {}, 0, 0, {};
      err, list := world.ListRecursively();
      seen := [TaskListing(err, list)];
      if err != NoError {
        NoNodesNoTasks(world.nodes, world.s.store);
        return;
      }
      ListingParses(list, world.nodes, world.s.store);
      k := |world.s.passes|;
      junk := Junk(list, world.s.store);
      ListTasksTaken(world.f, world.s);
      world.s := AfterListTasks(world.s);

      var listed;
      ghost var listing;
      listed, alive, listing := ListAlive(k, junk);
      seen := seen + [listing];
      if !listed {
        return;
      }

      boundary := ReadBoundaryNow(timeToClaim, k, junk);
      ok := true;
    }

    /** What is left when a quiet batch is done is one function mapped over the listing. */
    lemma QuietPassConverges(store: map<string, Task>, p0: Pass, p: Pass, now: int)
      requires QuietStore(store, p0, p, now) && p.planned == map[] && p.sent == map[]
      requires DecidedAll(p0, now) && p0.todo == {} && p0.boundary == now - p0.timeToClaim
      requires forall g :: g in p0.planned ==> g in p0.snapshot
      ensures store == ConvergedStore(p0.snapshot, p0.alive, p0.timeToClaim, now)
    {
      forall g | g in p0.snapshot
        ensures g in store && store[g] == Converged(p0.snapshot[g], p0.alive, p0.timeToClaim, now)
      {
        hide Decide;
        assert DecidedAt(p0, g, now);
      }
      hide QuietStore, DecidedAll, Converged;
      assert store.Keys == p0.snapshot.Keys by { QuietKeys(store, p0, p, now); }
    }

    lemma QuietKeys(store: map<string, Task>, p0: Pass, p: Pass, now: int)
      requires QuietStore(store, p0, p, now)
      ensures store.Keys == p0.snapshot.Keys
    {
    }

    lemma BatchOver(s: State, quiet: bool, pairs: seq<Pair>, k: nat, junk: set<string>, p0: Pass, now: int)
      requires BatchState(s, quiet, pairs, |pairs|, map[], k, junk, p0, now)
      ensures s.passes[k] == p0.(planned := map[], sent := map[])
      ensures quiet ==> s.clock == now && QuietStore(s.store, p0, s.passes[k], now)
    {
      assert Keys(pairs, |pairs|) == {};
    }

    lemma ScanOver(list: seq<(string, Json)>, p0: Pass, p: Pass, pairs: seq<Pair>, keysToDelete: seq<string>)
      requires ScannedTo(list, |list|, p0, p, pairs, keysToDelete)
      ensures p.todo == {} && p.snapshot == p0.snapshot && p.sent == p0.sent && p.stage == p0.stage
      ensures p.alive == p0.alive && p.timeToClaim == p0.timeToClaim && p.boundary == p0.boundary
      ensures Scheduled(pairs, p.planned, p.snapshot)
      ensures forall g :: g in p.planned ==> g in p.snapshot
      ensures (set g | g in keysToDelete) == Junk(list, p0.snapshot)
    {
      assert Remaining(list, |list|, p0.snapshot) == {};
    }

    lemma JunkIsTheRest(list: seq<(string, Json)>, nodes: map<string, Json>, store: map<string, Task>)
      requires Enumerates(list, nodes) && NodesMatch(nodes, store)
      ensures nodes.Keys - Junk(list, store) == store.Keys
    {
      forall g | g in nodes && g !in store ensures g in Junk(list, store) {
        var i :| 0 <= i < |list| && list[i].0 == g;
      }
    }

    /** ConvergeTasks. Whatever else is going on, it is a run of the protocol. If a listing fails
        nothing more is done. Otherwise it is a pass of its own that knows what it was told, has
        decided on every listed task, asks for exactly one swap per task it decided to swap and
        gets an answer to each, and asks to delete exactly the nodes that did not parse. In a
        quiet world the tasks end up converged, each by itself, exactly the tasks to be kicked
        are, and of the nodes exactly those that did not parse are gone. */
    method ConvergeTasks(timeToClaim: int)
      returns (ghost seen: seq<Call>, ghost asked: seq<Call>, ghost deletions: seq<Call>, ghost pairs: seq<Pair>,
               ghost keys: seq<string>, ghost k: nat)
      requires world.Coupled()
      modifies world
      ensures world.Coupled() && Reaches(world.f, old(world.s), world.s)
      ensures world.calls == old(world.calls) + seen + asked + deletions
      ensures (Listed(seen) || CutShort(seen)) && (CutShort(seen) ==> asked == [] && deletions == [])
      ensures Listed(seen) ==>
                && |old(world.s).passes| <= k < |world.s.passes|
                && var p := world.s.passes[k];
                   && Told(seen, p) && p.timeToClaim == timeToClaim
                   && p.stage == Scanning && p.todo == {} && p.planned == map[] && p.sent == map[]
                   && PlannedRight(pairs, p) && AskedOnce(asked, pairs)
                   && DeletionsOf(deletions, keys) && (set g | g in keys) == Junk(seen[0].nodes, p.snapshot)
      ensures world.quiet ==>
                && world.s.store == ConvergedStore(old(world.s).store, old(world.executors), timeToClaim, old(world.now))
                && world.nodes.Keys == old(world.s).store.Keys
                && world.s.desireKicks == old(world.s).desireKicks +
                     DesiresKicked(old(world.s).store, old(world.executors), timeToClaim, old(world.now))
                && world.s.completeKicks == old(world.s).completeKicks +
                     CompletesKicked(old(world.s).store, old(world.executors), timeToClaim, old(world.now))
    {
      hide Encode, Decode, NodesMatch, Encodable, QuietStore, DecidedAll, Scheduled, Lists, Enumerates, BatchPass, Reachable,
           Reaches, DecidedSometime, PlannedRight, AskedOnce, DeletionsOf;
      ReachesChain(world.f);
      ghost var nodes, store := world.nodes, world.s.store;
      var ok, list, alive, boundary;
      ghost var junk;
      asked, deletions, pairs, keys := [], [], [], [];
      ok, list, alive, boundary, k, junk, seen := Prepare(timeToClaim);
      if !ok {
        return;
      }
      ghost var p0 := world.s.passes[k];
      ghost var s1 := world.s;
      PassEncodable(world.f, world.s, k);
      var tasksToCAS, keysToDelete := Scan(list, alive, boundary, timeToClaim, k, junk);
      ghost var p1 := world.s.passes[k];
      ScanOver(list, p0, p1, tasksToCAS, keysToDelete);
      ghost var now, s2, calls2 := world.now, world.s, world.calls;
      var signals, left := BatchCompareAndSwap(tasksToCAS, k, junk);
      BatchOver(world.s, world.quiet, tasksToCAS, k, junk, p1, now);
      if world.quiet {
        QuietPassConverges(world.s.store, p1, world.s.passes[k], now);
        JunkIsTheRest(list, nodes, store);
        KickedOver(s2, s1, p1, now);
      }
      ghost var calls3 := world.calls;
      DeleteKeys(keysToDelete, k, junk);
      pairs, keys := tasksToCAS, keysToDelete;
      ScheduledIsPlanned(pairs, p1, world.s.passes[k]);
      asked, deletions := calls3[|calls2|..], world.calls[|calls3|..];
    }
  }
}
