/**
What a converge pass amounts to when nobody interferes: one function applied to every task.
And why it does not matter in which order the swaps of a pass are executed.
*/
module ConvergeSpec {
  import opened Models
  import opened Lifecycle

  /** The task after an undisturbed pass at time `now` that sees the executors `alive`. */
  function Converged(t: Task, alive: set<string>, timeToClaim: int, now: int): Task {
    var d := Decide(t, now - timeToClaim, timeToClaim, t.executorId in alive, now);
    if d.Swap? then Stamp(d.task, now) else t
  }

  function ConvergedStore(store: map<string, Task>, alive: set<string>, timeToClaim: int, now: int): map<string, Task> {
    map g | g in store :: Converged(store[g], alive, timeToClaim, now)
  }

  /** The tasks an undisturbed pass kicks: for the executors, and for the stagers. */
  function DesiresKicked(store: map<string, Task>, alive: set<string>, timeToClaim: int, now: int): set<Task> {
    set g | g in store && Decide(store[g], now - timeToClaim, timeToClaim, store[g].executorId in alive, now).KickDesire?
      :: store[g]
  }

  function CompletesKicked(store: map<string, Task>, alive: set<string>, timeToClaim: int, now: int): set<Task> {
    set g | g in store && Decide(store[g], now - timeToClaim, timeToClaim, store[g].executorId in alive, now).KickComplete?
      :: store[g]
  }

  /** What an undisturbed pass makes of each stored task, field by field. */
  lemma RepairTable(store: map<string, Task>, alive: set<string>, timeToClaim: int, now: int, g: string)
    requires g in store
    ensures ConvergedStore(store, alive, timeToClaim, now).Keys == store.Keys
    ensures var t, t' := store[g], ConvergedStore(store, alive, timeToClaim, now)[g];
      if t.state == Pending && t.createdAt + timeToClaim <= now then
        t' == t.(state := Completed, failed := true, failureReason := "not claimed within time limit", updatedAt := now)
      else if t.state in {Claimed, Running} && t.executorId !in alive then
        t' == t.(state := Completed, failed := true, failureReason := "executor disappeared before completion",
                 updatedAt := now)
      else if t.state == Claimed && t.updatedAt + 30_000_000_000 <= now then
        t' == t.(state := Pending, executorId := "", containerHandle := "", updatedAt := now)
      else if t.state == Resolving && t.updatedAt + 30_000_000_000 <= now then
        t' == t.(state := Completed, updatedAt := now)
      else
        t' == t
  {
    DecisionTable(store[g], now - timeToClaim, timeToClaim, store[g].executorId in alive, now);
  }

  /** And which tasks it kicks. */
  lemma KickTable(store: map<string, Task>, alive: set<string>, timeToClaim: int, now: int, t: Task)
    ensures t in DesiresKicked(store, alive, timeToClaim, now)
            <==> (exists g :: g in store && store[g] == t) && t.state == Pending && now < t.createdAt + timeToClaim
    ensures t in CompletesKicked(store, alive, timeToClaim, now)
            <==> (exists g :: g in store && store[g] == t) && t.state == Completed
  {
  }

  predicate Overdue(t: Task, timeToClaim: int, now: int) {
    t.state == Pending && t.createdAt <= now - timeToClaim
  }

  /** Claimed by a present executor thirty seconds ago or longer. */
  predicate StaleClaim(t: Task, alive: set<string>, now: int) {
    t.state == Claimed && t.executorId in alive && THIRTY_SECONDS <= now - t.updatedAt
  }

  /** The overdue Pending tasks a pass leaves behind are exactly those it has just demoted. */
  lemma OverdueAfterPass(t: Task, alive: set<string>, timeToClaim: int, now: int)
    ensures Overdue(Converged(t, alive, timeToClaim, now), timeToClaim, now)
            <==> StaleClaim(t, alive, now) && t.createdAt <= now - timeToClaim
  {
  }

  /** A second pass at the same time changes a task exactly when the first left it overdue. */
  lemma SecondPass(t: Task, alive: set<string>, timeToClaim: int, now: int)
    ensures var t1 := Converged(t, alive, timeToClaim, now);
            Converged(t1, alive, timeToClaim, now) != t1
            <==> StaleClaim(t, alive, now) && t.createdAt <= now - timeToClaim
  {
    var t1 := Converged(t, alive, timeToClaim, now);
    OverdueAfterPass(t, alive, timeToClaim, now);
    if Overdue(t1, timeToClaim, now) {
      assert Converged(t1, alive, timeToClaim, now).state == Completed;
    }
  }

  /** At one time and with one set of executors, nothing changes after two passes. */
  lemma TwoPassesStabilise(store: map<string, Task>, alive: set<string>, timeToClaim: int, now: int)
    ensures var s1 := ConvergedStore(store, alive, timeToClaim, now);
            var s2 := ConvergedStore(s1, alive, timeToClaim, now);
            ConvergedStore(s2, alive, timeToClaim, now) == s2
  {
    var s1 := ConvergedStore(store, alive, timeToClaim, now);
    var s2 := ConvergedStore(s1, alive, timeToClaim, now);
    forall g | g in store ensures Converged(s2[g], alive, timeToClaim, now) == s2[g] {
      SecondPass(s1[g], alive, timeToClaim, now);
      OverdueAfterPass(store[g], alive, timeToClaim, now);
    }
  }

  // ---------- Batches ----------

  /** A scheduled swap: the listed task and its replacement, under the same key. */
  datatype Pair = Pair(old': Task, new': Task)

  function Swapped(store: map<string, Task>, p: Pair): map<string, Task> {
    if p.old'.guid in store && store[p.old'.guid] == p.old' then store[p.old'.guid := p.new'] else store
  }

  /** The swaps executed one after the other, in the order of the sequence. */
  function SwappedAll(store: map<string, Task>, ps: seq<Pair>): map<string, Task>
    decreases |ps|
  {
    if ps == [] then store else Swapped(SwappedAll(store, ps[..|ps| - 1]), ps[|ps| - 1])
  }

  /** Pairs made from one listing: one per key. */
  ghost predicate OnePerKey(ps: seq<Pair>) {
    forall i, j :: 0 <= i < j < |ps| ==> ps[i].old'.guid != ps[j].old'.guid
  }

  ghost predicate Hits(store: map<string, Task>, p: Pair, g: string) {
    p.old'.guid == g && g in store && store[g] == p.old'
  }

  /** What a batch does to each key depends on the set of its pairs alone. */
  lemma {:induction false} BatchPointwise(store: map<string, Task>, ps: seq<Pair>, g: string)
    requires OnePerKey(ps)
    ensures SwappedAll(store, ps).Keys == store.Keys
    ensures forall p :: p in ps && Hits(store, p, g) ==> SwappedAll(store, ps)[g] == p.new'
    ensures g in store && (forall p :: p in ps ==> !Hits(store, p, g)) ==> SwappedAll(store, ps)[g] == store[g]
    decreases |ps|
  {
    if ps != [] {
      var n := |ps| - 1;
      BatchPointwise(store, ps[..n], g);
      assert ps == ps[..n] + [ps[n]];
      if ps[n].old'.guid == g {
        forall p | p in ps[..n] ensures !Hits(store, p, g) {
        }
      }
    }
  }

  /** Whatever order the goroutines of a batch run in, and whatever the store has become since
      the listing, the store after the batch is the same. */
  lemma BatchConfluence(store: map<string, Task>, ps: seq<Pair>, qs: seq<Pair>)
    requires OnePerKey(ps) && OnePerKey(qs) && (forall p :: p in ps <==> p in qs)
    ensures SwappedAll(store, ps) == SwappedAll(store, qs)
  {
    BatchPointwise(store, ps, "");
    BatchPointwise(store, qs, "");
    forall g | g in store ensures SwappedAll(store, ps)[g] == SwappedAll(store, qs)[g] {
      BatchPointwise(store, ps, g);
      BatchPointwise(store, qs, g);
      if p :| p in ps && Hits(store, p, g) {
        assert p in qs;
      }
    }
  }
}
