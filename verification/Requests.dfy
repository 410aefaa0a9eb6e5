/**
How often one call's store operation takes effect. A call that sees a timeout sends the same
request again; a request is what all its attempts have in common.
*/
module Requests {
  import opened Lifecycle
  import opened Protocol

  /** The compare-and-swap of a work, the one of a resolution, or the set of a submission. */
  datatype Request = SwapOf(i: nat, work: Work) | ResolveOf(i: nat, resolution: Resolution) | SetOf(i: nat)

  /** The operation reached the store, whatever was reported. */
  predicate Took(r: Reply) {
    r.Answer? || r.applied
  }

  /** This step answers an attempt of `q` that has changed the store. */
  predicate Applied(s: State, step: Step, q: Request) {
    match q
    case SwapOf(i, w) =>
      && step.CasReply? && step.i == i && i < |s.works| && s.works[i] == w
      && Took(step.reply) && Holds(s, w.original)
    case ResolveOf(i, x) =>
      && step.ResolveReply? && step.i == i && i < |s.resolutions| && s.resolutions[i] == x
      && Took(step.reply) && Holds(s, x.original)
    case SetOf(i) => step.SetReply? && step.i == i && Took(step.reply)
  }

  /** How many attempts of `q` change the store in a run. */
  function Applications(f: Faults, s: State, run: seq<Step>, q: Request): nat
    requires Runs(f, s, run)
    decreases |run|
  {
    if run == [] then 0
    else One(Applied(s, run[0], q)) + Applications(f, Apply(f, s, run[0]), run[1..], q)
  }

  lemma {:induction false} ApplicationsCompose(f: Faults, s: State, a: seq<Step>, b: seq<Step>, q: Request)
    requires Runs(f, s, a) && Runs(f, After(f, s, a), b)
    ensures Runs(f, s, a + b)
    ensures Applications(f, s, a + b, q) == Applications(f, s, a, q) + Applications(f, After(f, s, a), b, q)
    decreases |a|
  {
    RunsCompose(f, s, a, b);
    if a == [] {
      assert a + b == b;
    } else {
      assert (a + b)[1..] == a[1..] + b;
      ApplicationsCompose(f, Apply(f, s, a[0]), a[1..], b, q);
    }
  }

  /** Some run from `s` to `s'` applies `q` exactly `n` times. */
  ghost predicate Applies(f: Faults, s: State, s': State, q: Request, n: nat) {
    exists run :: Runs(f, s, run) && After(f, s, run) == s' && Applications(f, s, run, q) == n
  }

  lemma AppliesSelf(f: Faults, s: State, q: Request)
    ensures Applies(f, s, s, q, 0)
  {
    assert Runs(f, s, []) && After(f, s, []) == s && Applications(f, s, [], q) == 0;
  }

  lemma AppliesStep(f: Faults, s: State, step: Step, q: Request)
    requires Enabled(f, s, step)
    ensures Applies(f, s, Apply(f, s, step), q, One(Applied(s, step, q)))
  {
    RunOfOne(f, s, step);
    assert [step][1..] == [];
    assert Applications(f, Apply(f, s, step), [], q) == 0;
    assert Applications(f, s, [step], q) == One(Applied(s, step, q));
  }

  /** Time passing applies nothing. */
  lemma AppliesSleep(f: Faults, s: State, d: nat, q: Request)
    ensures Applies(f, s, s.(clock := s.clock + d), q, 0)
  {
    AppliesStep(f, s, Tick(d), q);
  }

  /** The answer to a work's request, and to a resolution's. */
  lemma CasApplies(f: Faults, s: State, i: nat, r: Reply)
    requires Enabled(f, s, CasReply(i, r))
    ensures Applies(f, s, AfterCas(s, i, r), SwapOf(i, s.works[i]), One(Took(r) && Holds(s, s.works[i].original)))
  {
    AppliesStep(f, s, CasReply(i, r), SwapOf(i, s.works[i]));
  }

  lemma ResolveApplies(f: Faults, s: State, i: nat, r: Reply)
    requires Enabled(f, s, ResolveReply(i, r))
    ensures Applies(f, s, AfterResolve(s, i, r), ResolveOf(i, s.resolutions[i]),
                    One(Took(r) && Holds(s, s.resolutions[i].original)))
  {
    AppliesStep(f, s, ResolveReply(i, r), ResolveOf(i, s.resolutions[i]));
  }

  lemma AppliesOn(f: Faults, s: State, s1: State, s2: State, q: Request, m: nat, n: nat)
    requires Applies(f, s, s1, q, m) && Applies(f, s1, s2, q, n)
    ensures Applies(f, s, s2, q, m + n)
  {
    var a :| Runs(f, s, a) && After(f, s, a) == s1 && Applications(f, s, a, q) == m;
    var b :| Runs(f, s1, b) && After(f, s1, b) == s2 && Applications(f, s1, b, q) == n;
    RunsCompose(f, s, a, b);
    ApplicationsCompose(f, s, a, b, q);
  }

  lemma AppliesSome(f: Faults, s: State, s': State, q: Request) returns (n: nat)
    requires Reaches(f, s, s')
    ensures Applies(f, s, s', q, n)
  {
    var run :| Runs(f, s, run) && After(f, s, run) == s';
    n := Applications(f, s, run, q);
  }

  /** The record of the call that makes the request. */
  function Keeper(q: Request): Record {
    match q
    case SwapOf(i, _) => TheWork(i)
    case ResolveOf(i, _) => TheResolution(i)
    case SetOf(i) => TheSubmission(i)
  }

  lemma {:induction false} OthersApplyNothing(f: Faults, s: State, run: seq<Step>, mine: set<Record>, q: Request)
    requires Runs(f, s, run) && NoneOf(run, mine) && Keeper(q) in mine
    ensures Applications(f, s, run, q) == 0
    decreases |run|
  {
    if run != [] {
      assert !Of(run[0], Keeper(q));
      assert NoneOf(run[1..], mine) by {
        forall k, r | 0 <= k < |run[1..]| && r in mine ensures !Of(run[1..][k], r) {
          assert run[1..][k] == run[k + 1];
        }
      }
      OthersApplyNothing(f, Apply(f, s, run[0]), run[1..], mine, q);
    }
  }

  /** Whoever leaves a call's record alone does not apply its request. */
  lemma BesideApplies(f: Faults, s: State, s': State, mine: set<Record>, q: Request)
    requires ReachesBeside(f, s, s', mine) && Keeper(q) in mine
    ensures Applies(f, s, s', q, 0)
  {
    var run :| Runs(f, s, run) && After(f, s, run) == s' && NoneOf(run, mine);
    OthersApplyNothing(f, s, run, mine, q);
  }
}
