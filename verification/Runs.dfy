/** Runs of a transition relation: finite sequences of consecutive states, from an initial
    state or from any state. */
module Runs {

  ghost predicate Follows<S>(next: (S, S) -> bool, run: seq<S>, i: nat)
    requires i + 1 < |run|
  {
    next(run[i], run[i + 1])
  }

  /** A nonempty sequence in which every state steps to the next one. */
  ghost predicate IsPath<S>(next: (S, S) -> bool, run: seq<S>) {
    |run| >= 1 && forall i :: 0 <= i < |run| - 1 ==> Follows(next, run, i)
  }

  /** A path that starts in an initial state. */
  ghost predicate IsRun<S>(init: S -> bool, next: (S, S) -> bool, run: seq<S>) {
    IsPath(next, run) && init(run[0])
  }

  /** One more step. */
  lemma Extend<S>(next: (S, S) -> bool, run: seq<S>, t: S) returns (longer: seq<S>)
    requires IsPath(next, run) && next(run[|run| - 1], t)
    ensures longer == run + [t] && IsPath(next, longer)
  {
    longer := run + [t];
    forall i | 0 <= i < |longer| - 1 ensures Follows(next, longer, i) {
      assert i < |run| - 1 ==> Follows(next, run, i);
    }
  }

  /** `next` preserves `inv`. */
  ghost predicate Preserves<S(!new)>(next: (S, S) -> bool, inv: S -> bool) {
    forall s, t :: inv(s) && next(s, t) ==> inv(t)
  }

  /** What every step preserves holds from then on. */
  lemma {:induction false} Later<S(!new)>(next: (S, S) -> bool, inv: S -> bool, run: seq<S>, i: nat, j: nat)
    requires IsPath(next, run) && i <= j < |run| && inv(run[i]) && Preserves(next, inv)
    ensures inv(run[j])
  {
    if i == j {
    } else {
      Later(next, inv, run, i, j - 1);
      assert Follows(next, run, j - 1);
    }
  }

  /** `t` can be reached from `s`. */
  ghost predicate Leads<S(!new)>(next: (S, S) -> bool, s: S, t: S) {
    exists run :: IsPath(next, run) && run[0] == s && run[|run| - 1] == t
  }

  lemma LeadsSelf<S(!new)>(next: (S, S) -> bool, s: S)
    ensures Leads(next, s, s)
  {
    assert IsPath(next, [s]);
  }

  lemma LeadsStep<S(!new)>(next: (S, S) -> bool, s: S, m: S, t: S)
    requires next(s, m) && Leads(next, m, t)
    ensures Leads(next, s, t)
  {
    var rest :| IsPath(next, rest) && rest[0] == m && rest[|rest| - 1] == t;
    var run := [s] + rest;
    forall i | 0 <= i < |run| - 1 ensures Follows(next, run, i) {
      if i > 0 {
        assert Follows(next, rest, i - 1);
      }
    }
    assert run[|run| - 1] == t;
  }

  lemma LeadsTrans<S(!new)>(next: (S, S) -> bool, s: S, m: S, t: S)
    requires Leads(next, s, m) && Leads(next, m, t)
    ensures Leads(next, s, t)
  {
    var first :| IsPath(next, first) && first[0] == s && first[|first| - 1] == m;
    var i := |first| - 1;
    while i > 0
      invariant 0 <= i < |first| && Leads(next, first[i], t)
    {
      assert Follows(next, first, i - 1);
      LeadsStep(next, first[i - 1], first[i], t);
      i := i - 1;
    }
  }

  lemma LeadsKeeps<S(!new)>(next: (S, S) -> bool, inv: S -> bool, s: S, t: S)
    requires Leads(next, s, t) && inv(s) && Preserves(next, inv)
    ensures inv(t)
  {
    var run :| IsPath(next, run) && run[0] == s && run[|run| - 1] == t;
    Later(next, inv, run, 0, |run| - 1);
  }
}
