/** Runs of a step relation, for systems whose operations are made of many small steps. */
module Chains {
  ghost predicate Linked<W(!new), S(!new)>(next: (W, S, W) -> bool, worlds: seq<W>, steps: seq<S>, n: nat)
    requires |worlds| == |steps| + 1 && n < |steps|
  {
    next(worlds[n], steps[n], worlds[n + 1])
  }

  ghost predicate Chain<W(!new), S(!new)>(next: (W, S, W) -> bool, worlds: seq<W>, steps: seq<S>) {
    |worlds| == |steps| + 1 && forall n :: 0 <= n < |steps| ==> Linked(next, worlds, steps, n)
  }

  ghost predicate Leads<W(!new), S(!new)>(next: (W, S, W) -> bool, w: W, w': W) {
    exists worlds, steps :: Chain(next, worlds, steps) && worlds[0] == w && worlds[|worlds| - 1] == w'
  }

  lemma LeadsNowhere<W(!new), S(!new)>(next: (W, S, W) -> bool, w: W)
    ensures Leads(next, w, w)
  {
    assert Chain(next, [w], []);
  }

  lemma OneMoreStep<W(!new), S(!new)>(next: (W, S, W) -> bool, w: W, w': W, s: S, w'': W)
    requires Leads(next, w, w') && next(w', s, w'')
    ensures Leads(next, w, w'')
  {
    var worlds, steps :| Chain(next, worlds, steps) && worlds[0] == w && worlds[|worlds| - 1] == w';
    var longer, more := worlds + [w''], steps + [s];
    forall n | 0 <= n < |more|
      ensures Linked(next, longer, more, n)
    {
      if n < |steps| {
        assert Linked(next, worlds, steps, n);
      }
    }
    assert Chain(next, longer, more);
  }

  lemma LeadsFurther<W(!new), S(!new)>(next: (W, S, W) -> bool, w: W, w': W, w'': W)
    requires Leads(next, w, w') && Leads(next, w', w'')
    ensures Leads(next, w, w'')
  {
    var worlds, steps :| Chain(next, worlds, steps) && worlds[0] == w' && worlds[|worlds| - 1] == w'';
    LeadsAlong(next, w, worlds, steps, |steps|);
  }

  lemma {:induction false} LeadsAlong<W(!new), S(!new)>(next: (W, S, W) -> bool, w: W, worlds: seq<W>, steps: seq<S>,
      n: nat)
    requires Chain(next, worlds, steps) && n <= |steps| && Leads(next, w, worlds[0])
    ensures Leads(next, w, worlds[n])
  {
    if n > 0 {
      LeadsAlong(next, w, worlds, steps, n - 1);
      assert Linked(next, worlds, steps, n - 1);
      OneMoreStep(next, w, worlds[n - 1], steps[n - 1], worlds[n]);
    }
  }

  /** What every step keeps, every run keeps. */
  lemma {:induction false} ChainKeeps<W(!new), S(!new)>(next: (W, S, W) -> bool, inv: W -> bool, worlds: seq<W>,
      steps: seq<S>, n: nat)
    requires Chain(next, worlds, steps) && inv(worlds[0]) && n < |worlds|
    requires forall w, s, w' :: inv(w) && next(w, s, w') ==> inv(w')
    ensures inv(worlds[n])
  {
    if n > 0 {
      ChainKeeps(next, inv, worlds, steps, n - 1);
      assert Linked(next, worlds, steps, n - 1);
    }
  }

  lemma LeadsKeeps<W(!new), S(!new)>(next: (W, S, W) -> bool, inv: W -> bool, w: W, w': W)
    requires inv(w) && Leads(next, w, w')
    requires forall w, s, w' :: inv(w) && next(w, s, w') ==> inv(w')
    ensures inv(w')
  {
    var worlds, steps :| Chain(next, worlds, steps) && worlds[0] == w && worlds[|worlds| - 1] == w';
    ChainKeeps(next, inv, worlds, steps, |worlds| - 1);
  }
}
