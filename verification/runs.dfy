/** Runs put together from shorter ones. */
module Runs {
  import opened Protocol

  lemma EmptyRun(cfg: Config, s: World)
    ensures IsRun(cfg, s, []) && After(cfg, s, []) == s
  {
  }

  lemma Prepend(cfg: Config, s: World, st: Step, steps: seq<Step>)
    requires Enabled(cfg, s, st) && IsRun(cfg, Apply(cfg, s, st), steps)
    ensures IsRun(cfg, s, [st] + steps) && After(cfg, s, [st] + steps) == After(cfg, Apply(cfg, s, st), steps)
  {
    hide Enabled, Apply;
    assert ([st] + steps)[0] == st && ([st] + steps)[1..] == steps;
  }

  lemma RunOfOne(cfg: Config, s: World, st: Step)
    requires Enabled(cfg, s, st)
    ensures IsRun(cfg, s, [st]) && After(cfg, s, [st]) == Apply(cfg, s, st)
  {
    hide Enabled, Apply, IsRun, After;
    EmptyRun(cfg, Apply(cfg, s, st));
    Prepend(cfg, s, st, []);
    assert [st] + [] == [st];
  }

  lemma RunOfTwo(cfg: Config, s: World, a: Step, b: Step)
    requires Enabled(cfg, s, a) && Enabled(cfg, Apply(cfg, s, a), b)
    ensures IsRun(cfg, s, [a, b]) && After(cfg, s, [a, b]) == Apply(cfg, Apply(cfg, s, a), b)
  {
    hide Enabled, Apply, IsRun, After;
    RunOfOne(cfg, Apply(cfg, s, a), b);
    Prepend(cfg, s, a, [b]);
    assert [a] + [b] == [a, b];
  }

  /** The unfolding of a run with a first step. */
  lemma FirstStep(cfg: Config, s: World, steps: seq<Step>)
    requires IsRun(cfg, s, steps) && steps != []
    ensures Enabled(cfg, s, steps[0]) && IsRun(cfg, Apply(cfg, s, steps[0]), steps[1..])
    ensures After(cfg, s, steps) == After(cfg, Apply(cfg, s, steps[0]), steps[1..])
  {
  }

  lemma {:induction false} Concat(cfg: Config, s: World, a: seq<Step>, b: seq<Step>)
    requires IsRun(cfg, s, a) && IsRun(cfg, After(cfg, s, a), b)
    ensures IsRun(cfg, s, a + b) && After(cfg, s, a + b) == After(cfg, After(cfg, s, a), b)
    decreases |a|
  {
    hide Enabled, Apply;
    if a == [] {
      assert a + b == b;
    } else {
      FirstStep(cfg, s, a);
      hide IsRun, After;
      Concat(cfg, Apply(cfg, s, a[0]), a[1..], b);
      Prepend(cfg, s, a[0], a[1..] + b);
      assert [a[0]] + (a[1..] + b) == a + b;
    }
  }

  /** A run can be cut anywhere. */
  lemma {:induction false} Cut(cfg: Config, s: World, steps: seq<Step>, k: nat)
    requires IsRun(cfg, s, steps) && k <= |steps|
    ensures IsRun(cfg, s, steps[..k]) && IsRun(cfg, After(cfg, s, steps[..k]), steps[k..])
    ensures After(cfg, After(cfg, s, steps[..k]), steps[k..]) == After(cfg, s, steps)
    decreases |steps|
  {
    hide Enabled, Apply;
    if k == 0 {
      assert steps[..0] == [] && steps[0..] == steps;
    } else {
      FirstStep(cfg, s, steps);
      hide IsRun, After;
      Cut(cfg, Apply(cfg, s, steps[0]), steps[1..], k - 1);
      Prepend(cfg, s, steps[0], steps[1..][..k - 1]);
      assert [steps[0]] + steps[1..][..k - 1] == steps[..k] && steps[1..][k - 1..] == steps[k..];
    }
  }

  lemma ReachableRun(cfg: Config, s: World, steps: seq<Step>)
    requires Reachable(cfg, s) && IsRun(cfg, s, steps)
    ensures Reachable(cfg, After(cfg, s, steps))
  {
    hide IsRun, After, Init;
    var s0: World, before: seq<Step> :| Init(s0) && IsRun(cfg, s0, before) && After(cfg, s0, before) == s;
    Concat(cfg, s0, before, steps);
  }

  lemma ReachableStep(cfg: Config, s: World, st: Step)
    requires Reachable(cfg, s) && Enabled(cfg, s, st)
    ensures Reachable(cfg, Apply(cfg, s, st))
  {
    hide Enabled, Apply, IsRun, After, Reachable;
    RunOfOne(cfg, s, st);
    ReachableRun(cfg, s, [st]);
  }
}
