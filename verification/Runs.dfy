/** Runs put together and taken apart: what is reachable stays reachable, and a run ends with its last step. */
module Runs {
  import opened Exchange

  lemma {:induction false} RunConcat(s1: State, es: seq<Event>, s2: State, fs: seq<Event>, s3: State)
    requires Run(s1, es, s2) && Run(s2, fs, s3)
    ensures Run(s1, es + fs, s3)
    decreases |es|
  {
    if es == [] {
      assert es + fs == fs;
    } else {
      RunConcat(Step(s1, es[0]), es[1..], s2, fs, s3);
      assert (es + fs)[0] == es[0] && (es + fs)[1..] == es[1..] + fs;
    }
  }

  lemma RunOne(s: State, e: Event)
    requires Enabled(s, e)
    ensures Run(s, [e], Step(s, e))
  {
    assert Run(Step(s, e), [e][1..], Step(s, e));
  }

  lemma StepKeepsConfig(s: State, e: Event)
    requires Enabled(s, e)
    ensures Step(s, e).cfg == s.cfg && |Step(s, e).traders| == |s.traders|
  {
  }

  lemma {:induction false} RunKeepsConfig(s1: State, es: seq<Event>, s2: State)
    requires Run(s1, es, s2)
    ensures s2.cfg == s1.cfg
    decreases |es|
  {
    if es != [] {
      StepKeepsConfig(s1, es[0]);
      RunKeepsConfig(Step(s1, es[0]), es[1..], s2);
    }
  }

  lemma ReachableRun(s1: State, es: seq<Event>, s2: State)
    requires Reachable(s1) && Run(s1, es, s2)
    ensures Reachable(s2)
  {
    RunKeepsConfig(s1, es, s2);
    var fs :| Run(Init(s1.cfg), fs, s1);
    RunConcat(Init(s1.cfg), fs, s1, es, s2);
  }

  /** The last step of a run, and the state it starts from. */
  lemma {:induction false} LastStep(s1: State, es: seq<Event>, s2: State) returns (u: State)
    requires Run(s1, es, s2) && es != []
    ensures Run(s1, es[..|es| - 1], u) && Enabled(u, es[|es| - 1]) && s2 == Step(u, es[|es| - 1])
    decreases |es|
  {
    if |es| == 1 {
      u := s1;
    } else {
      u := LastStep(Step(s1, es[0]), es[1..], s2);
      assert es[..|es| - 1][1..] == es[1..][..|es| - 2];
    }
  }
}
