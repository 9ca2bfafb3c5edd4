/** Finite runs of the protocol, as lists of labels. */
module Paths {
  import opened Protocol

  /** The steps can be taken one after the other. */
  ghost predicate CanRun(m: Mode, s: Sys, ls: seq<Label>)
    decreases |ls|
  {
    ls == [] || (Enabled(m, s, ls[0]) && CanRun(m, Apply(m, s, ls[0]), ls[1..]))
  }

  ghost function RunAll(m: Mode, s: Sys, ls: seq<Label>): Sys
    requires CanRun(m, s, ls)
    decreases |ls|
  {
    if ls == [] then s else RunAll(m, Apply(m, s, ls[0]), ls[1..])
  }

  /** The states of a run. */
  ghost function States(m: Mode, s: Sys, ls: seq<Label>): seq<Sys>
    requires CanRun(m, s, ls)
    decreases |ls|
  {
    [s] + (if ls == [] then [] else States(m, Apply(m, s, ls[0]), ls[1..]))
  }

  lemma {:induction false} StatesFollow(m: Mode, s: Sys, ls: seq<Label>)
    requires CanRun(m, s, ls)
    ensures var ss := States(m, s, ls);
      && |ss| == |ls| + 1 && ss[0] == s && ss[|ls|] == RunAll(m, s, ls)
      && forall i :: 0 <= i < |ls| ==> Enabled(m, ss[i], ls[i]) && ss[i + 1] == Apply(m, ss[i], ls[i])
    decreases |ls|
  {
    hide Enabled, Apply;
    if ls != [] {
      var s1, rest := Apply(m, s, ls[0]), ls[1..];
      StatesFollow(m, s1, rest);
      var ss, ss1 := States(m, s, ls), States(m, s1, rest);
      forall i | 0 <= i < |ls| ensures Enabled(m, ss[i], ls[i]) && ss[i + 1] == Apply(m, ss[i], ls[i]) {
        assert ss[i + 1] == ss1[i];
        if i > 0 {
          assert ss[i] == ss1[i - 1] && ls[i] == rest[i - 1];
        }
      }
    }
  }

  lemma {:induction false} RunThenRun(m: Mode, s: Sys, ls: seq<Label>, more: seq<Label>)
    requires CanRun(m, s, ls) && CanRun(m, RunAll(m, s, ls), more)
    ensures CanRun(m, s, ls + more) && RunAll(m, s, ls + more) == RunAll(m, RunAll(m, s, ls), more)
    decreases |ls|
  {
    hide Enabled, Apply;
    if ls == [] {
      assert ls + more == more;
    } else {
      RunThenRun(m, Apply(m, s, ls[0]), ls[1..], more);
      assert (ls + more)[1..] == ls[1..] + more;
    }
  }

  lemma One(m: Mode, s: Sys, l: Label)
    requires Enabled(m, s, l)
    ensures CanRun(m, s, [l]) && RunAll(m, s, [l]) == Apply(m, s, l)
  {
    hide Enabled, Apply;
    assert [l][1..] == [];
    assert CanRun(m, Apply(m, s, l), []) && RunAll(m, Apply(m, s, l), []) == Apply(m, s, l);
  }

  lemma Then(m: Mode, s0: Sys, ls: seq<Label>, l: Label) returns (longer: seq<Label>)
    requires CanRun(m, s0, ls) && Enabled(m, RunAll(m, s0, ls), l)
    ensures |longer| == |ls| + 1 && CanRun(m, s0, longer) && RunAll(m, s0, longer) == Apply(m, RunAll(m, s0, ls), l)
  {
    One(m, RunAll(m, s0, ls), l);
    RunThenRun(m, s0, ls, [l]);
    longer := ls + [l];
  }

  lemma Still(m: Mode, s: Sys) returns (ls: seq<Label>)
    ensures |ls| == 0 && CanRun(m, s, ls) && RunAll(m, s, ls) == s
  {
    ls := [];
  }
}
