/** Conditions that some steps of a run set and others clear. */
module Latches {
  /** The k-th step of a run set the condition, and no later step before the n-th cleared it. */
  predicate SetBefore(on: seq<bool>, off: seq<bool>, n: nat)
    requires |on| == |off| && n <= |on|
  {
    exists i :: 0 <= i < n && on[i] && forall j :: i < j < n ==> !off[j]
  }

  /** A condition that `on` sets and `off` clears holds exactly if it was set and not cleared since. */
  lemma {:induction false} Latch(holds: seq<bool>, on: seq<bool>, off: seq<bool>, n: nat)
    requires |on| == |off| && |holds| == |on| + 1 && n <= |on| && !holds[0]
    requires forall k :: 0 <= k < |on| ==> holds[k + 1] == (on[k] || (holds[k] && !off[k]))
    ensures holds[n] <==> SetBefore(on, off, n)
    decreases n
  {
    if n > 0 {
      Latch(holds, on, off, n - 1);
      assert holds[n] == (on[n - 1] || (holds[n - 1] && !off[n - 1]));
      if holds[n] && !on[n - 1] {
        var i :| 0 <= i < n - 1 && on[i] && forall j :: i < j < n - 1 ==> !off[j];
        assert forall j :: i < j < n ==> !off[j];
      }
      if SetBefore(on, off, n) && !on[n - 1] {
        var i :| 0 <= i < n && on[i] && forall j :: i < j < n ==> !off[j];
        assert i < n - 1 && !off[n - 1];
      }
    }
  }
}
