/** Runs of a step relation, and the induction over them. */
module Runs {

  ghost predicate IsChain<W(!new)>(step: (W, W) -> bool, ws: seq<W>) {
    forall i :: 0 <= i < |ws| - 1 ==> step(ws[i], ws[i + 1])
  }

  ghost predicate IsKept<W(!new)>(step: (W, W) -> bool, inv: W -> bool) {
    forall w, w' :: inv(w) && step(w, w') ==> inv(w')
  }

  lemma ChainsJoin<W(!new)>(step: (W, W) -> bool, a: seq<W>, b: seq<W>)
    requires IsChain(step, a) && IsChain(step, b) && a != [] && b != [] && a[|a| - 1] == b[0]
    ensures IsChain(step, a + b[1..])
  {
    var ws := a + b[1..];
    forall i | 0 <= i < |ws| - 1 ensures step(ws[i], ws[i + 1]) {
      if i < |a| - 1 {
        assert ws[i] == a[i] && ws[i + 1] == a[i + 1];
      } else {
        var j := i - (|a| - 1);
        assert ws[i] == b[j] && ws[i + 1] == b[j + 1];
      }
    }
  }

  /** What holds first and survives every step holds at every point of a run. */
  lemma {:induction false} HoldsAlong<W(!new)>(step: (W, W) -> bool, inv: W -> bool, ws: seq<W>, k: nat)
    requires IsChain(step, ws) && IsKept(step, inv) && k < |ws| && inv(ws[0])
    ensures inv(ws[k])
  {
    if k > 0 {
      HoldsAlong(step, inv, ws, k - 1);
      assert step(ws[k - 1], ws[k - 1 + 1]);
    }
  }
}
