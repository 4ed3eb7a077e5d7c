/** The two pieces of JavaScript number handling the metrics rely on. */
module Rounding {

  /** JavaScript's Math.round on a real: the nearest integer, with halves
      going towards positive infinity. */
  function Round(x: real): (r: int)
    ensures r as real - 0.5 <= x < r as real + 0.5
  {
    (x + 0.5).Floor
  }

  /** The two bounds in Round's contract pick out exactly one integer. */
  lemma RoundUnique(x: real, k: int)
    requires k as real - 0.5 <= x < k as real + 0.5
    ensures Round(x) == k
  {
    var r := Round(x);
    assert r as real - 0.5 <= x < r as real + 0.5;
    assert k - 1 < r < k + 1;
  }

  lemma RoundMonotone(x: real, y: real)
    requires x <= y
    ensures Round(x) <= Round(y)
  {
    var rx, ry := Round(x), Round(y);
    assert rx as real - 0.5 <= x <= y < ry as real + 0.5;
    assert rx < ry + 1;
  }

  /** Math.max(lo, Math.min(hi, v)). */
  function Clamp(lo: int, hi: int, v: int): (r: int)
    ensures r >= lo
    ensures lo <= hi ==> r <= hi
    ensures lo <= v <= hi ==> r == v
    ensures v < lo ==> r == lo
    ensures lo <= hi < v ==> r == hi
  {
    var m := if v < hi then v else hi;
    if m < lo then lo else m
  }
}
