/** `scoreFromProp` of app.js: each share is mapped linearly from its MIN_PROP
    entry (score 0) to its MAX_PROP entry (score 100), clamped to 0..100, and the
    three sub-scores are averaged with equal weight. */
module Scoring {
  import opened Config

  function Min(a: real, b: real): real { if a <= b then a else b }
  function Max(a: real, b: real): real { if a >= b then a else b }

  /** `clamp(x, lo, hi)`, i.e. `Math.max(lo, Math.min(hi, x))`: x pulled into the
      interval [lo, hi]. */
  function Clamp(x: real, lo: real, hi: real): (r: real)
    ensures lo <= hi ==> lo <= r <= hi
    ensures lo <= x <= hi ==> r == x
    ensures x <= lo ==> r == lo
    ensures lo <= hi <= x ==> r == hi
  {
    Max(lo, Min(hi, x))
  }

  /** Clamping keeps the order of its arguments. */
  lemma ClampMonotone(x: real, y: real, lo: real, hi: real)
    requires lo <= hi && x <= y
    ensures Clamp(x, lo, hi) <= Clamp(y, lo, hi)
  {
  }

  /** Dividing by a positive number keeps order; by a negative one reverses it. */
  lemma DivisionOrder(x: real, y: real, d: real)
    requires x <= y && d != 0.0
    ensures d > 0.0 ==> x / d <= y / d
    ensures d < 0.0 ==> y / d <= x / d
  {
    var qx, qy := x / d, y / d;
    assert qx * d == x && qy * d == y;
    if d > 0.0 && qy < qx {
      assert (qx - qy) * d > 0.0;
      assert x - y == (qx - qy) * d;
    } else if d < 0.0 && qx < qy {
      assert (qy - qx) * (-d) > 0.0;
      assert x - y == (qy - qx) * (-d);
    }
  }

  /** The sub-score of share p on a segment whose reference shares are a (score 0)
      and b (score 100): `clamp((p - a) / (b - a), 0, 1) * 100`. */
  function SubScore(p: real, a: real, b: real): (s: real)
    requires a != b
    ensures 0.0 <= s <= 100.0
    ensures p == a ==> s == 0.0
    ensures p == b ==> s == 100.0
  {
    Clamp((p - a) / (b - a), 0.0, 1.0) * 100.0
  }

  /** The sub-score moves with p towards b: it never falls as p grows when b lies
      above a, and never rises as p grows when b lies below a. */
  lemma SubScoreMonotone(p: real, q: real, a: real, b: real)
    requires a != b && p <= q
    ensures a < b ==> SubScore(p, a, b) <= SubScore(q, a, b)
    ensures b < a ==> SubScore(q, a, b) <= SubScore(p, a, b)
  {
    DivisionOrder(p - a, q - a, b - a);
    if a < b {
      ClampMonotone((p - a) / (b - a), (q - a) / (b - a), 0.0, 1.0);
    } else {
      ClampMonotone((q - a) / (b - a), (p - a) / (b - a), 0.0, 1.0);
    }
  }

  /** The sub-score of segment i (0 head, 1 torso, 2 leg) for share p. */
  function SegmentScore(i: nat, p: real): (s: real)
    requires i < 3
    ensures 0.0 <= s <= 100.0
  {
    ReferenceDirections();
    SubScore(p, MinProp()[i], MaxProp()[i])
  }

  /** `scoreFromProp(prop)`: the unweighted mean of the three sub-scores, always
      between 0 and 100 whatever the shares are. */
  function ScoreFromProp(prop: seq<real>): (score: real)
    requires |prop| == 3
    ensures 0.0 <= score <= 100.0
  {
    var s := seq(3, i requires 0 <= i < 3 => SegmentScore(i, prop[i]));
    (s[0] + s[1] + s[2]) / 3.0
  }

  /** A share equal to its MIN_PROP entry scores 0 and one equal to its MAX_PROP
      entry scores 100, so MIN_PROP itself scores 0 and MAX_PROP scores 100. */
  lemma ReferenceScores()
    ensures forall i :: 0 <= i < 3 ==> SegmentScore(i, MinProp()[i]) == 0.0
    ensures forall i :: 0 <= i < 3 ==> SegmentScore(i, MaxProp()[i]) == 100.0
    ensures ScoreFromProp(MinProp()) == 0.0
    ensures ScoreFromProp(MaxProp()) == 100.0
  {
    ReferenceDirections();
  }

  /** Direction of each segment: a larger head or torso share never raises its
      sub-score, a larger leg share never lowers it. */
  lemma SegmentDirections(p: real, q: real)
    requires p <= q
    ensures SegmentScore(0, q) <= SegmentScore(0, p)
    ensures SegmentScore(1, q) <= SegmentScore(1, p)
    ensures SegmentScore(2, p) <= SegmentScore(2, q)
  {
    ReferenceDirections();
    SubScoreMonotone(p, q, MinProp()[0], MaxProp()[0]);
    SubScoreMonotone(p, q, MinProp()[1], MaxProp()[1]);
    SubScoreMonotone(p, q, MinProp()[2], MaxProp()[2]);
  }

  /** The total score never falls when the head and torso shares shrink and the
      leg share grows. */
  lemma ScoreMonotone(prop: seq<real>, better: seq<real>)
    requires |prop| == 3 && |better| == 3
    requires better[0] <= prop[0] && better[1] <= prop[1] && prop[2] <= better[2]
    ensures ScoreFromProp(prop) <= ScoreFromProp(better)
  {
    SegmentDirections(better[0], prop[0]);
    SegmentDirections(better[1], prop[1]);
    SegmentDirections(prop[2], better[2]);
  }
}
