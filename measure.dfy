/** `measureProportions` of app.js: gate the eight landmarks, build the four anchor
    points in pixel space, take the three segment lengths and normalise them. */
module Measure {
  import opened Wrappers
  import opened Config
  import opened Landmarks
  import opened Geometry

  /** Anchors in pixel space, from the top of the head down to the feet. */
  datatype Anchors = Anchors(headTop: Point, shoulder: Point, hip: Point, foot: Point)

  /** Totals at or below this are degenerate: no proportion is reported. */
  const DEGENERATE_TOTAL: real := 0.000001

  /** The landmarks behind present slots. */
  function Present(pts: seq<Option<Landmark>>): (r: seq<Landmark>)
    requires forall i :: 0 <= i < |pts| ==> pts[i].Some?
    ensures |r| == |pts| && forall i :: 0 <= i < |pts| ==> pts[i] == Some(r[i])
  {
    seq(|pts|, i requires 0 <= i < |pts| => pts[i].value)
  }

  /** Ear midpoint of the eight gated points (ears, shoulders, hips, feet). */
  function EarMid(pts: seq<Landmark>, w: real, h: real): Point
    requires |pts| == 8 && w > 0.0 && h > 0.0
  {
    Mid(ToPx(pts[0], w, h), ToPx(pts[1], w, h))
  }

  /** Shoulder midpoint of the eight gated points. */
  function ShoulderMid(pts: seq<Landmark>, w: real, h: real): Point
    requires |pts| == 8 && w > 0.0 && h > 0.0
  {
    Mid(ToPx(pts[2], w, h), ToPx(pts[3], w, h))
  }

  /** The anchors `measureProportions` builds from the eight gated points: the
      shoulder, hip and foot midpoints, and the head top extrapolated from the
      shoulder midpoint through the ear midpoint. */
  function AnchorsOf(pts: seq<Landmark>, w: real, h: real): (a: Anchors)
    requires |pts| == 8 && w > 0.0 && h > 0.0
    ensures a.shoulder == ShoulderMid(pts, w, h)
    ensures a.headTop == HeadTop(EarMid(pts, w, h), a.shoulder)
    ensures a.hip == Mid(ToPx(pts[4], w, h), ToPx(pts[5], w, h))
    ensures a.foot == Mid(ToPx(pts[6], w, h), ToPx(pts[7], w, h))
  {
    var shoulder := ShoulderMid(pts, w, h);
    Anchors(HeadTop(EarMid(pts, w, h), shoulder),
            shoulder,
            Mid(ToPx(pts[4], w, h), ToPx(pts[5], w, h)),
            Mid(ToPx(pts[6], w, h), ToPx(pts[7], w, h)))
  }

  /** Face, torso and leg lengths: head top to shoulders, shoulders to hips, hips
      to feet. Each is non-negative and zero exactly when its two anchors meet. */
  function SegmentLengths(a: Anchors, hypot: (real, real) -> real): (lens: seq<real>)
    requires IsHypot(hypot)
    ensures |lens| == 3
    ensures forall i :: 0 <= i < 3 ==> 0.0 <= lens[i]
    ensures lens[0] == 0.0 <==> a.headTop == a.shoulder
    ensures lens[1] == 0.0 <==> a.shoulder == a.hip
    ensures lens[2] == 0.0 <==> a.hip == a.foot
  {
    [Dist(a.headTop, a.shoulder, hypot), Dist(a.shoulder, a.hip, hypot), Dist(a.hip, a.foot, hypot)]
  }

  /** Lengths of a landmark list that passed the gate. */
  function GatedLengths(lm: LandmarkSet, w: real, h: real, hypot: (real, real) -> real)
    : (lens: seq<real>)
    requires w > 0.0 && h > 0.0 && IsHypot(hypot)
    requires Good(GatedPoints(lm))
    ensures |lens| == 3 && forall i :: 0 <= i < 3 ==> 0.0 <= lens[i]
  {
    SegmentLengths(AnchorsOf(Present(GatedPoints(lm)), w, h), hypot)
  }

  /** The closing step of `measureProportions`: nothing when the three lengths
      total at most DEGENERATE_TOTAL (the bound itself included); otherwise three
      shares in [0, 1], each its length's part of the total, summing to 1. */
  function Shares(lens: seq<real>): (r: Option<seq<real>>)
    requires |lens| == 3 && forall i :: 0 <= i < 3 ==> 0.0 <= lens[i]
    ensures r == None <==> Sum(lens) <= DEGENERATE_TOTAL
    ensures r.Some? ==>
              |r.value| == 3 && Sum(r.value) == 1.0 &&
              (forall i :: 0 <= i < 3 ==> 0.0 <= r.value[i] <= 1.0) &&
              forall i :: 0 <= i < 3 ==> r.value[i] * Sum(lens) == lens[i]
  {
    if Sum(lens) <= DEGENERATE_TOTAL then None
    else
      NormalizedShares(lens);
      Some(Normalize(lens))
  }

  /** `measureProportions(lm)` on an image of w by h pixels: nothing when one of the
      eight gated points fails the gate, otherwise the shares of the three segment
      lengths. */
  function MeasureProportions(lm: LandmarkSet, w: real, h: real, hypot: (real, real) -> real)
    : (r: Option<seq<real>>)
    requires w > 0.0 && h > 0.0 && IsHypot(hypot)
    ensures !Good(GatedPoints(lm)) ==> r == None
    ensures Good(GatedPoints(lm)) ==> r == Shares(GatedLengths(lm, w, h, hypot))
  {
    if !Good(GatedPoints(lm)) then None
    else Shares(GatedLengths(lm, w, h, hypot))
  }

  /** Everything MeasureProportions yields is a proportion vector: three shares in
      [0, 1] summing to 1. It yields nothing exactly when the gate fails or the
      lengths total at most DEGENERATE_TOTAL. */
  lemma MeasuredIsProportion(lm: LandmarkSet, w: real, h: real, hypot: (real, real) -> real)
    requires w > 0.0 && h > 0.0 && IsHypot(hypot)
    ensures var r := MeasureProportions(lm, w, h, hypot);
            (r == None <==>
               !Good(GatedPoints(lm)) ||
               Sum(GatedLengths(lm, w, h, hypot)) <= DEGENERATE_TOTAL) &&
            (r.Some? ==> |r.value| == 3 && Sum(r.value) == 1.0 &&
                         forall i :: 0 <= i < 3 ==> 0.0 <= r.value[i] <= 1.0)
  {
  }

  /** When the ear midpoint falls on the shoulder midpoint, the head top is the
      shoulder midpoint and the face length is 0. */
  lemma FaceVanishesWhenEarsMeetShoulders(pts: seq<Landmark>, w: real, h: real,
                                          hypot: (real, real) -> real)
    requires |pts| == 8 && w > 0.0 && h > 0.0 && IsHypot(hypot)
    requires EarMid(pts, w, h) == ShoulderMid(pts, w, h)
    ensures AnchorsOf(pts, w, h).headTop == AnchorsOf(pts, w, h).shoulder
    ensures SegmentLengths(AnchorsOf(pts, w, h), hypot)[0] == 0.0
  {
  }

  /** Landmarks that pass the gate but whose four anchors all coincide measure
      nothing: the degenerate case is reported, not divided by zero. */
  lemma CoincidingAnchorsMeasureNothing(lm: LandmarkSet, w: real, h: real,
                                        hypot: (real, real) -> real)
    requires w > 0.0 && h > 0.0 && IsHypot(hypot)
    requires Good(GatedPoints(lm))
    requires var a := AnchorsOf(Present(GatedPoints(lm)), w, h);
             a.headTop == a.shoulder == a.hip == a.foot
    ensures MeasureProportions(lm, w, h, hypot) == None
  {
    var lens := GatedLengths(lm, w, h, hypot);
    assert lens[0] == 0.0 && lens[1] == 0.0 && lens[2] == 0.0;
    SumOfThree(lens);
  }

  /** A measured proportion has a positive length total, so at least one segment
      has a positive length. */
  lemma MeasuredHasLength(lm: LandmarkSet, w: real, h: real, hypot: (real, real) -> real)
    requires w > 0.0 && h > 0.0 && IsHypot(hypot)
    requires MeasureProportions(lm, w, h, hypot).Some?
    ensures Good(GatedPoints(lm))
    ensures exists i :: 0 <= i < 3 && GatedLengths(lm, w, h, hypot)[i] > 0.0
  {
    var lens := GatedLengths(lm, w, h, hypot);
    SumOfThree(lens);
    if lens[0] <= 0.0 && lens[1] <= 0.0 {
      assert lens[2] > 0.0;
    }
  }
}
