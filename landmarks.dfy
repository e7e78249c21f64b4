/** Pose landmarks as the pose model delivers them, and the two gating helpers of
    app.js: `good` (every gated point present and visible enough) and `pickBetter`
    (the better-visible of an ankle and a foot-tip point). */
module Landmarks {
  import opened Wrappers

  /** One landmark: image-normalised position and an optional visibility. */
  datatype Landmark = Landmark(x: real, y: real, visibility: Option<real>)

  /** The pose model's landmark list; a slot may hold nothing. */
  type LandmarkSet = seq<Option<Landmark>>

  // Slots of the 33-point pose scheme that the measurement reads.
  const LEFT_EAR: nat := 7
  const RIGHT_EAR: nat := 8
  const LEFT_SHOULDER: nat := 11
  const RIGHT_SHOULDER: nat := 12
  const LEFT_HIP: nat := 23
  const RIGHT_HIP: nat := 24
  const LEFT_ANKLE: nat := 27
  const RIGHT_ANKLE: nat := 28
  const LEFT_FOOT_INDEX: nat := 31
  const RIGHT_FOOT_INDEX: nat := 32

  /** Least visibility a gated landmark needs. */
  const MIN_VIS: real := 0.55

  /** `lm[i]`: reading past the end of the list yields nothing. */
  function Slot(lm: LandmarkSet, i: nat): Option<Landmark>
  {
    if i < |lm| then lm[i] else None
  }

  /** `visibility ?? d`: the visibility, or d when the model gave none. */
  function VisibilityOr(p: Landmark, d: real): real
  {
    match p.visibility
    case Some(v) => v
    case None => d
  }

  /** The test `good` applies to one point: present, and its visibility (1 when
      missing) at least MIN_VIS. */
  predicate Passes(p: Option<Landmark>)
  {
    p.Some? && VisibilityOr(p.value, 1.0) >= MIN_VIS
  }

  /** `good(...pts)`: `pts.every(...)`, checking the points from the first on. */
  function Good(pts: seq<Option<Landmark>>): (ok: bool)
    ensures ok <==> forall i :: 0 <= i < |pts| ==> Passes(pts[i])
    ensures ok ==> forall i :: 0 <= i < |pts| ==>
                     pts[i].Some? && (pts[i].value.visibility.Some? ==> pts[i].value.visibility.value >= MIN_VIS)
  {
    if |pts| == 0 then true
    else Passes(pts[0]) && Good(pts[1..])
  }

  /** `pickBetter(a, b)`: an absent argument yields the other one; of two present
      points the one whose visibility (0 when missing) is higher, ties going to a. */
  function PickBetter(a: Option<Landmark>, b: Option<Landmark>): (r: Option<Landmark>)
    ensures r == a || r == b
    ensures r.Some? <==> a.Some? || b.Some?
    ensures a.Some? && b.Some? ==>
              VisibilityOr(r.value, 0.0) >= VisibilityOr(a.value, 0.0) &&
              VisibilityOr(r.value, 0.0) >= VisibilityOr(b.value, 0.0)
    ensures a.Some? && b.Some? && VisibilityOr(a.value, 0.0) == VisibilityOr(b.value, 0.0) ==> r == a
  {
    if a.None? then b
    else if b.None? then a
    else if VisibilityOr(a.value, 0.0) >= VisibilityOr(b.value, 0.0) then a
    else b
  }

  /** The contract of PickBetter fixes its result: whichever function meets it
      agrees with PickBetter on every input. */
  lemma PickBetterDetermined(a: Option<Landmark>, b: Option<Landmark>, r: Option<Landmark>)
    requires r == a || r == b
    requires r.Some? <==> a.Some? || b.Some?
    requires a.Some? && b.Some? ==>
               VisibilityOr(r.value, 0.0) >= VisibilityOr(a.value, 0.0) &&
               VisibilityOr(r.value, 0.0) >= VisibilityOr(b.value, 0.0)
    requires a.Some? && b.Some? && VisibilityOr(a.value, 0.0) == VisibilityOr(b.value, 0.0) ==> r == a
    ensures r == PickBetter(a, b)
  {
  }

  /** The left foot point: the better-visible of left ankle and left foot index. */
  function LeftFoot(lm: LandmarkSet): Option<Landmark>
  {
    PickBetter(Slot(lm, LEFT_ANKLE), Slot(lm, LEFT_FOOT_INDEX))
  }

  /** The right foot point: the better-visible of right ankle and right foot index. */
  function RightFoot(lm: LandmarkSet): Option<Landmark>
  {
    PickBetter(Slot(lm, RIGHT_ANKLE), Slot(lm, RIGHT_FOOT_INDEX))
  }

  /** The eight points `measureProportions` hands to `good`, in its order: ears,
      shoulders, hips, feet (each pair left first). */
  function GatedPoints(lm: LandmarkSet): (pts: seq<Option<Landmark>>)
    ensures |pts| == 8
  {
    [Slot(lm, LEFT_EAR), Slot(lm, RIGHT_EAR),
     Slot(lm, LEFT_SHOULDER), Slot(lm, RIGHT_SHOULDER),
     Slot(lm, LEFT_HIP), Slot(lm, RIGHT_HIP),
     LeftFoot(lm), RightFoot(lm)]
  }

  /** The gate passes exactly when all six core points and both chosen foot points
      pass; it fails as soon as one of them is missing or below MIN_VIS. */
  lemma GateOnEveryPoint(lm: LandmarkSet)
    ensures Good(GatedPoints(lm)) <==>
              Passes(Slot(lm, LEFT_EAR)) && Passes(Slot(lm, RIGHT_EAR)) &&
              Passes(Slot(lm, LEFT_SHOULDER)) && Passes(Slot(lm, RIGHT_SHOULDER)) &&
              Passes(Slot(lm, LEFT_HIP)) && Passes(Slot(lm, RIGHT_HIP)) &&
              Passes(LeftFoot(lm)) && Passes(RightFoot(lm))
  {
    var pts := GatedPoints(lm);
    assert pts[0] == Slot(lm, LEFT_EAR) && pts[1] == Slot(lm, RIGHT_EAR);
    assert pts[2] == Slot(lm, LEFT_SHOULDER) && pts[3] == Slot(lm, RIGHT_SHOULDER);
    assert pts[4] == Slot(lm, LEFT_HIP) && pts[5] == Slot(lm, RIGHT_HIP);
    assert pts[6] == LeftFoot(lm) && pts[7] == RightFoot(lm);
  }

  /** A foot side passes the gate only if at least one of its two candidates is
      present, and it passes whenever the better candidate clears MIN_VIS. */
  lemma FootGate(a: Option<Landmark>, b: Option<Landmark>)
    ensures Passes(PickBetter(a, b)) ==> a.Some? || b.Some?
    ensures Passes(a) && b.None? ==> Passes(PickBetter(a, b))
    ensures a.None? && Passes(b) ==> Passes(PickBetter(a, b))
  {
  }

  /** The two readings of a missing visibility differ: `good` lets such a point
      through, while `pickBetter` ranks it below any point with a positive one. */
  lemma MissingVisibility(x: real, y: real, other: Landmark)
    requires VisibilityOr(other, 0.0) > 0.0
    ensures Passes(Some(Landmark(x, y, None)))
    ensures PickBetter(Some(Landmark(x, y, None)), Some(other)) == Some(other)
  {
  }
}
