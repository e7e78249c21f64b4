/** The decision order of `onResults` in app.js, with its screen and image writes
    left out: no landmarks is a failure, a failed measurement is a failure, and
    otherwise the proportions are scored and a recommendation is picked. */
module Analysis {
  import opened Wrappers
  import opened Config
  import opened Landmarks
  import opened Geometry
  import opened Measure
  import opened Scoring
  import opened Picking

  /** What one analysis shows: which failure, or the measured shares, their score,
      the recommended entry and the band label. */
  datatype Outcome =
    | NoPersonDetected
    | MeasurementFailed
    | Scored(prop: seq<real>, score: real, pick: PickEntry, band: string)

  /** `onResults` for pose output `poseLandmarks` on an image of w by h pixels,
      for the selected gender. */
  method OnResults(poseLandmarks: Option<LandmarkSet>, w: real, h: real,
                   hypot: (real, real) -> real, gender: string)
    returns (out: Outcome)
    requires w > 0.0 && h > 0.0 && IsHypot(hypot)
    ensures poseLandmarks == None <==> out == NoPersonDetected
    ensures out == MeasurementFailed <==>
              poseLandmarks.Some? && MeasureProportions(poseLandmarks.value, w, h, hypot) == None
    ensures out.Scored? ==>
              MeasureProportions(poseLandmarks.value, w, h, hypot) == Some(out.prop) &&
              |out.prop| == 3 && Sum(out.prop) == 1.0 &&
              out.score == ScoreFromProp(out.prop) && 0.0 <= out.score <= 100.0 &&
              exists k :: IsFirstMatch(PickList(gender), out.score, k) &&
                          out.pick == PickList(gender)[k] && out.band == BAND_TEXTS[k]
  {
    if poseLandmarks.None? {
      return NoPersonDetected;
    }
    var prop := MeasureProportions(poseLandmarks.value, w, h, hypot);
    if prop.None? {
      return MeasurementFailed;
    }
    MeasuredIsProportion(poseLandmarks.value, w, h, hypot);
    var score := ScoreFromProp(prop.value);
    var pick := PickByScore(score, gender);
    ghost var k :| IsFirstMatch(PickList(gender), score, k) && pick == PickList(gender)[k];
    BandTextMatchesPick(score, gender, k);
    out := Scored(prop.value, score, pick, ScoreBandText(score));
  }
}
