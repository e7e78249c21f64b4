/** `pickByScore` and `scoreBandText` of app.js: a score is placed in the first band
    of the selected gender's list whose lower threshold it reaches; a parallel text
    labeller names the band by the same thresholds. */
module Picking {

  /** A band's lower threshold: minus infinity (the catch-all) or a number. */
  datatype Threshold = NegInf | AtLeast(bound: real)

  /** One entry of the recommendation map. */
  datatype PickEntry = PickEntry(min: Threshold, name: string, src: string)

  const MALE_PICKS: seq<PickEntry> := [
    PickEntry(AtLeast(70.0), "a2", "./assets/a2.jpg"),
    PickEntry(AtLeast(50.0), "b2", "./assets/b2.jpg"),
    PickEntry(AtLeast(40.0), "c2", "./assets/c2.jpg"),
    PickEntry(NegInf, "d2", "./assets/d2.jpg")
  ]

  const FEMALE_PICKS: seq<PickEntry> := [
    PickEntry(AtLeast(70.0), "a1", "./assets/a1.jpg"),
    PickEntry(AtLeast(50.0), "b1", "./assets/b1.jpg"),
    PickEntry(AtLeast(40.0), "c1", "./assets/c1.jpg"),
    PickEntry(NegInf, "d1", "./assets/d1.jpg")
  ]

  /** `PICK_MAP`, keyed by gender. */
  const PICK_MAP: map<string, seq<PickEntry>> := map["male" := MALE_PICKS, "female" := FEMALE_PICKS]

  /** `score >= item.min`. */
  predicate Reaches(score: real, t: Threshold)
  {
    match t
    case NegInf => true
    case AtLeast(m) => score >= m
  }

  /** Thresholds strictly falling along the list, the last one the catch-all. */
  predicate WellFormedBands(list: seq<PickEntry>)
  {
    |list| > 0 && list[|list| - 1].min == NegInf &&
    (forall k :: 0 <= k < |list| - 1 ==> list[k].min.AtLeast?) &&
    forall j, k :: 0 <= j < k < |list| - 1 ==> list[k].min.bound < list[j].min.bound
  }

  /** `PICK_MAP[gender] || PICK_MAP.male`: the female list for "female", the male
      list for "male" and for every other key. Both are well formed. */
  function PickList(gender: string): (list: seq<PickEntry>)
    ensures gender == "female" ==> list == FEMALE_PICKS
    ensures gender != "female" ==> list == MALE_PICKS
    ensures WellFormedBands(list)
  {
    if gender in PICK_MAP then PICK_MAP[gender] else PICK_MAP["male"]
  }

  /** Entry k is the one a first-match scan of the list stops at. */
  predicate IsFirstMatch(list: seq<PickEntry>, score: real, k: int)
  {
    0 <= k < |list| && Reaches(score, list[k].min) &&
    forall j :: 0 <= j < k ==> !Reaches(score, list[j].min)
  }

  /** `pickByScore(score, gender)`: the first entry of the gender's list whose
      threshold the score reaches. One always exists, because the list ends with
      the catch-all, so the fallback after the loop is never taken. */
  method PickByScore(score: real, gender: string) returns (item: PickEntry)
    ensures item in PickList(gender)
    ensures exists k :: IsFirstMatch(PickList(gender), score, k) && item == PickList(gender)[k]
  {
    var list := PickList(gender);
    var i := 0;
    while i < |list| && !Reaches(score, list[i].min)
      invariant 0 <= i <= |list|
      invariant forall j :: 0 <= j < i ==> !Reaches(score, list[j].min)
    {
      i := i + 1;
    }
    item := list[i];
    assert IsFirstMatch(list, score, i);
  }

  /** The first match is unique: a score lands in exactly one band. */
  lemma FirstMatchUnique(list: seq<PickEntry>, score: real, k1: int, k2: int)
    requires IsFirstMatch(list, score, k1) && IsFirstMatch(list, score, k2)
    ensures k1 == k2
  {
  }

  /** Labels `scoreBandText` gives, from the top band down. */
  const BAND_TEXTS: seq<string> := ["70점 이상", "50~70", "40~50", "40 이하"]

  /** `scoreBandText(score)`: the label of the band the score falls in. */
  function ScoreBandText(score: real): (text: string)
    ensures text in BAND_TEXTS
  {
    if score >= 70.0 then BAND_TEXTS[0]
    else if score >= 50.0 then BAND_TEXTS[1]
    else if score >= 40.0 then BAND_TEXTS[2]
    else BAND_TEXTS[3]
  }

  /** The picked entry and the text label agree on the band: for either gender's
      list, the band index of the first match is the position of the label. */
  lemma BandTextMatchesPick(score: real, gender: string, k: int)
    requires IsFirstMatch(PickList(gender), score, k)
    ensures ScoreBandText(score) == BAND_TEXTS[k]
  {
    var list := PickList(gender);
    if k > 0 { assert !Reaches(score, list[0].min); }
    if k > 1 { assert !Reaches(score, list[1].min); }
    if k > 2 { assert !Reaches(score, list[2].min); }
  }

  /** Thresholds are inclusive lower bounds: a score of exactly 70, 50 or 40 lands
      in the band that threshold opens, in either list and in the text labels. */
  lemma BoundariesInclusive(gender: string)
    ensures IsFirstMatch(PickList(gender), 70.0, 0) && ScoreBandText(70.0) == BAND_TEXTS[0]
    ensures IsFirstMatch(PickList(gender), 50.0, 1) && ScoreBandText(50.0) == BAND_TEXTS[1]
    ensures IsFirstMatch(PickList(gender), 40.0, 2) && ScoreBandText(40.0) == BAND_TEXTS[2]
  {
  }
}
