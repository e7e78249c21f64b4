# Body-proportion scoring, modelled in Dafny

This project models the measuring and scoring pipeline of the single-page camera app in `app.js`.
The pose model returns 33 landmarks. From them the app measures the shares of head, torso and legs
in the body's height, maps those shares to a score from 0 to 100, and picks a recommended picture.
The picture depends on the score band and the selected gender. The model follows the four stages of
that pipeline, plus the order in which `onResults` applies them:

- **Gate** (`landmarks.dfy`, module `Landmarks`): `good` requires every gated landmark to be present
  with visibility at least `MIN_VIS` = 0.55. A missing visibility counts as 1 there. `pickBetter`
  chooses the better-visible of ankle and foot-tip. There a missing visibility counts as 0, and a tie
  goes to the ankle.
- **Measure** (`geometry.dfy`, `measure.dfy`): `toPx`, `mid`, `dist` and the head-top extrapolation.
  The shoulder-to-ear vector is extended by 0.25 horizontally and by 0.90 vertically. Then come the
  three segment lengths. A total at or below 1e-6 yields nothing. Otherwise the lengths are
  normalised to sum to 1.
- **Score** (`config.dfy`, `scoring.dfy`): `normalize` turns the integer vectors `MIN` = (19, 27, 50)
  and `MAX` = (43, 62, 140) into `MIN_PROP` and `MAX_PROP`. Each share is mapped linearly from
  `MIN_PROP[i]` (score 0) to `MAX_PROP[i]` (score 100) and clamped. The three sub-scores are then
  averaged without weights.
- **Pick** (`picking.dfy`): `pickByScore` scans the selected gender's list for the first threshold
  the score reaches. Each list ends in a minus-infinity catch-all. `scoreBandText` labels the same
  bands (70, 50, 40).
- **Decision order** (`analysis.dfy`): no landmarks is one failure, a failed measurement another;
  otherwise the app scores the shares, picks an entry and labels the band.

Numbers are Dafny `real`s, not IEEE doubles. `Math.hypot` is a parameter `hypot` described by the
predicate `IsHypot`: it is non-negative and zero exactly for the zero vector. Dafny has no square root.

Some behaviours are absent from `app.js`, so the model does not have them either:

- There are no per-segment weights; the three sub-scores are averaged equally.
- One visibility threshold (0.55) applies to every gated point; there is no looser foot threshold.
- The head reference is the ear midpoint only; no nose point is used.
- The foot candidates are the ankle and the foot index; heels are not used.
- There is no contrast or floor shaping of the score.
- There is no neutral sub-score of 50 for equal reference bounds. `app.js` would divide by zero,
  but its reference bounds are never equal (`Config.ReferenceDirections`).
- Direction ("smaller is better" or "larger is better") is not configured. It follows from the sign
  of `MAX_PROP[i] - MIN_PROP[i]`: head and torso shares are better smaller, the leg share larger.

## Model

| member | source | states |
|---|---|---|
| `Config.Normalize` | app.js:467-470 | the result has the input's length, sums to 1, and gives each entry as its part of the input total |
| `Config.NormalizedShares` | app.js:467-470 | normalising a non-negative vector yields entries in [0, 1] |
| `Config.SumDivided` | app.js:467-470 | dividing every entry by s divides the total by s, which is why normalised vectors sum to 1 |
| `Config.MinProp` | app.js:9-12 | `MIN_PROP` is (19/96, 27/96, 50/96) |
| `Config.MaxProp` | app.js:9-12 | `MAX_PROP` is (43/245, 62/245, 140/245) |
| `Config.ReferenceDirections` | app.js:9-12 | both reference vectors sum to 1; the head and torso shares fall from `MIN_PROP` to `MAX_PROP`, the leg share rises |
| `Landmarks.Good` | app.js:474-476 | true exactly when every point is present with visibility (1 when missing) at least 0.55; a passing point with a visibility has one of at least 0.55 |
| `Landmarks.PickBetter` | app.js:477-481 | returns one of its arguments; it is present if either one is; of two present points its visibility (0 when missing) is the larger; ties return the first (the ankle) |
| `Landmarks.PickBetterDetermined` | app.js:477-481 | the four properties of PickBetter's contract single out its result, so the contract is a complete description |
| `Landmarks.GateOnEveryPoint` | app.js:372-382 | the gate passes exactly when both ears, both shoulders, both hips and both chosen foot points pass |
| `Landmarks.FootGate` | app.js:379-380 | a foot side passes only if one of its candidates exists, and a lone present candidate that passes makes the side pass |
| `Landmarks.MissingVisibility` | app.js:474-481 | a point without visibility passes the gate, yet loses the foot choice to any point with a positive visibility |
| `Geometry.ToPx` | app.js:482-484 | scaling by the image size is undone by dividing by it; coordinates in [0, 1] land inside the image |
| `Geometry.Scale` | app.js:483 | one coordinate times a positive size: dividing by the size gives the coordinate back, and a coordinate in [0, 1] lands in [0, size] |
| `Geometry.Mid` | app.js:485-487 | the midpoint is equally far, on each axis, from both points |
| `Geometry.MidSymmetric` | app.js:485-487 | `mid` ignores argument order, and `mid(a, a)` is a |
| `Geometry.Dist` | app.js:488-490 | the distance is non-negative and zero exactly on equal points |
| `Geometry.HeadTop` | app.js:389-392 | the head top lies 1.25 times the shoulder-to-ear vector from the shoulder horizontally and 1.9 times it vertically; it equals the shoulder midpoint exactly when the ear midpoint does |
| `Measure.AnchorsOf` | app.js:384-392 | the shoulder anchor is the shoulder midpoint, the head top is extrapolated from it through the ear midpoint, the hip anchor is the midpoint of the two hips and the foot anchor the midpoint of the two chosen foot points |
| `Measure.SegmentLengths` | app.js:394-396 | three non-negative lengths, each zero exactly when its two anchors coincide |
| `Measure.Shares` | app.js:397-400 | nothing exactly when the total is at most 1e-6, the bound included; otherwise three shares in [0, 1] that sum to 1, each its length's part of the total |
| `Measure.MeasureProportions` | app.js:368-401 | nothing when any of the eight gated points fails the gate; otherwise the shares of the gated landmarks' three segment lengths |
| `Measure.MeasuredIsProportion` | app.js:382-400 | nothing exactly when the gate fails or the total is at most 1e-6; any result is three shares in [0, 1] summing to 1 |
| `Measure.FaceVanishesWhenEarsMeetShoulders` | app.js:384-394 | if the ear midpoint equals the shoulder midpoint, the head top is the shoulder midpoint and the face length is 0 |
| `Measure.CoincidingAnchorsMeasureNothing` | app.js:394-398 | gated landmarks whose four anchors coincide measure nothing |
| `Measure.MeasuredHasLength` | app.js:397-398 | a measurement implies the gate passed and some segment has positive length |
| `Scoring.Clamp` | app.js:471-473 | with lo <= hi the result lies in [lo, hi], equals x inside it, lo below it and hi above it |
| `Scoring.ClampMonotone` | app.js:471-473 | clamping preserves order |
| `Scoring.SubScore` | app.js:407-411 | every sub-score lies in [0, 100]; a share equal to the 0 reference scores 0 and one equal to the 100 reference scores 100 |
| `Scoring.SubScoreMonotone` | app.js:407-411 | the sub-score never falls as the share moves towards the 100 reference, whichever side that reference is on |
| `Scoring.SegmentScore` | app.js:407-411 | the sub-score of segment i against `MIN_PROP[i]` and `MAX_PROP[i]` lies in [0, 100] |
| `Scoring.ScoreFromProp` | app.js:406-413 | the averaged score lies in [0, 100] for every three-entry vector |
| `Scoring.ReferenceScores` | app.js:406-413 | each `MIN_PROP` share scores 0 and each `MAX_PROP` share scores 100, so the whole of `MIN_PROP` scores 0 and `MAX_PROP` scores 100 |
| `Scoring.SegmentDirections` | app.js:407-411 | a larger head or torso share never raises its sub-score; a larger leg share never lowers it |
| `Scoring.ScoreMonotone` | app.js:406-413 | smaller head and torso shares with a larger leg share never lower the total score |
| `Picking.PickList` | app.js:419 | "female" selects the female list, and every other key the male list; both lists descend strictly and end in the catch-all |
| `Picking.PickByScore` | app.js:418-422 | returns the first entry of the selected list whose threshold the score reaches; every earlier threshold is above the score; such an entry always exists |
| `Picking.FirstMatchUnique` | app.js:420 | a score has exactly one first matching band |
| `Picking.ScoreBandText` | app.js:424-429 | the label is one of the four band labels |
| `Picking.BandTextMatchesPick` | app.js:424-429 | the label `scoreBandText` gives is the one at the index of the entry `pickByScore` picks, for either gender |
| `Picking.BoundariesInclusive` | app.js:15-28 | scores of exactly 70, 50 and 40 land in the bands those thresholds open, in the picks and the labels alike |
| `Analysis.OnResults` | app.js:332-359 | no landmarks is exactly the no-person failure; a failed measurement is exactly the measurement failure; otherwise the result holds the measured shares, their score in [0, 100], the first matching entry and the band label of that same entry |

## Left out

- Screens, DOM text and image updates, the camera lifecycle and canvas drawing are left out. They are user-interface and browser media input/output.
- The pose model's setup and its asynchronous submission are left out: a foreign library called asynchronously.
- The countdown and the in-flight flags are left out (including the early return at app.js:327-328). They coordinate timers and callbacks.
- The image size fallback is left out: canvas, then video, then 1280 by 720 (app.js:369-370). The width and height are positive parameters instead.
- IEEE behaviour is left out: NaN, `Number.isFinite`, `Math.round` and `toFixed` in the displayed text, and the NaN case that would reach the fallback at app.js:421. Reals have no NaN, so that fallback is unreachable in the model.
- `Geometry.Dist`: does not model the exact value of `Math.hypot` (the square root of dx² + dy²). Dafny has no square root, so only its sign and its zero are modelled.
- `Picking.PickList`: keys inherited from `Object.prototype` (such as "toString") are not modelled. For those, the source would look up a non-list value. The app only ever passes "male" or "female".
