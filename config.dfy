/** The reference proportions of app.js: the integer segment vectors MIN and MAX
    (head, torso, leg) and their normalised forms MIN_PROP and MAX_PROP. */
module Config {

  /** Sum of a vector, as `v.reduce((a, b) => a + b, 0)`; over the reals the
      order of the additions does not matter. */
  function Sum(v: seq<real>): real
  {
    if |v| == 0 then 0.0 else v[0] + Sum(v[1..])
  }

  /** The sum of a three-entry vector, written out. */
  lemma SumOfThree(v: seq<real>)
    requires |v| == 3
    ensures Sum(v) == v[0] + v[1] + v[2]
  {
    assert Sum(v[2..]) == v[2] + Sum(v[3..]);
    assert Sum(v[1..]) == v[1] + Sum(v[2..]) by { assert v[1..][1..] == v[2..]; }
  }

  /** Every entry divided by s. */
  function Divided(v: seq<real>, s: real): seq<real>
    requires s != 0.0
  {
    seq(|v|, i requires 0 <= i < |v| => v[i] / s)
  }

  /** Dividing every entry by s divides the sum by s. */
  lemma {:induction false} SumDivided(v: seq<real>, s: real)
    requires s != 0.0
    ensures Sum(Divided(v, s)) == Sum(v) / s
  {
    if |v| > 0 {
      assert Divided(v, s)[1..] == Divided(v[1..], s);
      SumDivided(v[1..], s);
      calc {
        Sum(Divided(v, s));
        v[0] / s + Sum(Divided(v[1..], s));
        v[0] / s + Sum(v[1..]) / s;
        (v[0] + Sum(v[1..])) / s;
      }
    }
  }

  /** A vector of non-negative entries has a non-negative sum that bounds every entry. */
  lemma {:induction false} SumBoundsEntries(v: seq<real>, i: int)
    requires forall j :: 0 <= j < |v| ==> v[j] >= 0.0
    requires 0 <= i < |v|
    ensures 0.0 <= v[i] <= Sum(v)
  {
    if i > 0 {
      SumBoundsEntries(v[1..], i - 1);
      SumNonNegative(v);
    } else {
      SumNonNegative(v[1..]);
    }
  }

  lemma {:induction false} SumNonNegative(v: seq<real>)
    requires forall j :: 0 <= j < |v| ==> v[j] >= 0.0
    ensures Sum(v) >= 0.0
  {
    if |v| > 0 {
      SumNonNegative(v[1..]);
    }
  }

  /** A part of a positive whole is a share in [0, 1]. */
  lemma ShareInUnit(x: real, s: real)
    requires 0.0 <= x <= s && s != 0.0
    ensures 0.0 <= x / s <= 1.0
  {
  }

  /** Each entry of a vector divided by s, multiplied back by s, is the entry. */
  lemma DividedScalesBack(v: seq<real>, s: real)
    requires s != 0.0
    ensures forall i :: 0 <= i < |v| ==> Divided(v, s)[i] * s == v[i]
  {
    forall i | 0 <= i < |v| ensures Divided(v, s)[i] * s == v[i] {
      var q := v[i] / s;
      assert q * s == v[i];
    }
  }

  /** A non-negative vector with a non-zero total divides into shares in [0, 1]. */
  lemma DividedShares(v: seq<real>)
    requires Sum(v) != 0.0
    requires forall i :: 0 <= i < |v| ==> v[i] >= 0.0
    ensures forall i :: 0 <= i < |v| ==> 0.0 <= Divided(v, Sum(v))[i] <= 1.0
  {
    forall i | 0 <= i < |v| ensures 0.0 <= v[i] / Sum(v) <= 1.0 {
      SumBoundsEntries(v, i);
      ShareInUnit(v[i], Sum(v));
    }
  }

  /** `normalize(v)`: the vector rescaled so that its entries sum to 1, every entry
      keeping its share of the original total. */
  function Normalize(v: seq<real>): (r: seq<real>)
    requires Sum(v) != 0.0
    ensures |r| == |v|
    ensures Sum(r) == 1.0
    ensures forall i :: 0 <= i < |v| ==> r[i] * Sum(v) == v[i]
  {
    SumDivided(v, Sum(v));
    DividedScalesBack(v, Sum(v));
    var total := Sum(v);
    assert total / total == 1.0;
    Divided(v, total)
  }

  /** Normalising a non-negative vector yields shares in [0, 1]. */
  lemma NormalizedShares(v: seq<real>)
    requires Sum(v) != 0.0
    requires forall i :: 0 <= i < |v| ==> v[i] >= 0.0
    ensures forall i :: 0 <= i < |v| ==> 0.0 <= Normalize(v)[i] <= 1.0
  {
    DividedShares(v);
  }

  /** Head, torso and leg lengths of the smallest-scoring reference figure. */
  const MIN: seq<real> := [19.0, 27.0, 50.0]
  /** Head, torso and leg lengths of the top-scoring reference figure. */
  const MAX: seq<real> := [43.0, 62.0, 140.0]

  /** The proportion vector that scores 0 on every segment. */
  function MinProp(): (r: seq<real>)
    ensures r == [19.0 / 96.0, 27.0 / 96.0, 50.0 / 96.0]
  {
    assert Sum(MIN) == 96.0;
    Normalize(MIN)
  }

  /** The proportion vector that scores 100 on every segment. */
  function MaxProp(): (r: seq<real>)
    ensures r == [43.0 / 245.0, 62.0 / 245.0, 140.0 / 245.0]
  {
    assert Sum(MAX) == 245.0;
    Normalize(MAX)
  }

  /** Both reference vectors are proportions (sum 1), and on each segment the two
      differ: the head and torso shares fall from MIN_PROP to MAX_PROP (a smaller
      share is better), the leg share rises (a larger share is better). */
  lemma ReferenceDirections()
    ensures Sum(MinProp()) == 1.0 && Sum(MaxProp()) == 1.0
    ensures MaxProp()[0] < MinProp()[0]
    ensures MaxProp()[1] < MinProp()[1]
    ensures MinProp()[2] < MaxProp()[2]
  {
    assert Sum(MIN) == 96.0;
    assert Sum(MAX) == 245.0;
  }
}
