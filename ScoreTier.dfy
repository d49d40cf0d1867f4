/**
  Mapping of a score to its tier (src/utils/scoreTier.js): the score is rounded
  and clamped to 0..100, then Excellent from 75, Good from 50, Poor below.
 */
module ScoreTier {

  /** A JavaScript number as far as `Number.isFinite` can tell: finite, or NaN/±Infinity. */
  datatype Score = Finite(value: real) | NonFinite

  datatype Tier = Poor | Good | Excellent

  /** Position of a tier in the order Poor < Good < Excellent. */
  function Rank(t: Tier): nat {
    match t
    case Poor => 0
    case Good => 1
    case Excellent => 2
  }

  /** `Math.round`: the nearest integer, halves rounded up (towards +Infinity). */
  function Round(x: real): (n: int)
    ensures n as real - 0.5 <= x < n as real + 0.5
  {
    (x + 0.5).Floor
  }

  /** The value the thresholds are applied to: non-finite input counts as 0. */
  function Normalized(score: Score): (s: int)
    ensures 0 <= s <= 100
    ensures score.NonFinite? ==> s == 0
    ensures score.Finite? && score.value >= 99.5 ==> s == 100
    ensures score.Finite? && score.value < 0.5 ==> s == 0
    ensures score.Finite? && 0.5 <= score.value < 99.5 ==> s == Round(score.value)
  {
    match score
    case NonFinite => 0
    case Finite(v) =>
      var r := Round(v);
      if r < 0 then 0 else if r > 100 then 100 else r
  }

  function TierOf(s: int): Tier {
    if s >= 75 then Excellent else if s >= 50 then Good else Poor
  }

  function Label(t: Tier): string {
    match t
    case Excellent => "Excellent"
    case Good => "Good"
    case Poor => "Poor"
  }

  /** `getTierLabel`: Excellent from 75, Good from 50, Poor below, on the normalized score. */
  function GetTierLabel(score: Score): (text: string)
    ensures text == "Excellent" <==> Normalized(score) >= 75
    ensures text == "Good" <==> 50 <= Normalized(score) < 75
    ensures text == "Poor" <==> Normalized(score) < 50
  {
    Label(TierOf(Normalized(score)))
  }

  /** The CSS class, chosen by comparing the label text as the source does. */
  function GetTierClass(score: Score): (c: string)
    ensures c == ClassOf(TierOf(Normalized(score)))
  {
    var text := GetTierLabel(score);
    if text == "Excellent" then "tier-excellent"
    else if text == "Good" then "tier-good"
    else "tier-poor"
  }

  /** The colour, chosen by comparing the label text as the source does. */
  function GetTierColorHex(score: Score): (c: string)
    ensures c == ColorOf(TierOf(Normalized(score)))
  {
    var text := GetTierLabel(score);
    if text == "Excellent" then "#27ae60"
    else if text == "Good" then "#f1c40f"
    else "#e74c3c"
  }

  function ClassOf(t: Tier): string {
    match t
    case Excellent => "tier-excellent"
    case Good => "tier-good"
    case Poor => "tier-poor"
  }

  function ColorOf(t: Tier): string {
    match t
    case Excellent => "#27ae60"
    case Good => "#f1c40f"
    case Poor => "#e74c3c"
  }

  /** The tier of a finite score in terms of the raw value, rounding included. */
  lemma FiniteThresholds(v: real)
    ensures TierOf(Normalized(Finite(v))) == Excellent <==> v >= 74.5
    ensures TierOf(Normalized(Finite(v))) == Good <==> 49.5 <= v < 74.5
    ensures TierOf(Normalized(Finite(v))) == Poor <==> v < 49.5
  {
    var r := Round(v);
    assert r >= 75 <==> v >= 74.5;
    assert r >= 50 <==> v >= 49.5;
  }

  /** Out-of-range and non-finite scores. */
  lemma Extremes(v: real)
    ensures v >= 100.0 ==> GetTierLabel(Finite(v)) == "Excellent"
    ensures v < 0.0 ==> GetTierLabel(Finite(v)) == "Poor"
    ensures GetTierLabel(NonFinite) == "Poor"
  {
  }

  /** A higher score never gets a lower tier. */
  lemma TierMonotone(a: real, b: real)
    requires a <= b
    ensures Rank(TierOf(Normalized(Finite(a)))) <= Rank(TierOf(Normalized(Finite(b))))
  {
    FiniteThresholds(a);
    FiniteThresholds(b);
  }

  /** Class and colour are determined by the label alone, and differ between tiers. */
  lemma ClassAndColorFollowLabel(a: Score, b: Score)
    ensures GetTierLabel(a) == GetTierLabel(b) <==> GetTierClass(a) == GetTierClass(b)
    ensures GetTierLabel(a) == GetTierLabel(b) <==> GetTierColorHex(a) == GetTierColorHex(b)
  {
  }
}
