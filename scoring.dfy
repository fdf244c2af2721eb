/** The scoring policy of the AI judge: the fixed lever weights, the weighted
    survival score, the score-to-tier map, and the decimal rounding
    (`Number.prototype.toFixed`) applied to scores. */
module Scoring {
  import opened Domain

  /** The weight of each lever. */
  function Weight(l: Lever): real {
    match l
    case InsightCompression => 0.20
    case SubstrateEfficiency => 0.18
    case BroadUtility => 0.22
    case Awareness => 0.15
    case AgentFriction => 0.15
    case HumanCoefficient => 0.10
  }

  function SumWeights(ls: seq<Lever>): real {
    if ls == [] then 0.0 else Weight(ls[0]) + SumWeights(ls[1..])
  }

  /** The weights of the six levers add up to exactly one. */
  lemma WeightsSumToOne()
    ensures SumWeights(AllLevers) == 1.0
  {
    assert AllLevers[1..][1..][1..][1..][1..][1..] == [];
  }

  /** Reference definition: the dot product of weights and scores over `ls`. */
  function Dot(ls: seq<Lever>, s: LeverScores): real {
    if ls == [] then 0.0 else Weight(ls[0]) * ScoreOf(s, ls[0]) + Dot(ls[1..], s)
  }

  /** `calculateWeightedScore`: a convex combination of the lever scores, so
      it stays within any interval that holds all six scores. */
  function CalculateWeightedScore(s: LeverScores): (r: real)
    ensures forall lo: real, hi: real :: AllWithin(s, lo, hi) ==> lo <= r <= hi
  {
    s.insightCompression * 0.20
    + s.substrateEfficiency * 0.18
    + s.broadUtility * 0.22
    + s.awareness * 0.15
    + s.agentFriction * 0.15
    + s.humanCoefficient * 0.10
  }

  /** The weighted score is the weight-score dot product over all levers. */
  lemma WeightedScoreIsDot(s: LeverScores)
    ensures CalculateWeightedScore(s) == Dot(AllLevers, s)
  {
    var l0 := AllLevers;
    var l1, l2, l3, l4, l5 := l0[1..], l0[2..], l0[3..], l0[4..], l0[5..];
    assert l5 == [HumanCoefficient] && l5[1..] == [];
    assert Dot(l5, s) == 0.10 * s.humanCoefficient;
    assert l4 == [AgentFriction] + l5 && l4[1..] == l5;
    assert Dot(l4, s) == 0.15 * s.agentFriction + Dot(l5, s);
    assert l3[1..] == l4 && l3[0] == Awareness;
    assert Dot(l3, s) == 0.15 * s.awareness + Dot(l4, s);
    assert l2[1..] == l3 && l2[0] == BroadUtility;
    assert Dot(l2, s) == 0.22 * s.broadUtility + Dot(l3, s);
    assert l1[1..] == l2 && l1[0] == SubstrateEfficiency;
    assert Dot(l1, s) == 0.18 * s.substrateEfficiency + Dot(l2, s);
    assert l0[1..] == l1 && l0[0] == InsightCompression;
  }

  /** Scores in [0, 10] give a survival score in [0, 10]. */
  lemma WeightedScoreInRange(s: LeverScores)
    requires AllWithin(s, 0.0, 10.0)
    ensures 0.0 <= CalculateWeightedScore(s) <= 10.0
  {
  }

  /** Raising any lever never lowers the survival score. */
  lemma WeightedScoreMonotone(s: LeverScores, t: LeverScores)
    requires forall l :: ScoreOf(s, l) <= ScoreOf(t, l)
    ensures CalculateWeightedScore(s) <= CalculateWeightedScore(t)
  {
    assert ScoreOf(s, InsightCompression) <= ScoreOf(t, InsightCompression);
    assert ScoreOf(s, SubstrateEfficiency) <= ScoreOf(t, SubstrateEfficiency);
    assert ScoreOf(s, BroadUtility) <= ScoreOf(t, BroadUtility);
    assert ScoreOf(s, Awareness) <= ScoreOf(t, Awareness);
    assert ScoreOf(s, AgentFriction) <= ScoreOf(t, AgentFriction);
    assert ScoreOf(s, HumanCoefficient) <= ScoreOf(t, HumanCoefficient);
  }

  /** `calculateTier`: the six tiers partition the number line at 9, 8, 7, 6
      and 5, each lower bound inclusive. */
  function CalculateTier(score: real): (t: Tier)
    ensures t == S <==> 9.0 <= score
    ensures t == A <==> 8.0 <= score < 9.0
    ensures t == B <==> 7.0 <= score < 8.0
    ensures t == C <==> 6.0 <= score < 7.0
    ensures t == D <==> 5.0 <= score < 6.0
    ensures t == F <==> score < 5.0
  {
    if score >= 9.0 then S
    else if score >= 8.0 then A
    else if score >= 7.0 then B
    else if score >= 6.0 then C
    else if score >= 5.0 then D
    else F
  }

  /** Tiers ranked from F (0) to S (5). */
  function TierRank(t: Tier): nat {
    match t
    case F => 0
    case D => 1
    case C => 2
    case B => 3
    case A => 4
    case S => 5
  }

  /** A higher score never gets a lower tier. */
  lemma TierMonotone(x: real, y: real)
    requires x <= y
    ensures TierRank(CalculateTier(x)) <= TierRank(CalculateTier(y))
  {
  }

  // ---------------------------------------------------------------------
  // Decimal rounding

  /** Rounding to the nearest integer, halves away from zero, as `toFixed`
      does on the magnitude of its argument. */
  function RoundHalfAway(y: real): (n: int)
    ensures y - 0.5 <= n as real <= y + 0.5
    ensures 0.0 <= y ==> n == (y + 0.5).Floor
  {
    if y >= 0.0 then (y + 0.5).Floor else -((-y + 0.5).Floor)
  }

  /** Rounding is monotone. */
  lemma RoundHalfAwayMonotone(y: real, z: real)
    requires y <= z
    ensures RoundHalfAway(y) <= RoundHalfAway(z)
  {
    if 0.0 <= y {
      assert (y + 0.5).Floor <= (z + 0.5).Floor;
    } else if z < 0.0 {
      assert (-z + 0.5).Floor <= (-y + 0.5).Floor;
    }
  }

  /** An integer rounds to itself. */
  lemma RoundHalfAwayOfInt(k: int)
    ensures RoundHalfAway(k as real) == k
  {
  }

  /** `parseFloat(x.toFixed(1))` on exact decimals. */
  function ToFixed1(x: real): (r: real)
    ensures x - 0.05 <= r <= x + 0.05
  {
    RoundHalfAway(x * 10.0) as real / 10.0
  }

  /** `parseFloat(x.toFixed(2))` on exact decimals. */
  function ToFixed2(x: real): (r: real)
    ensures x - 0.005 <= r <= x + 0.005
  {
    RoundHalfAway(x * 100.0) as real / 100.0
  }

  /** `r` is a whole number of tenths. */
  predicate IsTenths(r: real) {
    (r * 10.0).Floor as real == r * 10.0
  }

  lemma ToFixed1IsTenths(x: real)
    ensures IsTenths(ToFixed1(x))
  {
    var n := RoundHalfAway(x * 10.0);
    assert ToFixed1(x) * 10.0 == n as real;
  }

  /** Rounding to tenths is monotone and leaves whole tenths unchanged. */
  lemma ToFixed1Monotone(x: real, y: real)
    requires x <= y
    ensures ToFixed1(x) <= ToFixed1(y)
  {
    RoundHalfAwayMonotone(x * 10.0, y * 10.0);
  }

  lemma ToFixed1OfTenths(k: int)
    ensures ToFixed1(k as real / 10.0) == k as real / 10.0
  {
    assert (k as real / 10.0) * 10.0 == k as real;
    RoundHalfAwayOfInt(k);
  }

  /** The stored survival score is rounded, the tier is not: just below a
      tier boundary the two disagree. A weighted sum of 8.996 is tier A but is
      stored as 9.00, the S threshold. */
  lemma TierOfUnroundedScoreCanDisagree()
    ensures CalculateTier(8.996) == A
    ensures ToFixed2(8.996) == 9.0
    ensures CalculateTier(ToFixed2(8.996)) == S
  {
    assert RoundHalfAway(899.6) == 900;
  }

  /** Rounding to hundredths keeps `x` on its side of the whole number `b`
      unless `x` lies within half a hundredth below `b`. */
  predicate JustBelow(x: real, b: int) {
    b as real - 0.005 <= x < b as real
  }

  lemma SameSideOfBoundary(x: real, b: int)
    requires !JustBelow(x, b)
    ensures (b as real <= x) == (b as real <= ToFixed2(x))
  {
    var n := RoundHalfAway(x * 100.0);
    assert ToFixed2(x) * 100.0 == n as real;
    if b as real <= x {
      RoundHalfAwayMonotone((b * 100) as real, x * 100.0);
      RoundHalfAwayOfInt(b * 100);
    }
  }

  /** Away from the half-hundredth just below each boundary, rounding never
      changes the tier. */
  lemma TierAgreesAwayFromBoundaries(x: real)
    requires forall b: int :: 5 <= b <= 9 ==> !JustBelow(x, b)
    ensures CalculateTier(ToFixed2(x)) == CalculateTier(x)
  {
    SameSideOfBoundary(x, 5);
    SameSideOfBoundary(x, 6);
    SameSideOfBoundary(x, 7);
    SameSideOfBoundary(x, 8);
    SameSideOfBoundary(x, 9);
  }
}
