/** Demo mode of the judge: lever scores synthesised from random draws plus
    fixed bonuses, rounded to one decimal and capped at 10; a random
    confidence; reasoning texts; and suggestions aimed at the two lowest
    levers. The random draws are inputs in [0, 1). */
module Demo {
  import opened Values
  import opened Text
  import opened Domain
  import opened Scoring
  import opened Sorting

  /** One draw of `Math.random()` per lever, and one for the confidence. */
  datatype Draws = Draws(
    insightCompression: real,
    substrateEfficiency: real,
    broadUtility: real,
    awareness: real,
    agentFriction: real,
    humanCoefficient: real,
    confidence: real)

  predicate InUnit(x: real) { 0.0 <= x < 1.0 }

  predicate ValidDraws(d: Draws) {
    && InUnit(d.insightCompression) && InUnit(d.substrateEfficiency) && InUnit(d.broadUtility)
    && InUnit(d.awareness) && InUnit(d.agentFriction) && InUnit(d.humanCoefficient)
    && InUnit(d.confidence)
  }

  function DrawOf(d: Draws, l: Lever): real {
    match l
    case InsightCompression => d.insightCompression
    case SubstrateEfficiency => d.substrateEfficiency
    case BroadUtility => d.broadUtility
    case Awareness => d.awareness
    case AgentFriction => d.agentFriction
    case HumanCoefficient => d.humanCoefficient
  }

  /** Lowest base score of each lever, as a whole number of tenths. */
  function BaseTenths(l: Lever): int {
    match l
    case InsightCompression => 70
    case SubstrateEfficiency => 75
    case BroadUtility => 70
    case Awareness => 65
    case AgentFriction => 70
    case HumanCoefficient => 65
  }

  function Base(l: Lever): real { BaseTenths(l) as real / 10.0 }

  /** Spread of the random part of each lever. */
  function Width(l: Lever): real {
    match l
    case InsightCompression => 2.0
    case SubstrateEfficiency => 2.0
    case BroadUtility => 2.5
    case Awareness => 2.5
    case AgentFriction => 2.0
    case HumanCoefficient => 2.5
  }

  const FamousProjects: seq<string> := ["PostgreSQL", "Git", "Redis", "Docker", "Kubernetes", "SQLite"]

  /** The four project traits the bonuses depend on. */
  datatype Traits = Traits(famous: bool, established: bool, openSource: bool, manyStars: bool)

  function TraitsOf(p: Project, gh: Option<Metrics>): Traits {
    Traits(
      p.name in FamousProjects,
      PresentInt(p.yearCreated) && p.yearCreated.value < 2010,
      p.projectType == "open-source",
      gh.Some? && gh.value.stars > 10000)
  }

  /** The bonus a lever gets from the traits. */
  function Bonus(l: Lever, t: Traits): real {
    match l
    case InsightCompression => (if t.famous then 1.5 else 0.0) + (if t.established then 1.0 else 0.0)
    case SubstrateEfficiency => 0.0
    case BroadUtility => if t.famous then 1.5 else 0.0
    case Awareness =>
      (if t.famous then 2.0 else 0.0) + (if t.openSource then 0.5 else 0.0) + (if t.manyStars then 1.0 else 0.0)
    case AgentFriction => if t.openSource then 0.5 else 0.0
    case HumanCoefficient => if t.established then 1.0 else 0.0
  }

  /** `Math.min(10, x)`. */
  function Min10(x: real): real { if x < 10.0 then x else 10.0 }

  /** The score of one lever before rounding. */
  function Raw(l: Lever, draw: real, t: Traits): real {
    Base(l) + draw * Width(l) + Bonus(l, t)
  }

  /** The demo score of one lever: rounded to tenths first, then capped. */
  function DemoScore(l: Lever, draw: real, t: Traits): real {
    Min10(ToFixed1(Raw(l, draw, t)))
  }

  function DemoScores(d: Draws, t: Traits): LeverScores {
    LeverScores(
      DemoScore(InsightCompression, d.insightCompression, t),
      DemoScore(SubstrateEfficiency, d.substrateEfficiency, t),
      DemoScore(BroadUtility, d.broadUtility, t),
      DemoScore(Awareness, d.awareness, t),
      DemoScore(AgentFriction, d.agentFriction, t),
      DemoScore(HumanCoefficient, d.humanCoefficient, t))
  }

  lemma ScoreOfDemoScores(d: Draws, t: Traits, l: Lever)
    ensures ScoreOf(DemoScores(d, t), l) == DemoScore(l, DrawOf(d, l), t)
  {
  }

  /** Every demo score lies between its lever's base and 10, and is a whole
      number of tenths (rounding comes before the cap, and 10 is whole). */
  lemma DemoScoreBounds(l: Lever, draw: real, t: Traits)
    requires InUnit(draw)
    ensures Base(l) <= DemoScore(l, draw, t) <= 10.0
    ensures IsTenths(DemoScore(l, draw, t))
  {
    var x := Raw(l, draw, t);
    assert Base(l) <= x;
    ToFixed1Monotone(Base(l), x);
    ToFixed1OfTenths(BaseTenths(l));
    ToFixed1IsTenths(x);
    assert IsTenths(10.0) by {
      assert 10.0 * 10.0 == 100 as real;
    }
  }

  /** Every lever score lies between the lever's base and 10 and is a whole
      number of tenths. */
  predicate InDemoRange(s: LeverScores) {
    forall l :: Base(l) <= ScoreOf(s, l) <= 10.0 && IsTenths(ScoreOf(s, l))
  }

  lemma DemoScoresBounds(d: Draws, t: Traits)
    requires ValidDraws(d)
    ensures InDemoRange(DemoScores(d, t))
  {
    forall l
      ensures Base(l) <= ScoreOf(DemoScores(d, t), l) <= 10.0 && IsTenths(ScoreOf(DemoScores(d, t), l))
    {
      ScoreOfDemoScores(d, t, l);
      DemoScoreBounds(l, DrawOf(d, l), t);
    }
  }

  /** One set of traits implies another. */
  predicate TraitsLe(t: Traits, u: Traits) {
    (t.famous ==> u.famous) && (t.established ==> u.established) && (t.openSource ==> u.openSource) && (t.manyStars ==> u.manyStars)
  }

  /** Bonuses never lower a score: more traits give scores at least as high. */
  lemma MoreTraitsNoLower(l: Lever, draw: real, t: Traits, u: Traits)
    requires TraitsLe(t, u)
    ensures DemoScore(l, draw, t) <= DemoScore(l, draw, u)
  {
    assert Bonus(l, t) <= Bonus(l, u);
    ToFixed1Monotone(Raw(l, draw, t), Raw(l, draw, u));
  }

  /** The stars bonus needs strictly more than 10000 stars: a repository with
      exactly 10000 scores as if there were no metrics at all. */
  lemma StarsBonusIsStrict(p: Project, m: Metrics, d: Draws)
    requires m.stars == 10000
    ensures DemoScores(d, TraitsOf(p, Some(m))) == DemoScores(d, TraitsOf(p, None))
  {
    assert TraitsOf(p, Some(m)) == TraitsOf(p, None);
  }

  /** A project is famous only under one of the six exact names. */
  lemma FamousIsExactName(p: Project, gh: Option<Metrics>)
    ensures TraitsOf(p, gh).famous <==>
      p.name == "PostgreSQL" || p.name == "Git" || p.name == "Redis"
      || p.name == "Docker" || p.name == "Kubernetes" || p.name == "SQLite"
  {
  }

  // ---------------------------------------------------------------------
  // Ranking

  /** The score of each lever, the sort key. */
  function Key(s: LeverScores): Lever -> real {
    l => ScoreOf(s, l)
  }

  /** `Object.entries(scores).sort((a, b) => a[1] - b[1])`, keeping the
      lever names: a stable ascending sort of the levers in declaration
      order. */
  function Ranked(s: LeverScores): (r: seq<Lever>)
    ensures |r| == 6
  {
    SortBy(AllLevers, Key(s))
  }

  /** `a` and `b` are the lowest and second lowest levers: `a` has the
      smallest score, `b` the smallest among the others, and ties go to the
      lever declared first. */
  predicate LowestTwo(s: LeverScores, a: Lever, b: Lever) {
    && a != b
    && (forall l :: ScoreOf(s, a) <= ScoreOf(s, l))
    && (forall l :: ScoreOf(s, l) == ScoreOf(s, a) ==> LeverIndex(a) <= LeverIndex(l))
    && (forall l :: l != a ==> ScoreOf(s, b) <= ScoreOf(s, l))
    && (forall l :: l != a && ScoreOf(s, l) == ScoreOf(s, b) ==> LeverIndex(b) <= LeverIndex(l))
  }

  /** The first two levers of the stable sort are the lowest two. */
  lemma RankedIsLowestTwo(s: LeverScores)
    ensures LowestTwo(s, Ranked(s)[0], Ranked(s)[1])
  {
    AllLeversInDeclarationOrder();
    SortedIsLowestTwo(AllLevers, s);
  }

  /** The levers the suggestions aim at: the first two entries of the
      sorted list. */
  method PickLowestTwo(s: LeverScores) returns (lowest: Lever, second: Lever)
    ensures LowestTwo(s, lowest, second)
  {
    var ranked := Ranked(s);
    RankedIsLowestTwo(s);
    lowest, second := ranked[0], ranked[1];
  }

  /** All six levers, each at its declaration position. */
  predicate DeclarationOrder(ls: seq<Lever>) {
    |ls| == 6 && forall i :: 0 <= i < |ls| ==> LeverIndex(ls[i]) == i
  }

  lemma AllLeversInDeclarationOrder()
    ensures DeclarationOrder(AllLevers)
  {
  }

  lemma LeverAtItsIndex(ls: seq<Lever>, l: Lever)
    requires DeclarationOrder(ls)
    ensures ls[LeverIndex(l)] == l
  {
    LeverIndexInjective(ls[LeverIndex(l)], l);
  }

  lemma DeclarationOrderDistinct(ls: seq<Lever>)
    requires DeclarationOrder(ls)
    ensures forall i, j :: 0 <= i < j < |ls| ==> ls[i] != ls[j]
  {
  }

  /** Sorting the levers, listed in declaration order, by score puts the
      lowest two first. */
  lemma {:induction false} SortedIsLowestTwo(ls: seq<Lever>, s: LeverScores)
    requires DeclarationOrder(ls)
    ensures |SortBy(ls, Key(s))| == 6
    ensures LowestTwo(s, SortBy(ls, Key(s))[0], SortBy(ls, Key(s))[1])
  {
    var r := SortBy(ls, Key(s));
    forall l
      ensures ScoreOf(s, r[0]) <= ScoreOf(s, l)
      ensures ScoreOf(s, l) == ScoreOf(s, r[0]) ==> LeverIndex(r[0]) <= LeverIndex(l)
    {
      LowestAgainst(ls, s, l);
    }
    forall l | l != r[0]
      ensures ScoreOf(s, r[1]) <= ScoreOf(s, l)
      ensures ScoreOf(s, l) == ScoreOf(s, r[1]) ==> LeverIndex(r[1]) <= LeverIndex(l)
    {
      SecondAgainst(ls, s, l);
    }
    DeclarationOrderDistinct(ls);
    SortedDistinct(ls, Key(s), 0, 1);
  }

  /** The first sorted lever against any lever `l`: no higher, and on a tie
      declared no later. */
  lemma {:induction false} LowestAgainst(ls: seq<Lever>, s: LeverScores, l: Lever)
    requires DeclarationOrder(ls)
    ensures ScoreOf(s, SortBy(ls, Key(s))[0]) <= ScoreOf(s, l)
    ensures ScoreOf(s, l) == ScoreOf(s, SortBy(ls, Key(s))[0]) ==>
      LeverIndex(SortBy(ls, Key(s))[0]) <= LeverIndex(l)
  {
    var key := Key(s);
    var k := LeverIndex(l);
    LeverAtItsIndex(ls, l);
    FirstTwoAreLowest(ls, key, l);
    if key(l) == key(SortBy(ls, key)[0]) {
      var i := HeadIsEarliestAmongLeast(ls, key, k);
    }
  }

  /** The second sorted lever against any lever `l` but the first: no
      higher, and on a tie declared no later. */
  lemma {:induction false} SecondAgainst(ls: seq<Lever>, s: LeverScores, l: Lever)
    requires DeclarationOrder(ls)
    requires l != SortBy(ls, Key(s))[0]
    ensures ScoreOf(s, SortBy(ls, Key(s))[1]) <= ScoreOf(s, l)
    ensures ScoreOf(s, l) == ScoreOf(s, SortBy(ls, Key(s))[1]) ==>
      LeverIndex(SortBy(ls, Key(s))[1]) <= LeverIndex(l)
  {
    var key := Key(s);
    var k := LeverIndex(l);
    LeverAtItsIndex(ls, l);
    FirstTwoAreLowest(ls, key, l);
    if key(l) == key(SortBy(ls, key)[1]) {
      var i := SecondIsEarliestAmongRest(ls, key, k);
    }
  }

  /** The lowest two levers are determined by the scores, so they are the
      first two of the stable sort whatever way they are found. */
  lemma LowestTwoUnique(s: LeverScores, a: Lever, b: Lever, c: Lever, d: Lever)
    requires LowestTwo(s, a, b) && LowestTwo(s, c, d)
    ensures a == c && b == d
  {
    LeverIndexInjective(a, c);
    LeverIndexInjective(b, d);
  }

  // ---------------------------------------------------------------------
  // Texts

  /** How JavaScript prints a non-negative number of tenths `k / 10`. */
  function ShowTenths(k: nat): (r: string)
    ensures r != []
  {
    if k % 10 == 0 then NatToString(k / 10) else NatToString(k / 10) + "." + [DigitChar(k % 10)]
  }

  /** A printed score, for a score that is a whole number of tenths. */
  function ShowScore(x: real): string {
    var k := (x * 10.0).Floor;
    if k < 0 then "-" + ShowTenths(-k) else ShowTenths(k)
  }

  predicate HasDot(s: string) { exists i :: 0 <= i < |s| && s[i] == '.' }

  lemma ShowTenthsDot(k: nat)
    ensures HasDot(ShowTenths(k)) <==> k % 10 != 0
  {
    var a := NatToString(k / 10);
    if k % 10 != 0 {
      assert ShowTenths(k)[|a|] == '.';
    } else {
      assert forall i :: 0 <= i < |a| ==> IsDigit(a[i]);
    }
  }

  /** Different numbers of tenths print differently. */
  lemma ShowTenthsInjective(k: nat, m: nat)
    requires ShowTenths(k) == ShowTenths(m)
    ensures k == m
  {
    ShowTenthsDot(k);
    ShowTenthsDot(m);
    var a, b := NatToString(k / 10), NatToString(m / 10);
    if k % 10 == 0 {
      NatToStringInjective(k / 10, m / 10);
    } else {
      var s := ShowTenths(k);
      assert s == a + "." + [DigitChar(k % 10)] && s == b + "." + [DigitChar(m % 10)];
      assert DigitChar(k % 10) == s[|s| - 1] == DigitChar(m % 10);
      assert forall i :: 0 <= i < |a| ==> IsDigit(a[i]);
      assert forall i :: 0 <= i < |b| ==> IsDigit(b[i]);
      assert s[|a|] == '.' && s[|b|] == '.';
      assert |a| == |b|;
      assert a == s[..|a|] == b;
      NatToStringInjective(k / 10, m / 10);
    }
  }

  function ScoreLine(x: real): string { " Score: " + ShowScore(x) + "/10" }

  // The fixed sentences of the demo reply.
  const InsightPhrase := " demonstrates strong crystallized knowledge in "
  const SubstrateSentence := "Runs efficiently on standard hardware with good performance characteristics."
  const UtilityPhrase := "Cross-domain applicability in "
  const OverallPhrase := " shows strong survival characteristics as a "
  const OutlookSentence := " Predicted to remain relevant in the AI era."
  const WeakestPhrase := " - this is currently the weakest lever at "
  const BoostPhrase := " to boost overall survival score."
  const MaintainSentence := "Maintain strengths in top-performing areas while addressing vulnerabilities."
  const EngagementSentence := "Increase community engagement through documentation and tutorials."
  const ExamplesSentence := "Create more examples and use cases to demonstrate value."
  const PartnershipSentence := "Build strategic partnerships to increase awareness and adoption."
  const ApiSentence := "Invest in API design and developer experience for better agent integration."

  /** The reasoning object of a demo reply. */
  function DemoReasoning(p: Project, gh: Option<Metrics>, s: LeverScores): Json {
    var t := TraitsOf(p, gh);
    JObj([
      ("insightCompression",
        JStr(p.name + InsightPhrase + p.category + "." + ScoreLine(s.insightCompression))),
      ("substrateEfficiency",
        JStr(SubstrateSentence + ScoreLine(s.substrateEfficiency))),
      ("broadUtility",
        JStr(UtilityPhrase + p.category + " use cases." + ScoreLine(s.broadUtility))),
      ("awareness",
        JStr("Well-known in the " + p.category + " space"
          + (if gh.Some? then " with " + IntToString(gh.value.stars) + " GitHub stars" else "")
          + "." + ScoreLine(s.awareness))),
      ("agentFriction",
        JStr((if t.openSource then "Open source with good" else "Commercial with decent")
          + " API/programmatic access." + ScoreLine(s.agentFriction))),
      ("humanCoefficient",
        JStr("Developers " + (if t.established then "have long trusted" else "appreciate") + " this tool." + ScoreLine(s.humanCoefficient))),
      ("overall",
        JStr(p.name + OverallPhrase + p.category + " solution. "
          + (if PresentInt(p.yearCreated) then "Established in " + IntToString(p.yearCreated.value) + "." else "")
          + OutlookSentence))
    ])
  }

  /** The suggestions object of a demo reply, aimed at the two given levers. */
  function DemoSuggestions(s: LeverScores, lowest: Lever, second: Lever): Json {
    JObj([
      ("topPriorities", JArr([
        JStr("Improve " + Humanize(LeverKey(lowest)) + WeakestPhrase + ShowScore(ScoreOf(s, lowest)) + "/10."),
        JStr("Focus on " + Humanize(LeverKey(second)) + BoostPhrase),
        JStr(MaintainSentence)])),
      ("quickWins", JArr([JStr(EngagementSentence), JStr(ExamplesSentence)])),
      ("longTerm", JArr([JStr(PartnershipSentence), JStr(ApiSentence)]))
    ])
  }

  lemma KeyHasNoSpace(l: Lever)
    ensures forall i :: 0 <= i < |LeverKey(l)| ==> LeverKey(l)[i] != ' '
  {
  }

  /** The rendered lever name in a suggestion determines the lever. */
  lemma LeverNameRecoverable(l: Lever, m: Lever)
    requires Humanize(LeverKey(l)) == Humanize(LeverKey(m))
    ensures l == m
  {
    KeyHasNoSpace(l);
    KeyHasNoSpace(m);
    HumanizeRoundTrip(LeverKey(l));
    HumanizeRoundTrip(LeverKey(m));
  }

  /** What the demo synthesiser returns. */
  datatype DemoReply = DemoReply(scores: LeverScores, confidence: real, reasoning: Json, suggestions: Json)

  /** `generateDemoScores`. */
  method GenerateDemoScores(p: Project, gh: Option<Metrics>, d: Draws) returns (r: DemoReply, lowest: Lever, second: Lever)
    requires ValidDraws(d)
    ensures r.scores == DemoScores(d, TraitsOf(p, gh))
    ensures InDemoRange(r.scores)
    ensures 0.85 <= r.confidence < 0.95
    ensures r.reasoning == DemoReasoning(p, gh, r.scores)
    ensures LowestTwo(r.scores, lowest, second)
    ensures r.suggestions == DemoSuggestions(r.scores, lowest, second)
  {
    var scores := SynthesiseScores(p, gh, d);
    lowest, second := PickLowestTwo(scores);
    r := DemoReply(scores, 0.85 + d.confidence * 0.10, DemoReasoning(p, gh, scores), DemoSuggestions(scores, lowest, second));
  }

  /** The score part of `generateDemoScores`: base plus random part, the
      trait bonuses added one condition at a time, then rounding and cap. */
  method SynthesiseScores(p: Project, gh: Option<Metrics>, d: Draws) returns (scores: LeverScores)
    requires ValidDraws(d)
    ensures scores == DemoScores(d, TraitsOf(p, gh))
    ensures InDemoRange(scores)
  {
    var insightCompression := 7.0 + d.insightCompression * 2.0;
    var substrateEfficiency := 7.5 + d.substrateEfficiency * 2.0;
    var broadUtility := 7.0 + d.broadUtility * 2.5;
    var awareness := 6.5 + d.awareness * 2.5;
    var agentFriction := 7.0 + d.agentFriction * 2.0;
    var humanCoefficient := 6.5 + d.humanCoefficient * 2.5;

    if p.name in FamousProjects {
      insightCompression := insightCompression + 1.5;
      awareness := awareness + 2.0;
      broadUtility := broadUtility + 1.5;
    }
    if p.yearCreated.Some? && p.yearCreated.value != 0 && p.yearCreated.value < 2010 {
      insightCompression := insightCompression + 1.0;
      humanCoefficient := humanCoefficient + 1.0;
    }
    if p.projectType == "open-source" {
      awareness := awareness + 0.5;
      agentFriction := agentFriction + 0.5;
    }
    if gh.Some? && gh.value.stars > 10000 {
      awareness := awareness + 1.0;
    }

    var t := TraitsOf(p, gh);
    assert insightCompression == Raw(InsightCompression, d.insightCompression, t);
    assert substrateEfficiency == Raw(SubstrateEfficiency, d.substrateEfficiency, t);
    assert broadUtility == Raw(BroadUtility, d.broadUtility, t);
    assert awareness == Raw(Awareness, d.awareness, t);
    assert agentFriction == Raw(AgentFriction, d.agentFriction, t);
    assert humanCoefficient == Raw(HumanCoefficient, d.humanCoefficient, t);
    scores := LeverScores(
      Min10(ToFixed1(insightCompression)),
      Min10(ToFixed1(substrateEfficiency)),
      Min10(ToFixed1(broadUtility)),
      Min10(ToFixed1(awareness)),
      Min10(ToFixed1(agentFriction)),
      Min10(ToFixed1(humanCoefficient)));
    DemoScoresBounds(d, t);
  }
}
