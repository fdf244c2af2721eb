/** The records the rating pipeline passes around and stores: the six survival
    levers, a project, the repository metrics, the reply values of the model,
    an evaluation and the stored AI rating. */
module Domain {
  import opened Values

  /** The six survival levers, in declaration order. */
  datatype Lever =
    | InsightCompression
    | SubstrateEfficiency
    | BroadUtility
    | Awareness
    | AgentFriction
    | HumanCoefficient

  const AllLevers: seq<Lever> :=
    [InsightCompression, SubstrateEfficiency, BroadUtility, Awareness, AgentFriction, HumanCoefficient]

  /** The position of a lever in the declaration order. */
  function LeverIndex(l: Lever): (k: nat)
    ensures k < 6
  {
    match l
    case InsightCompression => 0
    case SubstrateEfficiency => 1
    case BroadUtility => 2
    case Awareness => 3
    case AgentFriction => 4
    case HumanCoefficient => 5
  }

  lemma LeverIndexListed(l: Lever)
    ensures LeverIndex(l) < |AllLevers| && AllLevers[LeverIndex(l)] == l
  {
  }

  lemma LeverIndexInjective(l: Lever, m: Lever)
    ensures LeverIndex(l) == LeverIndex(m) ==> l == m
  {
  }

  /** The property name the lever has in score and reasoning objects. */
  function LeverKey(l: Lever): string {
    match l
    case InsightCompression => "insightCompression"
    case SubstrateEfficiency => "substrateEfficiency"
    case BroadUtility => "broadUtility"
    case Awareness => "awareness"
    case AgentFriction => "agentFriction"
    case HumanCoefficient => "humanCoefficient"
  }

  datatype LeverScores = LeverScores(
    insightCompression: real,
    substrateEfficiency: real,
    broadUtility: real,
    awareness: real,
    agentFriction: real,
    humanCoefficient: real)

  function ScoreOf(s: LeverScores, l: Lever): real {
    match l
    case InsightCompression => s.insightCompression
    case SubstrateEfficiency => s.substrateEfficiency
    case BroadUtility => s.broadUtility
    case Awareness => s.awareness
    case AgentFriction => s.agentFriction
    case HumanCoefficient => s.humanCoefficient
  }

  /** Every lever score lies in [lo, hi]. */
  predicate AllWithin(s: LeverScores, lo: real, hi: real) {
    && lo <= s.insightCompression <= hi
    && lo <= s.substrateEfficiency <= hi
    && lo <= s.broadUtility <= hi
    && lo <= s.awareness <= hi
    && lo <= s.agentFriction <= hi
    && lo <= s.humanCoefficient <= hi
  }

  lemma AllWithinEveryLever(s: LeverScores, lo: real, hi: real)
    ensures AllWithin(s, lo, hi) <==> forall l :: lo <= ScoreOf(s, l) <= hi
  {
    if forall l :: lo <= ScoreOf(s, l) <= hi {
      assert lo <= ScoreOf(s, InsightCompression) <= hi;
      assert lo <= ScoreOf(s, SubstrateEfficiency) <= hi;
      assert lo <= ScoreOf(s, BroadUtility) <= hi;
      assert lo <= ScoreOf(s, Awareness) <= hi;
      assert lo <= ScoreOf(s, AgentFriction) <= hi;
      assert lo <= ScoreOf(s, HumanCoefficient) <= hi;
    }
  }

  datatype Tier = S | A | B | C | D | F

  /** A JSON value, as `JSON.parse` produces it. An object keeps its
      properties in insertion order. */
  datatype Json =
    | JNull
    | JBool(b: bool)
    | JNum(n: real)
    | JStr(str: string)
    | JArr(items: seq<Json>)
    | JObj(fields: seq<(string, Json)>)

  /** The value of property `key` of an object: the last binding wins, as
      when `JSON.parse` meets a repeated key. */
  function Lookup(fields: seq<(string, Json)>, key: string): Option<Json> {
    if fields == [] then None
    else if fields[|fields| - 1].0 == key then Some(fields[|fields| - 1].1)
    else Lookup(fields[..|fields| - 1], key)
  }

  /** A catalogued project (the columns the core reads or writes). */
  datatype Project = Project(
    id: int,
    name: string,
    projectType: string,
    category: string,
    description: string,
    url: Option<string>,
    githubUrl: Option<string>,
    logo: Option<string>,
    tags: Option<string>,
    yearCreated: Option<int>,
    selfHostable: bool,
    license: Option<string>,
    techStack: Option<string>,
    alternativeTo: Option<string>)

  /** The normalised repository metrics gathered from the code host. */
  datatype Metrics = Metrics(
    stars: int,
    forks: int,
    openIssues: int,
    watchers: int,
    language: Option<string>,
    size: int,
    license: Option<string>,
    topics: seq<string>,
    hasWiki: bool,
    hasPages: bool,
    createdAt: string,
    updatedAt: string,
    pushedAt: string,
    description: Option<string>,
    recentCommitsCount: nat,
    isActive: bool)

  /** The object `evaluateProject` resolves with. */
  datatype Evaluation = Evaluation(
    scores: LeverScores,
    survivalScore: real,
    tier: Tier,
    confidence: real,
    reasoning: Json,
    suggestions: Option<Json>,
    model: string,
    githubData: Option<Metrics>,
    analyzedAt: int)

  /** The stored AI rating of one project. */
  datatype AIRating = AIRating(
    projectId: int,
    scores: LeverScores,
    survivalScore: real,
    tier: Tier,
    confidence: real,
    reasoning: Json,
    suggestions: Option<Json>,
    model: string,
    githubStars: Option<int>,
    githubForks: Option<int>,
    githubIssues: Option<int>,
    lastAnalyzedAt: int)
}
