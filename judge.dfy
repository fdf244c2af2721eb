/** `evaluateProject`: the composition of the judge's steps. Repository
    metrics are gathered when the project has a GitHub URL; the levers are
    scored by the demo synthesiser when the API key is "demo_mode", else by
    the language model, whose reply is interpreted; the weighted survival
    score and the tier follow. Any failure is re-raised with the prefix
    "AI Judge evaluation failed: ". */
module Judge {
  import opened Values
  import opened Text
  import opened Domain
  import opened Scoring
  import opened ResponseParser
  import opened GitHub
  import opened Prompt
  import opened Demo

  const ModelName: string := "claude-sonnet-4-5-20250929"
  const DemoModeKey: string := "demo_mode"
  const FailurePrefix: string := "AI Judge evaluation failed: "

  /** The message given when a reply passes the field check but a score or
      the confidence is not a number. */
  const NonNumericReply: string := "AI response holds a non-numeric score"

  /** Everything outside the judge that it consults: the configured keys,
      the code host queries, the language model (prompt to reply text, or the
      message of the error it throws), `JSON.parse`, the locale number
      format and the fixed part of the prompt. */
  datatype Environment = Environment(
    apiKey: Option<string>,
    hasGitHubToken: bool,
    getRepo: (string, string) -> Result<RepoRecord>,
    listCommits: (string, string) -> Result<nat>,
    complete: string -> Result<string>,
    parseJson: string -> Option<Json>,
    format: Formatter,
    guide: seq<string>)

  predicate DemoMode(env: Environment) {
    env.apiKey == Some(DemoModeKey)
  }

  /** The metrics `evaluateProject` gathers: none without a (truthy) GitHub
      URL. */
  function GitHubDataOf(p: Project, env: Environment): (r: Option<Metrics>)
    ensures !Present(p.githubUrl) ==> r.None?
    ensures Present(p.githubUrl) ==>
      r == AnalyzeGitHub(env.hasGitHubToken, p.githubUrl.value, env.getRepo, env.listCommits)
  {
    if p.githubUrl.Some? && p.githubUrl.value != "" then
      AnalyzeGitHub(env.hasGitHubToken, p.githubUrl.value, env.getRepo, env.listCommits)
    else None
  }

  /** The part of a lever-scoring reply that `evaluateProject` reads. */
  datatype LeverReply = LeverReply(scores: LeverScores, confidence: real, reasoning: Json)

  /** The number held by property `key` of an object, if it holds one. */
  function NumberField(j: Json, key: string): (r: Option<real>)
    ensures r.Some? <==> j.JObj? && Lookup(j.fields, key).Some? && Lookup(j.fields, key).value.JNum?
    ensures r.Some? ==> Lookup(j.fields, key) == Some(JNum(r.value))
  {
    if j.JObj? then
      match Lookup(j.fields, key)
      case Some(JNum(n)) => Some(n)
      case _ => None
    else None
  }

  /** The six lever scores of a `scores` object. */
  function ScoresFromJson(j: Json): (r: Option<LeverScores>)
    ensures r.Some? <==> forall l :: NumberField(j, LeverKey(l)).Some?
    ensures r.Some? ==> forall l :: Some(ScoreOf(r.value, l)) == NumberField(j, LeverKey(l))
  {
    var ic := NumberField(j, "insightCompression");
    var se := NumberField(j, "substrateEfficiency");
    var bu := NumberField(j, "broadUtility");
    var aw := NumberField(j, "awareness");
    var af := NumberField(j, "agentFriction");
    var hc := NumberField(j, "humanCoefficient");
    if ic.Some? && se.Some? && bu.Some? && aw.Some? && af.Some? && hc.Some? then
      Some(LeverScores(ic.value, se.value, bu.value, aw.value, af.value, hc.value))
    else
      assert !NumberField(j, LeverKey(InsightCompression)).Some?
        || !NumberField(j, LeverKey(SubstrateEfficiency)).Some?
        || !NumberField(j, LeverKey(BroadUtility)).Some?
        || !NumberField(j, LeverKey(Awareness)).Some?
        || !NumberField(j, LeverKey(AgentFriction)).Some?
        || !NumberField(j, LeverKey(HumanCoefficient)).Some?;
      None
  }

  /** The scores, confidence and reasoning of a parsed reply. */
  function ReplyFromJson(j: Json): (r: Option<LeverReply>)
    ensures r.Some? ==>
      && j.JObj?
      && Lookup(j.fields, "scores").Some?
      && ScoresFromJson(Lookup(j.fields, "scores").value) == Some(r.value.scores)
      && NumberField(j, "confidence") == Some(r.value.confidence)
      && Lookup(j.fields, "reasoning") == Some(r.value.reasoning)
    ensures
      && j.JObj?
      && Lookup(j.fields, "scores").Some?
      && ScoresFromJson(Lookup(j.fields, "scores").value).Some?
      && NumberField(j, "confidence").Some?
      && Lookup(j.fields, "reasoning").Some?
      ==> r.Some?
  {
    if !j.JObj? then None
    else
      match Lookup(j.fields, "scores")
      case None => None
      case Some(sj) =>
        match (ScoresFromJson(sj), NumberField(j, "confidence"), Lookup(j.fields, "reasoning"))
        case (Some(s), Some(c), Some(why)) => Some(LeverReply(s, c, why))
        case _ => None
  }

  /** The live path of `scoreLeverswithLLM`: build the prompt, ask the
      model, interpret the reply. */
  function ScoreWithModel(p: Project, gh: Option<Metrics>, env: Environment): (r: Result<LeverReply>)
    ensures env.complete(BuildScoringPrompt(p, gh, env.format, env.guide)).Err? ==>
      r == Err(env.complete(BuildScoringPrompt(p, gh, env.format, env.guide)).error)
    ensures r.Ok? ==>
      var parsed := ParseClaudeResponse(env.complete(BuildScoringPrompt(p, gh, env.format, env.guide)).value, env.parseJson);
      parsed.Ok? && HasRequiredFields(parsed.value) && ReplyFromJson(parsed.value) == Some(r.value)
    ensures env.complete(BuildScoringPrompt(p, gh, env.format, env.guide)).Ok? ==>
      var parsed := ParseClaudeResponse(env.complete(BuildScoringPrompt(p, gh, env.format, env.guide)).value, env.parseJson);
      && (parsed.Err? ==> r == Err(ParseFailure))
      && (parsed.Ok? && ReplyFromJson(parsed.value).Some? ==> r == Ok(ReplyFromJson(parsed.value).value))
      && (parsed.Ok? && ReplyFromJson(parsed.value).None? ==> r == Err(NonNumericReply))
  {
    match env.complete(BuildScoringPrompt(p, gh, env.format, env.guide))
    case Err(e) => Err(e)
    case Ok(text) =>
      match ParseClaudeResponse(text, env.parseJson)
      case Err(e) => Err(e)
      case Ok(parsed) =>
        match ReplyFromJson(parsed)
        case None => Err(NonNumericReply)
        case Some(reply) => Ok(reply)
  }

  /** A reply the model returns with a zero confidence fails the evaluation
      with the parse error. */
  lemma ZeroConfidenceFails(p: Project, gh: Option<Metrics>, env: Environment, fields: seq<(string, Json)>)
    requires env.complete(BuildScoringPrompt(p, gh, env.format, env.guide)).Ok?
    requires var text := env.complete(BuildScoringPrompt(p, gh, env.format, env.guide)).value;
      env.parseJson(Trim(ExtractJson(text))) == Some(JObj(fields))
    requires Lookup(fields, "confidence") == Some(JNum(0.0))
    ensures ScoreWithModel(p, gh, env) == Err(ParseFailure)
  {
    var text := env.complete(BuildScoringPrompt(p, gh, env.format, env.guide)).value;
    ZeroConfidenceRejected(text, env.parseJson, fields);
  }

  /** Rounding a survival score in [0, 10] to hundredths keeps it there. */
  lemma ToFixed2InRange(x: real)
    ensures 0.0 <= x <= 10.0 ==> 0.0 <= ToFixed2(x) <= 10.0
  {
    if 0.0 <= x <= 10.0 {
      RoundHalfAwayMonotone(0.0, x * 100.0);
      RoundHalfAwayMonotone(x * 100.0, 1000.0);
      RoundHalfAwayOfInt(0);
      RoundHalfAwayOfInt(1000);
    }
  }

  /** The evaluation built from a lever reply at time `now`. */
  function EvaluationOf(reply: LeverReply, gh: Option<Metrics>, now: int): (e: Evaluation)
    ensures e.scores == reply.scores && e.confidence == reply.confidence && e.reasoning == reply.reasoning
    ensures e.tier == CalculateTier(CalculateWeightedScore(e.scores))
    ensures e.survivalScore == ToFixed2(CalculateWeightedScore(e.scores))
    ensures AllWithin(e.scores, 0.0, 10.0) ==> 0.0 <= e.survivalScore <= 10.0
    ensures e.suggestions.None? && e.model == ModelName && e.githubData == gh && e.analyzedAt == now
  {
    var weighted := CalculateWeightedScore(reply.scores);
    ToFixed2InRange(weighted);
    Evaluation(reply.scores, ToFixed2(weighted), CalculateTier(weighted), reply.confidence,
      reply.reasoning, None, ModelName, gh, now)
  }

  /** `scoreLeverswithLLM`: the demo synthesiser in demo mode, else the
      model. */
  method ScoreLevers(p: Project, gh: Option<Metrics>, env: Environment, draws: Draws) returns (r: Result<LeverReply>)
    requires ValidDraws(draws)
    ensures DemoMode(env) ==>
      && r.Ok?
      && r.value.scores == DemoScores(draws, TraitsOf(p, gh))
      && InDemoRange(r.value.scores)
      && 0.85 <= r.value.confidence < 0.95
      && r.value.reasoning == DemoReasoning(p, gh, r.value.scores)
    ensures !DemoMode(env) ==> r == ScoreWithModel(p, gh, env)
  {
    if DemoMode(env) {
      var demo, _, _ := GenerateDemoScores(p, gh, draws);
      r := Ok(LeverReply(demo.scores, demo.confidence, demo.reasoning));
    } else {
      r := ScoreWithModel(p, gh, env);
    }
  }

  /** `evaluateProject`, with the random draws of the demo synthesiser and
      the current time as inputs. */
  method EvaluateProject(p: Project, env: Environment, draws: Draws, now: int) returns (r: Result<Evaluation>)
    requires ValidDraws(draws)
    ensures r.Err? ==> |FailurePrefix| <= |r.error| && r.error[..|FailurePrefix|] == FailurePrefix
    ensures r.Ok? ==> r.value.githubData == GitHubDataOf(p, env)
    ensures r.Ok? ==>
      && r.value.tier == CalculateTier(CalculateWeightedScore(r.value.scores))
      && r.value.survivalScore == ToFixed2(CalculateWeightedScore(r.value.scores))
      && r.value.suggestions.None? && r.value.model == ModelName && r.value.analyzedAt == now
    ensures DemoMode(env) ==>
      && r.Ok?
      && r.value.scores == DemoScores(draws, TraitsOf(p, GitHubDataOf(p, env)))
      && 0.85 <= r.value.confidence < 0.95
      && r.value.reasoning == DemoReasoning(p, GitHubDataOf(p, env), r.value.scores)
      && 5.0 <= r.value.survivalScore <= 10.0
    ensures !DemoMode(env) ==>
      var live := ScoreWithModel(p, GitHubDataOf(p, env), env);
      && (r.Ok? <==> live.Ok?)
      && (r.Ok? ==> r.value == EvaluationOf(live.value, GitHubDataOf(p, env), now))
      && (r.Err? ==> r.error == FailurePrefix + live.error)
  {
    var gh := GitHubDataOf(p, env);
    var reply := ScoreLevers(p, gh, env, draws);
    if reply.Err? {
      r := Err(FailurePrefix + reply.error);
      return;
    }
    if DemoMode(env) {
      DemoEvaluationBounds(reply.value.scores);
    }
    r := Ok(EvaluationOf(reply.value, gh, now));
  }

  /** Demo scores give a survival score of at least 5: every demo lever
      score is at least 6.5. */
  lemma DemoEvaluationBounds(s: LeverScores)
    requires InDemoRange(s)
    ensures 5.0 <= ToFixed2(CalculateWeightedScore(s)) <= 10.0
  {
    var w := CalculateWeightedScore(s);
    assert AllWithin(s, 6.5, 10.0) by {
      AllWithinEveryLever(s, 6.5, 10.0);
      forall l ensures 6.5 <= ScoreOf(s, l) <= 10.0 {
        assert BaseTenths(l) >= 65;
      }
    }
    RoundHalfAwayMonotone(500.0, w * 100.0);
    RoundHalfAwayMonotone(w * 100.0, 1000.0);
    RoundHalfAwayOfInt(500);
    RoundHalfAwayOfInt(1000);
  }
}
