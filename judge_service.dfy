/** The evaluation service: evaluate one project and store its AI rating
    (one rating per project, created or updated), evaluate a list of projects
    one after the other while collecting failures, and re-evaluate the
    projects whose rating is missing or older than a cutoff. The judge and
    the clock are injected: attempt number `n` of the service evaluates with
    `judge.evaluate(project, n)` and stores at time `judge.clock(n)`. */
module JudgeService {
  import opened Values
  import opened Text
  import opened Domain
  import opened ResponseParser
  import opened Judge

  /** The injected judge (`aiJudge.evaluateProject`, which may throw) and the
      clock (`new Date()`), both indexed by the attempt number. */
  datatype Evaluator = Evaluator(evaluate: (Project, nat) -> Result<Evaluation>, clock: nat -> int)

  /** What `evaluateAndStoreProject` resolves with. */
  datatype Stored = Stored(project: Project, rating: AIRating, evaluation: Evaluation)

  function NotFoundMessage(id: int): string {
    "Project with ID " + IntToString(id) + " not found"
  }

  /** `evaluation.suggestions || null`. */
  function SuggestionsOrNull(s: Option<Json>): (r: Option<Json>)
    ensures r.Some? <==> s.Some? && Truthy(s.value)
    ensures r.Some? ==> r == s
  {
    if s.Some? && Truthy(s.value) then s else None
  }

  /** `evaluation.githubData?.x` written by the upsert: a value when metrics
      were gathered; otherwise the create branch writes null and the update
      branch leaves the column as it was (an undefined field is skipped). */
  function KeptOr(latest: Option<int>, prev: Option<AIRating>, column: AIRating -> Option<int>): (r: Option<int>)
    ensures latest.Some? ==> r == latest
    ensures latest.None? && prev.None? ==> r.None?
    ensures latest.None? && prev.Some? ==> r == column(prev.value)
  {
    if latest.Some? then latest else if prev.Some? then column(prev.value) else None
  }

  function StarsOf(m: Option<Metrics>): Option<int> { if m.Some? then Some(m.value.stars) else None }
  function ForksOf(m: Option<Metrics>): Option<int> { if m.Some? then Some(m.value.forks) else None }
  function IssuesOf(m: Option<Metrics>): Option<int> { if m.Some? then Some(m.value.openIssues) else None }

  /** The rating the upsert leaves for project `id`, given the rating it had
      before (`prev`), the evaluation and the time. */
  function RatingOf(id: int, prev: Option<AIRating>, e: Evaluation, now: int): (r: AIRating)
    ensures r.projectId == id && r.lastAnalyzedAt == now
    ensures r.scores == e.scores && r.survivalScore == e.survivalScore && r.tier == e.tier
    ensures r.confidence == e.confidence && r.reasoning == e.reasoning && r.model == e.model
    ensures e.suggestions.None? ==> r.suggestions.None?
    ensures r.suggestions == SuggestionsOrNull(e.suggestions)
    ensures e.githubData.Some? ==>
      && r.githubStars == Some(e.githubData.value.stars)
      && r.githubForks == Some(e.githubData.value.forks)
      && r.githubIssues == Some(e.githubData.value.openIssues)
    ensures e.githubData.None? && prev.Some? ==>
      && r.githubStars == prev.value.githubStars
      && r.githubForks == prev.value.githubForks
      && r.githubIssues == prev.value.githubIssues
    ensures e.githubData.None? && prev.None? ==>
      r.githubStars.None? && r.githubForks.None? && r.githubIssues.None?
  {
    AIRating(id, e.scores, e.survivalScore, e.tier, e.confidence, e.reasoning,
      SuggestionsOrNull(e.suggestions), e.model,
      KeptOr(StarsOf(e.githubData), prev, (x: AIRating) => x.githubStars),
      KeptOr(ForksOf(e.githubData), prev, (x: AIRating) => x.githubForks),
      KeptOr(IssuesOf(e.githubData), prev, (x: AIRating) => x.githubIssues),
      now)
  }

  /** An evaluation built by the judge never carries suggestions, so the
      stored rating's suggestions are null. */
  lemma JudgeSuggestionsAreNull(id: int, prev: Option<AIRating>, reply: LeverReply, gh: Option<Metrics>, at: int, now: int)
    ensures RatingOf(id, prev, EvaluationOf(reply, gh, at), now).suggestions.None?
  {
  }

  /** Every rating is stored under the id of its project. */
  predicate KeyedByProject(ratings: map<int, AIRating>) {
    forall id :: id in ratings ==> ratings[id].projectId == id
  }

  /** The state after one attempt and what the attempt resolved with. */
  datatype Attempt = Attempt(ratings: map<int, AIRating>, ticks: nat, outcome: Result<Stored>)

  /** `evaluateAndStoreProject(id)` on the tables `projects` and `ratings`,
      as attempt number `ticks`. */
  function Attempted(projects: map<int, Project>, ratings: map<int, AIRating>, ticks: nat, judge: Evaluator, id: int): (a: Attempt)
    ensures id !in projects ==> a == Attempt(ratings, ticks, Err(NotFoundMessage(id)))
    ensures id in projects ==> a.ticks == ticks + 1
    ensures id in projects && judge.evaluate(projects[id], ticks).Err? ==>
      a.ratings == ratings && a.outcome == Err(judge.evaluate(projects[id], ticks).error)
    ensures a.outcome.Ok? ==>
      && id in projects
      && judge.evaluate(projects[id], ticks) == Ok(a.outcome.value.evaluation)
      && a.outcome.value.project == projects[id]
      && a.ratings == ratings[id := a.outcome.value.rating]
      && a.outcome.value.rating ==
           RatingOf(id, if id in ratings then Some(ratings[id]) else None, a.outcome.value.evaluation, judge.clock(ticks))
    ensures forall other :: other != id ==>
      (other in a.ratings <==> other in ratings) && (other in ratings ==> a.ratings[other] == ratings[other])
    ensures KeyedByProject(ratings) ==> KeyedByProject(a.ratings)
  {
    if id !in projects then Attempt(ratings, ticks, Err(NotFoundMessage(id)))
    else
      match judge.evaluate(projects[id], ticks)
      case Err(message) => Attempt(ratings, ticks + 1, Err(message))
      case Ok(e) =>
        var rating := RatingOf(id, if id in ratings then Some(ratings[id]) else None, e, judge.clock(ticks));
        Attempt(ratings[id := rating], ticks + 1, Ok(Stored(projects[id], rating, e)))
  }

  /** One failed batch item. */
  datatype Failure = Failure(projectId: int, error: string)

  datatype Stats = Stats(total: nat, successful: nat, failed: nat)

  /** What `batchEvaluate` resolves with. */
  datatype BatchReport = BatchReport(successful: seq<Stored>, failed: seq<Failure>, stats: Stats)

  /** The state after a run of attempts, and each id with its outcome. */
  datatype Run = Run(ratings: map<int, AIRating>, ticks: nat, outcomes: seq<(int, Result<Stored>)>)

  /** The attempts for `ids`, one after the other in input order. */
  function RunBatch(projects: map<int, Project>, ratings: map<int, AIRating>, ticks: nat, judge: Evaluator, ids: seq<int>): (r: Run)
    ensures |r.outcomes| == |ids|
    ensures forall i :: 0 <= i < |ids| ==> r.outcomes[i].0 == ids[i]
    ensures KeyedByProject(ratings) ==> KeyedByProject(r.ratings)
    decreases |ids|
  {
    if ids == [] then Run(ratings, ticks, [])
    else
      var before := RunBatch(projects, ratings, ticks, judge, ids[..|ids| - 1]);
      var id := ids[|ids| - 1];
      var a := Attempted(projects, before.ratings, before.ticks, judge, id);
      Run(a.ratings, a.ticks, before.outcomes + [(id, a.outcome)])
  }

  /** The successful results, in input order. */
  function Successes(outcomes: seq<(int, Result<Stored>)>): (r: seq<Stored>)
    ensures |r| <= |outcomes|
  {
    if outcomes == [] then []
    else
      var last := outcomes[|outcomes| - 1];
      Successes(outcomes[..|outcomes| - 1]) + (if last.1.Ok? then [last.1.value] else [])
  }

  /** The failures with their ids and messages, in input order. */
  function Failures(outcomes: seq<(int, Result<Stored>)>): (r: seq<Failure>)
    ensures |r| <= |outcomes|
  {
    if outcomes == [] then []
    else
      var last := outcomes[|outcomes| - 1];
      Failures(outcomes[..|outcomes| - 1]) + (if last.1.Err? then [Failure(last.0, last.1.error)] else [])
  }

  /** One more id extends the run by one attempt. */
  lemma RunBatchStep(projects: map<int, Project>, ratings: map<int, AIRating>, ticks: nat, judge: Evaluator, ids: seq<int>, i: nat,
                     before: Run, a: Attempt)
    requires i < |ids|
    requires RunBatch(projects, ratings, ticks, judge, ids[..i]) == before
    requires a == Attempted(projects, before.ratings, before.ticks, judge, ids[i])
    ensures RunBatch(projects, ratings, ticks, judge, ids[..i + 1]) == Run(a.ratings, a.ticks, before.outcomes + [(ids[i], a.outcome)])
  {
    assert ids[..i + 1][..i] == ids[..i];
  }

  /** One more outcome extends the successes or the failures by one entry. */
  lemma SuccessesAndFailuresStep(outcomes: seq<(int, Result<Stored>)>, o: (int, Result<Stored>))
    ensures Successes(outcomes + [o]) == Successes(outcomes) + (if o.1.Ok? then [o.1.value] else [])
    ensures Failures(outcomes + [o]) == Failures(outcomes) + (if o.1.Err? then [Failure(o.0, o.1.error)] else [])
  {
    assert (outcomes + [o])[..|outcomes|] == outcomes;
  }

  /** Every outcome is either a success or a failure. */
  lemma {:induction false} SuccessesAndFailuresPartition(outcomes: seq<(int, Result<Stored>)>)
    ensures |Successes(outcomes)| + |Failures(outcomes)| == |outcomes|
    decreases |outcomes|
  {
    if outcomes != [] {
      SuccessesAndFailuresPartition(outcomes[..|outcomes| - 1]);
    }
  }

  /** Only failing outcomes are reported as failures, each with its id. */
  lemma {:induction false} FailuresAreFailedIds(outcomes: seq<(int, Result<Stored>)>, k: nat)
    requires k < |Failures(outcomes)|
    ensures exists i ::
      && 0 <= i < |outcomes| && outcomes[i].1.Err?
      && Failures(outcomes)[k] == Failure(outcomes[i].0, outcomes[i].1.error)
    decreases |outcomes|
  {
    var init := outcomes[..|outcomes| - 1];
    if k < |Failures(init)| {
      FailuresAreFailedIds(init, k);
      var i :| 0 <= i < |init| && init[i].1.Err? && Failures(init)[k] == Failure(init[i].0, init[i].1.error);
      assert outcomes[i] == init[i];
    } else {
      var i := |outcomes| - 1;
      assert outcomes[i].1.Err?;
    }
  }

  /** The report of a run. */
  function Report(ids: seq<int>, outcomes: seq<(int, Result<Stored>)>): (b: BatchReport)
    requires |outcomes| == |ids|
    ensures b.stats.total == |ids| == b.stats.successful + b.stats.failed
    ensures b.stats.successful == |b.successful| && b.stats.failed == |b.failed|
  {
    SuccessesAndFailuresPartition(outcomes);
    var ok, bad := Successes(outcomes), Failures(outcomes);
    BatchReport(ok, bad, Stats(|ids|, |ok|, |bad|))
  }

  /** The number of milliseconds in a day. */
  const DayMillis: int := 86400000

  /** `cutoffDate.setDate(cutoffDate.getDate() - daysOld)`, on a clock that
      counts milliseconds. */
  function Cutoff(now: int, daysOld: int): int {
    now - daysOld * DayMillis
  }

  /** A project without a rating, or whose rating was made strictly before
      the cutoff. */
  predicate Stale(ratings: map<int, AIRating>, id: int, cutoff: int) {
    id !in ratings || ratings[id].lastAnalyzedAt < cutoff
  }

  /** The ids of `listing` whose projects are stale, in listing order. */
  function StaleIds(listing: seq<int>, ratings: map<int, AIRating>, cutoff: int): (r: seq<int>)
    ensures |r| <= |listing|
    ensures forall id :: id in r <==> id in listing && Stale(ratings, id, cutoff)
  {
    if listing == [] then []
    else
      var rest := StaleIds(listing[..|listing| - 1], ratings, cutoff);
      var id := listing[|listing| - 1];
      assert listing == listing[..|listing| - 1] + [id];
      rest + (if Stale(ratings, id, cutoff) then [id] else [])
  }

  /** A rating made exactly at the cutoff is not stale; one a millisecond
      earlier is stale. */
  lemma CutoffIsExclusive(ratings: map<int, AIRating>, id: int, now: int, daysOld: int)
    requires id in ratings
    ensures ratings[id].lastAnalyzedAt == Cutoff(now, daysOld) ==> !Stale(ratings, id, Cutoff(now, daysOld))
    ensures ratings[id].lastAnalyzedAt == Cutoff(now, daysOld) - 1 ==> Stale(ratings, id, Cutoff(now, daysOld))
  {
  }

  /** A longer age threshold selects no more projects. */
  lemma StaleIdsAntitone(listing: seq<int>, ratings: map<int, AIRating>, now: int, d1: int, d2: int)
    requires d1 <= d2
    ensures forall id :: id in StaleIds(listing, ratings, Cutoff(now, d2)) ==> id in StaleIds(listing, ratings, Cutoff(now, d1))
  {
    forall id | id in StaleIds(listing, ratings, Cutoff(now, d2))
      ensures id in StaleIds(listing, ratings, Cutoff(now, d1))
    {
      assert Cutoff(now, d2) <= Cutoff(now, d1);
    }
  }

  class AIJudgeService {
    var projects: map<int, Project>
    var ratings: map<int, AIRating>
    /** The number of evaluations attempted so far. */
    var ticks: nat
    const judge: Evaluator

    predicate Valid()
      reads this
    {
      KeyedByProject(ratings)
    }

    constructor(projects0: map<int, Project>, ratings0: map<int, AIRating>, judge0: Evaluator)
      requires KeyedByProject(ratings0)
      ensures Valid()
      ensures projects == projects0 && ratings == ratings0 && ticks == 0 && judge == judge0
    {
      projects := projects0;
      ratings := ratings0;
      ticks := 0;
      judge := judge0;
    }

    /** `evaluateAndStoreProject`. */
    method EvaluateAndStoreProject(id: int) returns (r: Result<Stored>)
      requires Valid()
      modifies this
      ensures Valid()
      ensures projects == old(projects)
      ensures Attempt(ratings, ticks, r) == Attempted(old(projects), old(ratings), old(ticks), judge, id)
    {
      if id !in projects {
        r := Err(NotFoundMessage(id));
        return;
      }
      var project := projects[id];
      var evaluation := judge.evaluate(project, ticks);
      var at := ticks;
      ticks := ticks + 1;
      if evaluation.Err? {
        r := Err(evaluation.error);
        return;
      }
      var prev := if id in ratings then Some(ratings[id]) else None;
      var rating := RatingOf(id, prev, evaluation.value, judge.clock(at));
      ratings := ratings[id := rating];
      r := Ok(Stored(project, rating, evaluation.value));
    }

    /** `batchEvaluate`: every id in turn, a failure recorded and the loop
      carried on. */
    method BatchEvaluate(ids: seq<int>) returns (b: BatchReport)
      requires Valid()
      modifies this
      ensures Valid()
      ensures projects == old(projects)
      ensures var run := RunBatch(old(projects), old(ratings), old(ticks), judge, ids);
        && ratings == run.ratings && ticks == run.ticks
        && b == Report(ids, run.outcomes)
    {
      var results, errors, outcomes := EvaluateEach(ids);
      SuccessesAndFailuresPartition(outcomes);
      b := BatchReport(results, errors, Stats(|ids|, |results|, |errors|));
    }

    /** The loop of `batchEvaluate`: the results and the errors collected
      side by side, in input order. */
    method EvaluateEach(ids: seq<int>) returns (results: seq<Stored>, errors: seq<Failure>, ghost outcomes: seq<(int, Result<Stored>)>)
      requires Valid()
      modifies this
      ensures Valid() && projects == old(projects)
      ensures RunBatch(old(projects), old(ratings), old(ticks), judge, ids) == Run(ratings, ticks, outcomes)
      ensures results == Successes(outcomes) && errors == Failures(outcomes)
    {
      results, errors, outcomes := [], [], [];
      var i := 0;
      while i < |ids|
        invariant 0 <= i <= |ids|
        invariant Valid() && projects == old(projects)
        invariant RunBatch(old(projects), old(ratings), old(ticks), judge, ids[..i]) == Run(ratings, ticks, outcomes)
        invariant results == Successes(outcomes) && errors == Failures(outcomes)
      {
        var id := ids[i];
        ghost var ratings0, ticks0 := ratings, ticks;
        var r := EvaluateAndStoreProject(id);
        RunBatchStep(old(projects), old(ratings), old(ticks), judge, ids, i, Run(ratings0, ticks0, outcomes), Attempt(ratings, ticks, r));
        SuccessesAndFailuresStep(outcomes, (id, r));
        outcomes := outcomes + [(id, r)];
        if r.Ok? {
          results := results + [r.value];
        } else {
          errors := errors + [Failure(id, r.error)];
        }
        i := i + 1;
      }
      assert ids[..i] == ids;
    }

    /** `reevaluateStaleProjects`: `listing` is the order in which the
      project table lists its rows, each project once. */
    method ReevaluateStaleProjects(listing: seq<int>, daysOld: int, now: int) returns (b: BatchReport)
      requires Valid()
      requires forall id :: id in listing <==> id in projects
      requires forall i, j :: 0 <= i < j < |listing| ==> listing[i] != listing[j]
      modifies this
      ensures Valid()
      ensures projects == old(projects)
      ensures var run := RunBatch(old(projects), old(ratings), old(ticks), judge,
          StaleIds(listing, old(ratings), Cutoff(now, daysOld)));
        && ratings == run.ratings && ticks == run.ticks
        && b == Report(StaleIds(listing, old(ratings), Cutoff(now, daysOld)), run.outcomes)
    {
      var ids := StaleIds(listing, ratings, Cutoff(now, daysOld));
      b := BatchEvaluate(ids);
    }
  }
}
