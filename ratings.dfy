/** The user ratings endpoints: a visitor scores a project on the six
    survival levers (each score from 0 to 10), and the average of a
    project's user ratings is reported lever by lever. */
module Ratings {
  import opened Values
  import opened Text
  import opened Domain
  import opened Sorting

  /** The six scores of a request body; a score left out is `None`. */
  datatype SubmittedScores = SubmittedScores(
    insightCompression: Option<real>,
    substrateEfficiency: Option<real>,
    broadUtility: Option<real>,
    awareness: Option<real>,
    agentFriction: Option<real>,
    humanCoefficient: Option<real>)

  function Submitted(s: SubmittedScores, l: Lever): Option<real> {
    match l
    case InsightCompression => s.insightCompression
    case SubstrateEfficiency => s.substrateEfficiency
    case BroadUtility => s.broadUtility
    case Awareness => s.awareness
    case AgentFriction => s.agentFriction
    case HumanCoefficient => s.humanCoefficient
  }

  /** The `scores` array the route checks: the levers in declaration order. */
  function InOrder(s: SubmittedScores): (r: seq<Option<real>>)
    ensures |r| == |AllLevers|
    ensures forall k :: 0 <= k < |r| ==> r[k] == Submitted(s, AllLevers[k])
  {
    [s.insightCompression, s.substrateEfficiency, s.broadUtility,
     s.awareness, s.agentFriction, s.humanCoefficient]
  }

  /** `!(score < 0 || score > 10)`: a missing score compares false both
      ways and passes. */
  predicate Accepted(score: Option<real>) {
    !(score.Some? && (score.value < 0.0 || score.value > 10.0))
  }

  /** The validation loop: the scores are checked in order and the first
      one out of range ends the check. */
  method ScoresInRange(scores: seq<Option<real>>) returns (ok: bool)
    ensures ok <==> forall i :: 0 <= i < |scores| ==> Accepted(scores[i])
  {
    var i := 0;
    while i < |scores|
      invariant 0 <= i <= |scores|
      invariant forall k :: 0 <= k < i ==> Accepted(scores[k])
    {
      if !Accepted(scores[i]) {
        return false;
      }
      i := i + 1;
    }
    return true;
  }

  /** A body passes the check exactly when every score it gives lies in
      [0, 10], both ends included. */
  lemma {:induction false} AcceptedIffGivenWithin(s: SubmittedScores)
    ensures (forall i :: 0 <= i < |InOrder(s)| ==> Accepted(InOrder(s)[i])) <==>
      forall l :: Submitted(s, l).Some? ==> 0.0 <= Submitted(s, l).value <= 10.0
  {
    var r := InOrder(s);
    if forall i :: 0 <= i < |r| ==> Accepted(r[i]) {
      forall l | Submitted(s, l).Some?
        ensures 0.0 <= Submitted(s, l).value <= 10.0
      {
        var k := LeverIndex(l);
        LeverIndexListed(l);
        assert Accepted(r[k]);
      }
    } else {
      var i :| 0 <= i < |r| && !Accepted(r[i]);
      assert r[i] == Submitted(s, AllLevers[i]);
    }
  }

  /** The scores as stored, when all six are given. */
  function Stored(s: SubmittedScores): (r: Option<LeverScores>)
    ensures r.Some? <==> forall l :: Submitted(s, l).Some?
    ensures r.Some? ==> forall l :: ScoreOf(r.value, l) == Submitted(s, l).value
  {
    if && s.insightCompression.Some? && s.substrateEfficiency.Some? && s.broadUtility.Some?
       && s.awareness.Some? && s.agentFriction.Some? && s.humanCoefficient.Some?
    then Some(LeverScores(s.insightCompression.value, s.substrateEfficiency.value, s.broadUtility.value,
                          s.awareness.value, s.agentFriction.value, s.humanCoefficient.value))
    else
      assert !Submitted(s, InsightCompression).Some? || !Submitted(s, SubstrateEfficiency).Some?
        || !Submitted(s, BroadUtility).Some? || !Submitted(s, Awareness).Some?
        || !Submitted(s, AgentFriction).Some? || !Submitted(s, HumanCoefficient).Some?;
      None
  }

  /** A stored user rating. */
  datatype UserRating = UserRating(
    id: int,
    projectId: int,
    scores: LeverScores,
    userId: Option<string>,
    ipAddress: string,
    createdAt: int)

  datatype RatingBody = RatingBody(projectId: string, scores: SubmittedScores, userId: Option<string>)

  datatype PostReply = Created(rating: UserRating) | Refused(code: nat, error: string)

  const ScoresOutOfRange: string := "All scores must be between 0 and 10"
  const ProjectNotFound: string := "Project not found"
  const ServerError: string := "Internal server error"

  /** The user ratings table, beside the ids of the catalogued projects. */
  class UserRatings {
    var ratings: seq<UserRating>
    var projects: set<int>
    var nextId: int

    /** Every stored rating scores each lever within [0, 10], belongs to a
        catalogued project and has an id below the next one. */
    ghost predicate Valid()
      reads this
    {
      forall i :: 0 <= i < |ratings| ==>
        && AllWithin(ratings[i].scores, 0.0, 10.0)
        && ratings[i].projectId in projects
        && ratings[i].id < nextId
    }

    constructor(projects0: set<int>)
      ensures Valid()
      ensures ratings == [] && projects == projects0 && nextId == 1
    {
      ratings := [];
      projects := projects0;
      nextId := 1;
    }

    /** `POST /api/ratings`: the scores are checked before the project is
        looked up, an unknown project is 404, and a rating missing a score
        fails to insert. */
    method Post(body: RatingBody, ip: string, now: int) returns (reply: PostReply)
      requires Valid()
      modifies this
      ensures Valid()
      ensures projects == old(projects)
      ensures !AllAccepted(body.scores) ==> reply == Refused(400, ScoresOutOfRange)
      ensures AllAccepted(body.scores) && ParseInt(body.projectId).None? ==> reply == Refused(500, ServerError)
      ensures (AllAccepted(body.scores) && ParseInt(body.projectId).Some?
               && ParseInt(body.projectId).value !in projects) ==> reply == Refused(404, ProjectNotFound)
      ensures (AllAccepted(body.scores) && ParseInt(body.projectId).Some?
               && ParseInt(body.projectId).value in projects && Stored(body.scores).None?) ==> reply == Refused(500, ServerError)
      ensures reply.Created? <==>
        && AllAccepted(body.scores) && ParseInt(body.projectId).Some?
        && ParseInt(body.projectId).value in projects && Stored(body.scores).Some?
      ensures reply.Refused? ==> ratings == old(ratings) && nextId == old(nextId)
      ensures reply.Created? ==>
        && ParseInt(body.projectId).Some?
        && Stored(body.scores).Some?
        && reply.rating == UserRating(old(nextId), ParseInt(body.projectId).value, Stored(body.scores).value,
                                      body.userId, ip, now)
        && ratings == old(ratings) + [reply.rating]
        && nextId == old(nextId) + 1
    {
      var ok := ScoresInRange(InOrder(body.scores));
      if !ok {
        return Refused(400, ScoresOutOfRange);
      }
      var projectId := ParseInt(body.projectId);
      if projectId.None? {
        return Refused(500, ServerError);
      }
      if projectId.value !in projects {
        return Refused(404, ProjectNotFound);
      }
      var stored := Stored(body.scores);
      if stored.None? {
        return Refused(500, ServerError);
      }
      AcceptedIffGivenWithin(body.scores);
      AllWithinEveryLever(stored.value, 0.0, 10.0);
      var rating := UserRating(nextId, projectId.value, stored.value, body.userId, ip, now);
      ratings := ratings + [rating];
      nextId := nextId + 1;
      reply := Created(rating);
    }
  }

  predicate AllAccepted(s: SubmittedScores) {
    forall i :: 0 <= i < |InOrder(s)| ==> Accepted(InOrder(s)[i])
  }

  // ---------------------------------------------------------------------
  // Averages

  /** The ratings of one project, in table order. */
  function RatingsFor(all: seq<UserRating>, projectId: int): (r: seq<UserRating>)
    ensures |r| <= |all|
    ensures forall x :: x in r <==> x in all && x.projectId == projectId
    ensures forall x :: multiset(r)[x] == if x.projectId == projectId then multiset(all)[x] else 0
  {
    if all == [] then []
    else
      var init := all[..|all| - 1];
      var last := all[|all| - 1];
      assert all == init + [last];
      RatingsFor(init, projectId) + (if last.projectId == projectId then [last] else [])
  }

  /** `ratings.reduce((sum, r) => sum + r.lever, 0)`. */
  function SumOf(rs: seq<UserRating>, l: Lever): real {
    if rs == [] then 0.0 else SumOf(rs[..|rs| - 1], l) + ScoreOf(rs[|rs| - 1].scores, l)
  }

  function AverageOf(rs: seq<UserRating>, l: Lever): real
    requires rs != []
  {
    SumOf(rs, l) / (|rs| as real)
  }

  /** The `averages` object: one mean per lever. */
  function Averages(rs: seq<UserRating>): (a: LeverScores)
    requires rs != []
    ensures forall l :: ScoreOf(a, l) == AverageOf(rs, l)
  {
    LeverScores(AverageOf(rs, InsightCompression), AverageOf(rs, SubstrateEfficiency),
                AverageOf(rs, BroadUtility), AverageOf(rs, Awareness),
                AverageOf(rs, AgentFriction), AverageOf(rs, HumanCoefficient))
  }

  datatype AverageReply = AverageReply(count: nat, averages: Option<LeverScores>)

  /** `GET /api/ratings/:projectId/average`: no averages (null) for a
      project without ratings; a project id that does not read as a number
      is refused by the database. */
  function AverageRatings(all: seq<UserRating>, projectId: string): (r: Result<AverageReply>)
    ensures r.Ok? <==> ParseInt(projectId).Some?
    ensures r.Ok? ==>
      var rs := RatingsFor(all, ParseInt(projectId).value);
      && r.value.count == |rs|
      && (r.value.averages.None? <==> rs == [])
      && (r.value.averages.Some? ==> forall l :: ScoreOf(r.value.averages.value, l) == SumOf(rs, l) / (|rs| as real))
  {
    var id := ParseInt(projectId);
    if id.None? then Err(ServerError)
    else
      var rs := RatingsFor(all, id.value);
      if |rs| == 0 then Ok(AverageReply(0, None))
      else Ok(AverageReply(|rs|, Some(Averages(rs))))
  }

  /** The sort key of `orderBy: { createdAt: 'desc' }`: newest first. */
  function NewestRating(r: UserRating): real {
    -(r.createdAt as real)
  }

  /** `GET /api/ratings/:projectId`: the ratings of the project, newest
      first; a project id that does not read as a number is refused by the
      database. */
  function ListRatings(all: seq<UserRating>, projectId: string): (r: Result<seq<UserRating>>)
    ensures r.Ok? <==> ParseInt(projectId).Some?
    ensures r.Ok? ==> forall i, j :: 0 <= i < j < |r.value| ==> r.value[i].createdAt >= r.value[j].createdAt
    ensures r.Ok? ==> forall x :: x in r.value <==> x in all && x.projectId == ParseInt(projectId).value
    ensures r.Ok? ==> multiset(r.value) == multiset(RatingsFor(all, ParseInt(projectId).value))
  {
    var id := ParseInt(projectId);
    if id.None? then Err(ServerError)
    else
      var rs := RatingsFor(all, id.value);
      var sorted := SortBy(rs, NewestRating);
      assert forall x :: x in sorted <==> x in rs by {
        forall x
          ensures x in sorted <==> x in rs
        {
          assert x in sorted <==> x in multiset(sorted);
          assert x in rs <==> x in multiset(rs);
        }
      }
      Ok(sorted)
  }

  /** Scores within [lo, hi] sum to within [n * lo, n * hi]. */
  lemma {:induction false} SumWithin(rs: seq<UserRating>, l: Lever, lo: real, hi: real)
    requires forall i :: 0 <= i < |rs| ==> lo <= ScoreOf(rs[i].scores, l) <= hi
    ensures (|rs| as real) * lo <= SumOf(rs, l) <= (|rs| as real) * hi
  {
    if rs != [] {
      var init := rs[..|rs| - 1];
      forall i | 0 <= i < |init|
        ensures lo <= ScoreOf(init[i].scores, l) <= hi
      {
        assert init[i] == rs[i];
      }
      SumWithin(init, l, lo, hi);
      var x := ScoreOf(rs[|rs| - 1].scores, l);
      assert lo <= x <= hi;
      assert SumOf(rs, l) == SumOf(init, l) + x;
      AddWithin(|init|, SumOf(init, l), x, lo, hi);
    }
  }

  lemma AddWithin(k: nat, s: real, x: real, lo: real, hi: real)
    requires (k as real) * lo <= s <= (k as real) * hi && lo <= x <= hi
    ensures ((k + 1) as real) * lo <= s + x <= ((k + 1) as real) * hi
  {
    var n := k as real;
    assert (k + 1) as real == n + 1.0;
    assert (n + 1.0) * lo == n * lo + lo;
    assert (n + 1.0) * hi == n * hi + hi;
  }

  /** The mean of scores within [lo, hi] lies within [lo, hi]. */
  lemma AverageWithin(rs: seq<UserRating>, l: Lever, lo: real, hi: real)
    requires rs != []
    requires forall i :: 0 <= i < |rs| ==> lo <= ScoreOf(rs[i].scores, l) <= hi
    ensures lo <= AverageOf(rs, l) <= hi
  {
    SumWithin(rs, l, lo, hi);
    var n := |rs| as real;
    assert lo == (n * lo) / n;
    assert hi == (n * hi) / n;
  }

  /** Ratings that all give a lever the same score average to that score. */
  lemma AverageOfEqualScores(rs: seq<UserRating>, l: Lever, v: real)
    requires rs != []
    requires forall i :: 0 <= i < |rs| ==> ScoreOf(rs[i].scores, l) == v
    ensures AverageOf(rs, l) == v
  {
    AverageWithin(rs, l, v, v);
  }

  /** The averages reported from a valid table lie within [0, 10]. */
  lemma {:induction false} ReportedAveragesWithin(store: UserRatings, projectId: string)
    requires store.Valid()
    requires AverageRatings(store.ratings, projectId).Ok?
    requires AverageRatings(store.ratings, projectId).value.averages.Some?
    ensures AllWithin(AverageRatings(store.ratings, projectId).value.averages.value, 0.0, 10.0)
  {
    var rs := RatingsFor(store.ratings, ParseInt(projectId).value);
    var a := AverageRatings(store.ratings, projectId).value.averages.value;
    forall l
      ensures 0.0 <= ScoreOf(a, l) <= 10.0
    {
      forall i | 0 <= i < |rs|
        ensures 0.0 <= ScoreOf(rs[i].scores, l) <= 10.0
      {
        assert rs[i] in store.ratings;
        var k :| 0 <= k < |store.ratings| && store.ratings[k] == rs[i];
        AllWithinEveryLever(store.ratings[k].scores, 0.0, 10.0);
      }
      AverageWithin(rs, l, 0.0, 10.0);
    }
    AllWithinEveryLever(a, 0.0, 10.0);
  }
}
