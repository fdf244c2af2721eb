/** The project listing service: the filtered, paginated catalogue (newest
    first) and the leaderboard of rated projects. The project table is a
    sequence of rows in table order; what the database query computes is
    written out over it. */
module ProjectService {
  import opened Values
  import opened Text
  import opened Domain
  import opened Paging
  import opened Sorting

  /** A project as the listing returns it, with its creation time and its
      AI rating, if any. */
  datatype ProjectRow = ProjectRow(project: Project, createdAt: int, rating: Option<AIRating>)

  /** The query parameters, as strings where the query gives strings; a
      score bound is given when its parameter is a non-empty string, and is
      then the number that parameter reads as. */
  datatype Filters = Filters(
    projectType: Option<string>,
    category: Option<string>,
    minScore: Option<real>,
    maxScore: Option<real>,
    page: Option<string>,
    limit: Option<string>)

  /** The bounds `{ gte, lte }` put on the rating's survival score. */
  datatype ScoreRange = ScoreRange(gte: Option<real>, lte: Option<real>)

  /** The `where` object the service builds. */
  datatype Where = Where(projectType: Option<string>, category: Option<string>, score: Option<ScoreRange>)

  function BuildWhere(f: Filters): Where {
    Where(
      if Present(f.projectType) then f.projectType else None,
      if Present(f.category) then f.category else None,
      if f.minScore.Some? || f.maxScore.Some? then Some(ScoreRange(f.minScore, f.maxScore)) else None)
  }

  /** How the database applies a `where` object to a row: a filter on the
      rating relation needs a rating, and the bounds are inclusive. */
  predicate Satisfies(r: ProjectRow, w: Where) {
    && (w.projectType.Some? ==> r.project.projectType == w.projectType.value)
    && (w.category.Some? ==> r.project.category == w.category.value)
    && (w.score.Some? ==>
          && r.rating.Some?
          && (w.score.value.gte.Some? ==> r.rating.value.survivalScore >= w.score.value.gte.value)
          && (w.score.value.lte.Some? ==> r.rating.value.survivalScore <= w.score.value.lte.value))
  }

  /** What the filters mean, stated on the filters themselves: an empty
      type or category filters nothing, and any score bound keeps only
      rated projects whose score lies within the bounds given. */
  lemma FilterMeaning(r: ProjectRow, f: Filters)
    ensures Satisfies(r, BuildWhere(f)) <==>
      && (Present(f.projectType) ==> r.project.projectType == f.projectType.value)
      && (Present(f.category) ==> r.project.category == f.category.value)
      && (f.minScore.Some? ==> r.rating.Some? && r.rating.value.survivalScore >= f.minScore.value)
      && (f.maxScore.Some? ==> r.rating.Some? && r.rating.value.survivalScore <= f.maxScore.value)
  {
  }

  /** The rows that satisfy `w`, in table order. */
  function Filter(rows: seq<ProjectRow>, w: Where): (r: seq<ProjectRow>)
    ensures |r| <= |rows|
    ensures forall x :: x in r <==> x in rows && Satisfies(x, w)
    ensures forall x :: multiset(r)[x] == if Satisfies(x, w) then multiset(rows)[x] else 0
  {
    if rows == [] then []
    else
      var init := rows[..|rows| - 1];
      var last := rows[|rows| - 1];
      assert rows == init + [last];
      Filter(init, w) + (if Satisfies(last, w) then [last] else [])
  }

  /** `orderBy: { createdAt: 'desc' }` as a sort key. */
  function NewestFirst(r: ProjectRow): real {
    -(r.createdAt as real)
  }

  datatype Pagination = Pagination(
    page: int,
    limit: int,
    total: nat,
    totalPages: PageCount,
    hasNextPage: bool,
    hasPrevPage: bool)

  datatype ProjectPage = ProjectPage(data: seq<ProjectRow>, pagination: Pagination)

  /** `getAllProjects`: the page `page` (default 1) of `limit` (default 20)
      rows among those the filters keep, newest first, with the pagination
      figures. A page or limit that does not read as a number, and a
      negative skip, are refused by the database; a negative limit takes
      rows counting back from the end of the ordering. */
  function GetAllProjects(rows: seq<ProjectRow>, f: Filters): (r: Result<ProjectPage>)
    ensures r.Ok? <==>
      && ParamOr(f.page, 1).Some? && ParamOr(f.limit, 20).Some?
      && Skip(ParamOr(f.page, 1).value, ParamOr(f.limit, 20).value) >= 0
    ensures r.Ok? ==>
      var page := ParamOr(f.page, 1).value;
      var limit := ParamOr(f.limit, 20).value;
      var matching := SortBy(Filter(rows, BuildWhere(f)), NewestFirst);
      && r.value.data == Slice(matching, Skip(page, limit), limit)
      && r.value.pagination.page == page
      && r.value.pagination.limit == limit
      && r.value.pagination.total == |matching|
      && r.value.pagination.totalPages == TotalPages(|matching|, limit)
      && (r.value.pagination.hasNextPage <==> HasNextPage(page, TotalPages(|matching|, limit)))
      && (r.value.pagination.hasPrevPage <==> page > 1)
  {
    var page := ParamOr(f.page, 1);
    var limit := ParamOr(f.limit, 20);
    if page.None? || limit.None? then Err("page and limit must be numbers")
    else
      var skip := Skip(page.value, limit.value);
      if skip < 0 then Err("skip must not be negative")
      else
        var matching := SortBy(Filter(rows, BuildWhere(f)), NewestFirst);
        var total := |matching|;
        var pages := TotalPages(total, limit.value);
        Ok(ProjectPage(Slice(matching, skip, limit.value),
          Pagination(page.value, limit.value, total, pages, HasNextPage(page.value, pages), HasPrevPage(page.value))))
  }

  /** Every listed row is a row of the table that the filters keep. */
  lemma ListedRowMatches(rows: seq<ProjectRow>, f: Filters, x: ProjectRow)
    requires GetAllProjects(rows, f).Ok?
    requires x in GetAllProjects(rows, f).value.data
    ensures x in rows && Satisfies(x, BuildWhere(f))
  {
    var page := ParamOr(f.page, 1).value;
    var limit := ParamOr(f.limit, 20).value;
    var kept := Filter(rows, BuildWhere(f));
    InSlice(SortBy(kept, NewestFirst), Skip(page, limit), limit, x);
    InSortBy(kept, NewestFirst, x);
  }

  /** A listed page is ordered newest first. */
  lemma ListedNewestFirst(rows: seq<ProjectRow>, f: Filters)
    requires GetAllProjects(rows, f).Ok?
    ensures var data := GetAllProjects(rows, f).value.data;
      forall i, j :: 0 <= i < j < |data| ==> data[i].createdAt >= data[j].createdAt
  {
    var page := ParamOr(f.page, 1).value;
    var limit := ParamOr(f.limit, 20).value;
    var data := GetAllProjects(rows, f).value.data;
    SortedSlice(SortBy(Filter(rows, BuildWhere(f)), NewestFirst), NewestFirst, Skip(page, limit), limit);
    forall i, j | 0 <= i < j < |data|
      ensures data[i].createdAt >= data[j].createdAt
    {
      assert NewestFirst(data[i]) <= NewestFirst(data[j]);
    }
  }

  /** Without parameters the first 20 matching rows are listed. */
  lemma {:induction false} DefaultsListFirstTwenty(rows: seq<ProjectRow>, f: Filters)
    requires f.page.None? && f.limit.None?
    ensures GetAllProjects(rows, f).Ok?
    ensures GetAllProjects(rows, f).value.data
      == Window(SortBy(Filter(rows, BuildWhere(f)), NewestFirst), 0, 20)
    ensures !GetAllProjects(rows, f).value.pagination.hasPrevPage
  {
    assert Skip(1, 20) == 0;
  }

  // ---------------------------------------------------------------------
  // The leaderboard

  predicate Rated(r: ProjectRow) {
    r.rating.Some?
  }

  /** `where: { aiRating: { isNot: null } }`: the rated rows in table order. */
  function RatedRows(rows: seq<ProjectRow>): (r: seq<ProjectRow>)
    ensures |r| <= |rows|
    ensures forall x :: x in r <==> x in rows && Rated(x)
    ensures forall x :: multiset(r)[x] == if Rated(x) then multiset(rows)[x] else 0
  {
    if rows == [] then []
    else
      var init := rows[..|rows| - 1];
      var last := rows[|rows| - 1];
      assert rows == init + [last];
      RatedRows(init) + (if Rated(last) then [last] else [])
  }

  /** `r.aiRating?.survivalScore || 0`. */
  function ScoreOrZero(r: ProjectRow): real {
    if r.rating.Some? then r.rating.value.survivalScore else 0.0
  }

  /** The comparator `(a, b) => ScoreOrZero(b) - ScoreOrZero(a)` as an
      ascending key: the higher score comes first. */
  function HighestFirst(r: ProjectRow): real {
    -ScoreOrZero(r)
  }

  /** `getLeaderboard(limit)` as written: the first `limit` rated rows of
      the table (for a negative limit, the last `-limit`), then sorted by
      descending survival score. */
  function GetLeaderboard(rows: seq<ProjectRow>, limit: int): (r: seq<ProjectRow>)
    ensures |r| == (if limit >= 0 then (if limit < |RatedRows(rows)| then limit else |RatedRows(rows)|)
                    else (if -limit < |RatedRows(rows)| then -limit else |RatedRows(rows)|))
    ensures multiset(r) == multiset(Slice(RatedRows(rows), 0, limit))
    ensures SortedBy(r, HighestFirst)
  {
    SortBy(Slice(RatedRows(rows), 0, limit), HighestFirst)
  }

  /** Every row on the leaderboard is a rated row of the table. */
  lemma LeaderboardRowRated(rows: seq<ProjectRow>, limit: int, x: ProjectRow)
    requires x in GetLeaderboard(rows, limit)
    ensures x in rows && Rated(x)
  {
    var fetched := Slice(RatedRows(rows), 0, limit);
    InSortBy(fetched, HighestFirst, x);
    InSlice(RatedRows(rows), 0, limit, x);
  }

  /** The scores never increase down the leaderboard. */
  lemma LeaderboardDescending(rows: seq<ProjectRow>, limit: int)
    ensures var board := GetLeaderboard(rows, limit);
      forall i, j :: 0 <= i < j < |board| ==> ScoreOrZero(board[i]) >= ScoreOrZero(board[j])
  {
    var board := GetLeaderboard(rows, limit);
    forall i, j | 0 <= i < j < |board|
      ensures ScoreOrZero(board[i]) >= ScoreOrZero(board[j])
    {
      assert HighestFirst(board[i]) <= HighestFirst(board[j]);
    }
  }

  /** Projects with equal scores keep the order in which they were fetched. */
  lemma LeaderboardTiesKeepOrder(rows: seq<ProjectRow>, limit: int, k: real)
    ensures WithKey(GetLeaderboard(rows, limit), HighestFirst, k)
      == WithKey(Slice(RatedRows(rows), 0, limit), HighestFirst, k)
  {
    SortByIsStable(Slice(RatedRows(rows), 0, limit), HighestFirst, k);
  }

  /** A negative limit fetches the last `-limit` rated rows of the table
      (all of them when there are fewer), which are then sorted. */
  lemma LeaderboardNegativeLimit(rows: seq<ProjectRow>, limit: int)
    requires limit < 0
    ensures var rated := RatedRows(rows);
      var n := if -limit < |rated| then -limit else |rated|;
      multiset(GetLeaderboard(rows, limit)) == multiset(rated[|rated| - n..])
  {
    NegativeTakeIsSuffix(RatedRows(rows), limit);
  }

  /** The first `limit` rated rows are taken before sorting, so a project
      outscoring every project on the board can be left off it: here a
      board of one shows the lower of two scores. */
  lemma LeaderboardCanMissTopScore(low: ProjectRow, high: ProjectRow)
    requires low.rating.Some? && high.rating.Some?
    requires low.rating.value.survivalScore < high.rating.value.survivalScore
    ensures GetLeaderboard([low, high], 1) == [low]
    ensures high !in GetLeaderboard([low, high], 1)
  {
    var rows := [low, high];
    assert rows[..1] == [low];
    assert [low][..0] == [];
    assert RatedRows([low]) == [low];
    assert RatedRows(rows) == [low, high];
    assert Window([low, high], 0, 1) == [low];
    assert SortBy([low], HighestFirst) == [low];
  }

  /** The leaderboard the sort was evidently meant to give: all rated rows
      sorted by descending score, of which the first `limit` are kept. */
  function TopLeaderboard(rows: seq<ProjectRow>, limit: int): (r: seq<ProjectRow>)
    ensures limit >= 0 ==> |r| == (if limit < |RatedRows(rows)| then limit else |RatedRows(rows)|)
    ensures SortedBy(r, HighestFirst)
  {
    SortedSlice(SortBy(RatedRows(rows), HighestFirst), HighestFirst, 0, limit);
    Slice(SortBy(RatedRows(rows), HighestFirst), 0, limit)
  }

  /** The corrected board holds the best scores: every rated project left
      off it scores no higher than every project on it. */
  lemma {:induction false} TopLeaderboardKeepsBest(rows: seq<ProjectRow>, limit: int, x: ProjectRow, y: ProjectRow)
    requires limit >= 0
    requires x in TopLeaderboard(rows, limit)
    requires y in rows && Rated(y) && y !in TopLeaderboard(rows, limit)
    ensures Rated(x) && ScoreOrZero(y) <= ScoreOrZero(x)
  {
    var sorted := SortBy(RatedRows(rows), HighestFirst);
    var board := TopLeaderboard(rows, limit);
    var i :| 0 <= i < |board| && board[i] == x;
    assert x == sorted[i];
    var j := InSorted(RatedRows(rows), HighestFirst, y);
    assert j >= |board|;
    assert HighestFirst(sorted[i]) <= HighestFirst(sorted[j]);
    InSortBy(RatedRows(rows), HighestFirst, x);
  }
}
