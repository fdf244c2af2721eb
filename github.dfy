/** Repository metrics from the code host: the owner and repository name are
    read from the project's GitHub URL with `/github\.com\/([^\/]+)\/([^\/]+)/`,
    a trailing ".git" is dropped from the repository name, and the two host
    queries (repository record and commits of the last 90 days) are parameters
    that may fail. Every failure yields no metrics. */
module GitHub {
  import opened Values
  import opened Text
  import opened Domain

  const Host: string := "github.com/"
  const GitSuffix: string := ".git"

  /** Commits in the 90-day window above which a repository counts as active. */
  const ActiveThreshold: nat := 10

  predicate SlashFree(s: string) {
    forall i :: 0 <= i < |s| ==> s[i] != '/'
  }

  /** Length of the longest run of non-slash characters starting at `from`
      (what the greedy `[^\/]+` consumes). */
  function SlashFreeRun(s: string, from: nat): (n: nat)
    requires from <= |s|
    ensures from + n <= |s|
    ensures forall i :: from <= i < from + n ==> s[i] != '/'
    ensures from + n == |s| || s[from + n] == '/'
    decreases |s| - from
  {
    if from == |s| || s[from] == '/' then 0 else 1 + SlashFreeRun(s, from + 1)
  }

  /** A slash-free run that ends at the end of `s` or at a slash is the
      longest one. */
  lemma {:induction false} SlashFreeRunIs(s: string, from: nat, n: nat)
    requires from + n <= |s|
    requires forall i :: from <= i < from + n ==> s[i] != '/'
    requires from + n == |s| || s[from + n] == '/'
    ensures SlashFreeRun(s, from) == n
    decreases n
  {
    if n > 0 {
      SlashFreeRunIs(s, from + 1, n - 1);
    }
  }

  /** The run that starts at a slash-free segment followed by the end or by a
      slash is that segment. */
  lemma SegmentRun(head: string, seg: string, tail: string)
    requires SlashFree(seg)
    requires tail == [] || tail[0] == '/'
    ensures SlashFreeRun(head + seg + tail, |head|) == |seg|
  {
    var s := head + seg + tail;
    forall k | |head| <= k < |head| + |seg|
      ensures s[k] != '/'
    {
      assert s[k] == seg[k - |head|];
    }
    assert |head| + |seg| < |s| ==> s[|head| + |seg|] == tail[0];
    SlashFreeRunIs(s, |head|, |seg|);
  }

  /** "github.com/" behind a prefix without the letter 'g' is the first one. */
  lemma HostFirstAt(prefix: string, tail: string)
    requires NoChar(prefix, 'g')
    ensures IndexOfFrom(prefix + Host + tail, Host, 0) == Some(|prefix|)
  {
    var url := prefix + Host + tail;
    assert url[|prefix|..|prefix| + |Host|] == Host;
    forall j: nat | j < |prefix|
      ensures !OccursAt(url, Host, j)
    {
      assert url[j] == prefix[j];
      MismatchAt(url, Host, j, 0);
    }
    IndexOfFromIs(url, Host, 0, |prefix|);
  }

  /** A regular-expression match: where "github.com/" starts, and the two
      captured groups. */
  datatype UrlMatch = UrlMatch(at: nat, owner: string, repo: string)

  /** The text at `m.at` reads "github.com/", the owner, a slash and the
      repository name. */
  predicate Spells(url: string, m: UrlMatch) {
    var o := m.at + |Host|;
    var p := o + |m.owner| + 1;
    && OccursAt(url, Host, m.at)
    && p + |m.repo| <= |url|
    && url[o..o + |m.owner|] == m.owner
    && url[o + |m.owner|] == '/'
    && url[p..p + |m.repo|] == m.repo
  }

  /** The match attempted at an occurrence `i` of "github.com/": a non-empty
      owner run, a slash, a non-empty repository run. */
  function MatchAt(url: string, i: nat): (r: Option<UrlMatch>)
    requires OccursAt(url, Host, i)
    ensures r.Some? ==>
      && r.value.at == i
      && r.value.owner != [] && SlashFree(r.value.owner)
      && r.value.repo != [] && SlashFree(r.value.repo)
      && Spells(url, r.value)
  {
    var o := i + |Host|;
    var n := SlashFreeRun(url, o);
    if n == 0 || o + n == |url| then None
    else
      var p := o + n + 1;
      var m := SlashFreeRun(url, p);
      if m == 0 then None
      else
        Some(UrlMatch(i, url[o..o + n], url[p..p + m]))
  }

  /** The leftmost match at or after `from`. */
  function MatchFrom(url: string, from: nat): (r: Option<UrlMatch>)
    ensures r.Some? ==> from <= r.value.at && OccursAt(url, Host, r.value.at) && MatchAt(url, r.value.at) == r
    ensures r.Some? ==> forall j: nat :: from <= j < r.value.at && OccursAt(url, Host, j) ==> MatchAt(url, j).None?
    ensures r.None? ==> forall j: nat :: from <= j && OccursAt(url, Host, j) ==> MatchAt(url, j).None?
    decreases |url| - from
  {
    match IndexOfFrom(url, Host, from)
    case None => None
    case Some(i) =>
      if MatchAt(url, i).Some? then MatchAt(url, i)
      else MatchFrom(url, i + 1)
  }

  /** `githubUrl.match(/github\.com\/([^\/]+)\/([^\/]+)/)`. */
  function ParseGitHubUrl(url: string): (r: Option<UrlMatch>)
    ensures r.Some? ==> r.value.owner != [] && r.value.repo != []
    ensures r.Some? ==> SlashFree(r.value.owner) && SlashFree(r.value.repo)
    ensures r.Some? ==> Spells(url, r.value)
    ensures r.None? ==> forall j: nat :: OccursAt(url, Host, j) ==> MatchAt(url, j).None?
  {
    MatchFrom(url, 0)
  }

  predicate NoChar(s: string, c: char) {
    forall i :: 0 <= i < |s| ==> s[i] != c
  }

  /** At the host of a URL built from an owner and a repository name, the
      match captures that owner and name. */
  lemma MatchAtBuilt(prefix: string, owner: string, repo: string, rest: string)
    requires owner != [] && SlashFree(owner) && repo != [] && SlashFree(repo)
    requires rest == [] || rest[0] == '/'
    ensures var url := prefix + Host + owner + "/" + repo + rest;
      && OccursAt(url, Host, |prefix|)
      && MatchAt(url, |prefix|).Some?
      && MatchAt(url, |prefix|).value.owner == owner
      && MatchAt(url, |prefix|).value.repo == repo
  {
    BuiltHost(prefix, owner, repo, rest);
    BuiltOwner(prefix, owner, repo, rest);
    BuiltRepo(prefix, owner, repo, rest);
    MatchAtRuns(prefix + Host + owner + "/" + repo + rest, |prefix|, owner, repo);
  }

  /** The match at `i` captures the two runs that follow the host. */
  lemma MatchAtRuns(url: string, i: nat, owner: string, repo: string)
    requires OccursAt(url, Host, i)
    requires owner != [] && repo != []
    requires var o := i + |Host|;
      && o + |owner| < |url| && url[o..o + |owner|] == owner && SlashFreeRun(url, o) == |owner|
    requires var p := i + |Host| + |owner| + 1;
      && p + |repo| <= |url| && url[p..p + |repo|] == repo && SlashFreeRun(url, p) == |repo|
    ensures MatchAt(url, i).Some? && MatchAt(url, i).value.owner == owner && MatchAt(url, i).value.repo == repo
  {
    MatchAtLengths(url, i, |owner|, |repo|);
  }

  /** The match at `i` when the owner run has length `n` and the repository
      run length `m`. */
  lemma MatchAtLengths(url: string, i: nat, n: nat, m: nat)
    requires OccursAt(url, Host, i)
    requires SlashFreeRun(url, i + |Host|) == n && n > 0 && i + |Host| + n < |url|
    requires SlashFreeRun(url, i + |Host| + n + 1) == m && m > 0
    ensures var o, p := i + |Host|, i + |Host| + n + 1;
      MatchAt(url, i) == Some(UrlMatch(i, url[o..o + n], url[p..p + m]))
  {
  }

  lemma BuiltHost(prefix: string, owner: string, repo: string, rest: string)
    ensures OccursAt(prefix + Host + owner + "/" + repo + rest, Host, |prefix|)
  {
    var url := prefix + Host + owner + "/" + repo + rest;
    assert url == (prefix + Host) + (owner + "/" + repo + rest);
    assert url[|prefix|..|prefix| + |Host|] == Host;
  }

  lemma BuiltOwner(prefix: string, owner: string, repo: string, rest: string)
    requires SlashFree(owner)
    ensures var url, o := prefix + Host + owner + "/" + repo + rest, |prefix| + |Host|;
      && o + |owner| < |url|
      && url[o..o + |owner|] == owner
      && SlashFreeRun(url, o) == |owner|
  {
    var url := prefix + Host + owner + "/" + repo + rest;
    assert url == (prefix + Host) + owner + ("/" + repo + rest);
    SegmentRun(prefix + Host, owner, "/" + repo + rest);
  }

  lemma BuiltRepo(prefix: string, owner: string, repo: string, rest: string)
    requires SlashFree(repo)
    requires rest == [] || rest[0] == '/'
    ensures var url, p := prefix + Host + owner + "/" + repo + rest, |prefix| + |Host| + |owner| + 1;
      && p + |repo| <= |url|
      && url[p..p + |repo|] == repo
      && SlashFreeRun(url, p) == |repo|
  {
    SegmentRun(prefix + Host + owner + "/", repo, rest);
  }

  /** Round trip: a URL built from an owner and a repository name (behind a
      scheme or prefix without the letter 'g', and followed by nothing or by a
      further path) gives that owner and name back. */
  lemma ParseGitHubUrlRoundTrip(prefix: string, owner: string, repo: string, rest: string)
    requires NoChar(prefix, 'g')
    requires owner != [] && SlashFree(owner) && repo != [] && SlashFree(repo)
    requires rest == [] || rest[0] == '/'
    ensures ParseGitHubUrl(prefix + Host + owner + "/" + repo + rest) == Some(UrlMatch(|prefix|, owner, repo))
  {
    var url := prefix + Host + owner + "/" + repo + rest;
    assert url == prefix + Host + (owner + "/" + repo + rest);
    HostFirstAt(prefix, owner + "/" + repo + rest);
    MatchAtBuilt(prefix, owner, repo, rest);
    var r := MatchAt(url, |prefix|);
    assert r.value.at == |prefix|;
    assert r == Some(UrlMatch(|prefix|, owner, repo));
  }

  /** `repo.replace(/\.git$/, '')`. */
  function StripGitSuffix(repo: string): (r: string)
    ensures EndsWith(repo, GitSuffix) ==> r + GitSuffix == repo
    ensures !EndsWith(repo, GitSuffix) ==> r == repo
  {
    if EndsWith(repo, GitSuffix) then repo[..|repo| - |GitSuffix|] else repo
  }

  /** Exactly one ".git" is removed: stripping undoes appending the suffix. */
  lemma StripGitSuffixOfAppended(name: string)
    ensures StripGitSuffix(name + GitSuffix) == name
  {
    assert (name + GitSuffix)[|name|..] == GitSuffix;
    assert (name + GitSuffix)[..|name|] == name;
  }

  /** The repository record as the host returns it (the fields the metrics
      are built from). */
  datatype RepoRecord = RepoRecord(
    stargazersCount: int,
    forksCount: int,
    openIssuesCount: int,
    watchersCount: int,
    language: Option<string>,
    size: int,
    topics: Option<seq<string>>,
    hasWiki: bool,
    hasPages: bool,
    createdAt: string,
    updatedAt: string,
    pushedAt: string,
    licenseName: Option<string>,
    description: Option<string>)

  /** `analyzeGitHub`. `hasClient` says whether a host token is configured;
      `getRepo` and `listCommits` (the commits of the last 90 days, one page
      of at most 100) are the host queries, called with the owner and the
      repository name without ".git". */
  function AnalyzeGitHub(
    hasClient: bool,
    url: string,
    getRepo: (string, string) -> Result<RepoRecord>,
    listCommits: (string, string) -> Result<nat>): (r: Option<Metrics>)
    ensures !hasClient ==> r.None?
    ensures ParseGitHubUrl(url).None? ==> r.None?
    ensures r.Some? <==>
      && hasClient
      && ParseGitHubUrl(url).Some?
      && var m := ParseGitHubUrl(url).value;
      && getRepo(m.owner, StripGitSuffix(m.repo)).Ok?
      && listCommits(m.owner, StripGitSuffix(m.repo)).Ok?
    ensures r.Some? ==>
      var m := ParseGitHubUrl(url).value;
      var rec := getRepo(m.owner, StripGitSuffix(m.repo)).value;
      && r.value.recentCommitsCount == listCommits(m.owner, StripGitSuffix(m.repo)).value
      && (r.value.isActive <==> r.value.recentCommitsCount > ActiveThreshold)
      && r.value.stars == rec.stargazersCount
      && r.value.forks == rec.forksCount
      && r.value.openIssues == rec.openIssuesCount
      && r.value.watchers == rec.watchersCount
      && r.value.language == rec.language
      && r.value.size == rec.size
      && r.value.license == rec.licenseName
      && r.value.description == rec.description
      && (rec.topics.Some? ==> r.value.topics == rec.topics.value)
      && (rec.topics.None? ==> r.value.topics == [])
      && r.value.hasWiki == rec.hasWiki && r.value.hasPages == rec.hasPages
      && r.value.createdAt == rec.createdAt && r.value.updatedAt == rec.updatedAt
      && r.value.pushedAt == rec.pushedAt
  {
    if !hasClient then None
    else
      match ParseGitHubUrl(url)
      case None => None
      case Some(m) =>
        var repo := StripGitSuffix(m.repo);
        match getRepo(m.owner, repo)
        case Err(_) => None
        case Ok(rec) =>
          match listCommits(m.owner, repo)
          case Err(_) => None
          case Ok(count) =>
            Some(Metrics(
              rec.stargazersCount, rec.forksCount, rec.openIssuesCount, rec.watchersCount,
              rec.language, rec.size, rec.licenseName,
              if rec.topics.Some? then rec.topics.value else [],
              rec.hasWiki, rec.hasPages, rec.createdAt, rec.updatedAt, rec.pushedAt, rec.description,
              count, count > ActiveThreshold))
  }

  /** Exactly ten recent commits is not active; eleven is. */
  lemma ActivityThreshold(
    url: string,
    getRepo: (string, string) -> Result<RepoRecord>,
    listCommits: (string, string) -> Result<nat>)
    requires AnalyzeGitHub(true, url, getRepo, listCommits).Some?
    ensures var m := AnalyzeGitHub(true, url, getRepo, listCommits).value;
      (m.recentCommitsCount == 10 ==> !m.isActive) && (m.recentCommitsCount == 11 ==> m.isActive)
  {
  }
}
