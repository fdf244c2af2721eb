/** The variable part of the scoring prompt, as a sequence of lines joined by
    line breaks: the project information with its fallbacks for missing
    fields, and the repository-metrics block, present exactly when metrics
    were gathered. The fixed lines that follow (the six lever definitions and
    the reply format) are the parameter `guide`. */
module Prompt {
  import opened Values
  import opened Text
  import opened Domain

  /** `n.toLocaleString()` is a parameter: its digit grouping is locale data. */
  type Formatter = int -> string

  const MetricsHeading: string := "## GITHUB METRICS"

  /** `${x || 'Unknown'}` for an optional year: absent or 0 gives the fallback. */
  function YearText(y: Option<int>): (r: string)
    ensures PresentInt(y) ==> r == IntToString(y.value)
    ensures !PresentInt(y) ==> r == "Unknown"
  {
    if y.Some? && y.value != 0 then IntToString(y.value) else "Unknown"
  }

  /** `topics?.join(', ') || 'None'`. */
  function TopicsText(topics: seq<string>): (r: string)
    ensures r != ""
    ensures Join(topics, ", ") != "" ==> r == Join(topics, ", ")
    ensures topics == [] ==> r == "None"
  {
    var joined := Join(topics, ", ");
    if joined == "" then "None" else joined
  }

  const Introduction := "You are an AI Judge for SurvivalIndex.org, a platform that rates software's likelihood of survival in the AI era."
  const TaskOpening := "Your task is to evaluate the software project \""
  const TaskClosing := "\" across 6 critical survival levers and provide scores from 0-10 for each."

  function HeaderLines(p: Project): seq<string> {
    [ Introduction,
      "",
      TaskOpening + p.name + TaskClosing,
      "",
      "## PROJECT INFORMATION",
      "" ]
  }

  function InfoLines(p: Project): seq<string> {
    [ "**Name:** " + p.name,
      "**Type:** " + p.projectType,
      "**Category:** " + p.category,
      "**Description:** " + p.description,
      "**Website:** " + OrElse(p.url, "N/A"),
      "**GitHub:** " + OrElse(p.githubUrl, "N/A"),
      "**Tags:** " + OrElse(p.tags, "N/A"),
      "**Year Created:** " + YearText(p.yearCreated) ]
  }

  function MetricsLines(m: Metrics, format: Formatter): seq<string> {
    [ MetricsHeading,
      "",
      "- **Stars:** " + format(m.stars),
      "- **Forks:** " + format(m.forks),
      "- **Open Issues:** " + IntToString(m.openIssues),
      "- **Language:** " + OrElse(m.language, "N/A"),
      "- **License:** " + OrElse(m.license, "None"),
      "- **Recent Activity:** " + NatToString(m.recentCommitsCount) + " commits in last 90 days",
      "- **Active Development:** " + (if m.isActive then "Yes" else "No"),
      "- **Topics:** " + TopicsText(m.topics) ]
  }

  /** The lines between the information block and the guide: the metrics
      block framed by blank lines, or a single blank line. */
  function MetricsBlock(gh: Option<Metrics>, format: Formatter): (r: seq<string>)
    ensures gh.None? <==> r == [""]
  {
    match gh
    case None => [""]
    case Some(m) => MetricsLines(m, format) + ["", ""]
  }

  function PromptLines(p: Project, gh: Option<Metrics>, format: Formatter, guide: seq<string>): seq<string> {
    HeaderLines(p) + InfoLines(p) + ["", ""] + MetricsBlock(gh, format) + guide
  }

  /** `buildScoringPrompt`: the prompt lines joined by line breaks. */
  function BuildScoringPrompt(p: Project, gh: Option<Metrics>, format: Formatter, guide: seq<string>): string {
    Join(PromptLines(p, gh, format, guide), "\n")
  }

  /** The prompt ends with the fixed guide. */
  lemma PromptEndsWithGuide(p: Project, gh: Option<Metrics>, format: Formatter, guide: seq<string>)
    requires guide != []
    ensures EndsWith(BuildScoringPrompt(p, gh, format, guide), Join(guide, "\n"))
  {
    var lines := PromptLines(p, gh, format, guide);
    var k := |lines| - |guide|;
    JoinSplit(lines, k, "\n");
    assert lines[k..] == guide;
  }

  /** Splitting a join: the join of a sequence is the join of its first `k`
      parts, the separator, and the join of the rest. */
  lemma {:induction false} JoinSplit(parts: seq<string>, k: nat, sep: string)
    requires 0 < k < |parts|
    ensures Join(parts, sep) == Join(parts[..k], sep) + sep + Join(parts[k..], sep)
  {
    if k > 1 {
      JoinSplit(parts[1..], k - 1, sep);
      assert parts[1..][..k - 1] == parts[..k][1..];
      assert parts[1..][k - 1..] == parts[k..];
    }
  }

  /** The metrics heading is in the prompt exactly when metrics were gathered
      (as long as the guide does not itself contain that line). */
  lemma MetricsBlockIffMetrics(p: Project, gh: Option<Metrics>, format: Formatter, guide: seq<string>)
    requires MetricsHeading !in guide
    ensures MetricsHeading in PromptLines(p, gh, format, guide) <==> gh.Some?
  {
    var lines := PromptLines(p, gh, format, guide);
    var fixed := HeaderLines(p) + InfoLines(p) + ["", ""];
    HeadingNotInFixedLines(p);
    assert lines == fixed + MetricsBlock(gh, format) + guide;
    if gh.Some? {
      assert lines[|fixed|] == MetricsHeading;
    }
  }

  lemma HeadingNotInFixedLines(p: Project)
    ensures MetricsHeading !in HeaderLines(p) + InfoLines(p) + ["", ""]
  {
    var header, info := HeaderLines(p), InfoLines(p);
    assert |TaskOpening + p.name + TaskClosing| > |MetricsHeading|;
    assert header[4][3] != MetricsHeading[3];
    forall i | 0 <= i < |info|
      ensures info[i][0] == '*'
    {
    }
  }

  /** A missing or empty website, repository URL or tag list reads "N/A", a
      missing or zero year reads "Unknown"; a present value is shown as is. */
  lemma InfoFallbacks(p: Project)
    ensures !Present(p.url) ==> "**Website:** N/A" in InfoLines(p)
    ensures Present(p.url) ==> "**Website:** " + p.url.value in InfoLines(p)
    ensures !Present(p.githubUrl) ==> "**GitHub:** N/A" in InfoLines(p)
    ensures Present(p.githubUrl) ==> "**GitHub:** " + p.githubUrl.value in InfoLines(p)
    ensures !Present(p.tags) ==> "**Tags:** N/A" in InfoLines(p)
    ensures Present(p.tags) ==> "**Tags:** " + p.tags.value in InfoLines(p)
    ensures !PresentInt(p.yearCreated) ==> "**Year Created:** Unknown" in InfoLines(p)
    ensures PresentInt(p.yearCreated) ==> "**Year Created:** " + IntToString(p.yearCreated.value) in InfoLines(p)
  {
    assert InfoLines(p)[4] == "**Website:** " + OrElse(p.url, "N/A");
    assert InfoLines(p)[5] == "**GitHub:** " + OrElse(p.githubUrl, "N/A");
    assert InfoLines(p)[6] == "**Tags:** " + OrElse(p.tags, "N/A");
    assert InfoLines(p)[7] == "**Year Created:** " + YearText(p.yearCreated);
    assert "**Website:** " + "N/A" == "**Website:** N/A";
    assert "**GitHub:** " + "N/A" == "**GitHub:** N/A";
    assert "**Tags:** " + "N/A" == "**Tags:** N/A";
    assert "**Year Created:** " + "Unknown" == "**Year Created:** Unknown";
  }

  /** The prompt sees a project only through the rendered fields: an empty
      string is as good as a missing one, and a year of 0 as a missing year. */
  lemma PromptSeesRenderedFields(p: Project, q: Project, gh: Option<Metrics>, format: Formatter, guide: seq<string>)
    requires p.name == q.name && p.projectType == q.projectType
    requires p.category == q.category && p.description == q.description
    requires Present(p.url) == Present(q.url) && (Present(p.url) ==> p.url == q.url)
    requires Present(p.githubUrl) == Present(q.githubUrl) && (Present(p.githubUrl) ==> p.githubUrl == q.githubUrl)
    requires Present(p.tags) == Present(q.tags) && (Present(p.tags) ==> p.tags == q.tags)
    requires PresentInt(p.yearCreated) == PresentInt(q.yearCreated)
    requires PresentInt(p.yearCreated) ==> p.yearCreated == q.yearCreated
    ensures PromptLines(p, gh, format, guide) == PromptLines(q, gh, format, guide)
  {
    assert InfoLines(p) == InfoLines(q);
    assert HeaderLines(p) == HeaderLines(q);
  }
}
