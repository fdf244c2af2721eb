/** Interpretation of the language model's reply text: the JSON payload is
    taken from a "```json" fenced block, else from a plain "```" fenced block,
    else the whole reply is used; it is trimmed, handed to the JSON parser,
    and accepted only when `scores`, `confidence` and `reasoning` are truthy. */
module ResponseParser {
  import opened Values
  import opened Text
  import opened Domain

  const JsonOpener: string := "```json\n"
  const PlainOpener: string := "```\n"
  const Closer: string := "\n```"
  const ParseFailure: string := "Failed to parse AI response"

  /** Where a fenced body starts and where its closing fence starts. */
  datatype Span = Span(start: nat, end: nat)

  /** The match of the regular expression `opener([\s\S]*?)\n```` on `text`:
      the leftmost opener, and the body up to the first closing fence after
      it. There is no match exactly when no opener is followed by a closer. */
  function FenceMatch(text: string, opener: string): (r: Option<Span>)
    ensures r.Some? ==>
      && |opener| <= r.value.start <= r.value.end
      && OccursAt(text, opener, r.value.start - |opener|)
      && (forall j: nat :: j < r.value.start - |opener| ==> !OccursAt(text, opener, j))
      && OccursAt(text, Closer, r.value.end)
      && (forall j: nat :: r.value.start <= j < r.value.end ==> !OccursAt(text, Closer, j))
    ensures r.None? ==>
      forall i: nat, k: nat :: OccursAt(text, opener, i) && i + |opener| <= k ==> !OccursAt(text, Closer, k)
  {
    match IndexOfFrom(text, opener, 0)
    case None => None
    case Some(i) =>
      match IndexOfFrom(text, Closer, i + |opener|)
      case None => None
      case Some(k) => Some(Span(i + |opener|, k))
  }

  /** The captured body of the fenced block, if the block is there. */
  function FencedBody(text: string, opener: string): (r: Option<string>)
    ensures r.Some? <==> FenceMatch(text, opener).Some?
    ensures r.Some? ==> OccursAt(text, r.value, FenceMatch(text, opener).value.start)
    ensures r.Some? ==>
      r.value == text[FenceMatch(text, opener).value.start..FenceMatch(text, opener).value.end]
  {
    match FenceMatch(text, opener)
    case None => None
    case Some(sp) => Some(text[sp.start..sp.end])
  }

  /** The text handed to the JSON parser, before trimming. */
  function ExtractJson(text: string): string {
    match FencedBody(text, JsonOpener)
    case Some(body) => body
    case None =>
      match FencedBody(text, PlainOpener)
      case Some(body) => body
      case None => text
  }

  predicate NoBackticks(s: string) {
    forall i :: 0 <= i < |s| ==> s[i] != '`'
  }

  /** An opener preceded by backtick-free text is the first one. */
  lemma FirstOpener(pre: string, opener: string, tail: string)
    requires opener != [] && opener[0] == '`'
    requires NoBackticks(pre)
    ensures IndexOfFrom(pre + opener + tail, opener, 0) == Some(|pre|)
  {
    var text := pre + opener + tail;
    assert text[|pre|..|pre| + |opener|] == opener;
    forall j: nat | j < |pre|
      ensures !OccursAt(text, opener, j)
    {
      assert text[j] == pre[j];
      MismatchAt(text, opener, j, 0);
    }
    IndexOfFromIs(text, opener, 0, |pre|);
  }

  lemma FirstOpenerIn(pre: string, opener: string, body: string, rest: string)
    requires opener != [] && opener[0] == '`'
    requires NoBackticks(pre)
    ensures IndexOfFrom(pre + opener + body + Closer + rest, opener, 0) == Some(|pre|)
  {
    assert pre + opener + body + Closer + rest == pre + opener + (body + Closer + rest);
    FirstOpener(pre, opener, body + Closer + rest);
  }

  /** The closing fence after a backtick-free body is the first one. */
  lemma FirstCloser(head: string, body: string, rest: string)
    requires NoBackticks(body)
    ensures IndexOfFrom(head + body + Closer + rest, Closer, |head|) == Some(|head| + |body|)
  {
    var text := head + body + Closer + rest;
    var s, e := |head|, |head| + |body|;
    assert text[e..e + |Closer|] == Closer;
    forall j: nat | s <= j < e
      ensures !OccursAt(text, Closer, j)
    {
      if j + 1 < e {
        assert text[j + 1] == body[j + 1 - s];
      } else {
        assert text[j + 1] == Closer[0];
      }
      MismatchAt(text, Closer, j, 1);
    }
    IndexOfFromIs(text, Closer, s, e);
  }

  /** A fenced block whose prefix and body hold no backtick is found, and its
      body is captured exactly, whatever follows the closing fence. */
  lemma FenceFound(pre: string, opener: string, body: string, rest: string)
    requires opener != [] && opener[0] == '`'
    requires NoBackticks(pre) && NoBackticks(body)
    ensures FenceMatch(pre + opener + body + Closer + rest, opener)
      == Some(Span(|pre| + |opener|, |pre| + |opener| + |body|))
  {
    var text := pre + opener + body + Closer + rest;
    FirstOpenerIn(pre, opener, body, rest);
    FirstCloser(pre + opener, body, rest);
  }

  /** Round trip: the body of a "```json" block is what is extracted. */
  lemma JsonFenceRoundTrip(pre: string, body: string, rest: string)
    requires NoBackticks(pre) && NoBackticks(body)
    ensures ExtractJson(pre + JsonOpener + body + Closer + rest) == body
  {
    var text := pre + JsonOpener + body + Closer + rest;
    FenceFound(pre, JsonOpener, body, rest);
    assert text[|pre| + |JsonOpener|..|pre| + |JsonOpener| + |body|] == body;
  }

  /** No "```json" opener occurs in a plain fenced block surrounded by
      backtick-free text, as long as the text after the closing fence does not
      start with "j". */
  lemma NoJsonOpenerAt(pre: string, body: string, rest: string, i: nat)
    requires NoBackticks(pre) && NoBackticks(body) && NoBackticks(rest)
    requires rest == [] || rest[0] != 'j'
    ensures !OccursAt(pre + PlainOpener + body + Closer + rest, JsonOpener, i)
  {
    var text := pre + PlainOpener + body + Closer + rest;
    var p, c := |pre|, |pre| + |PlainOpener| + |body|;
    if i < p {
      assert text[i] == pre[i];
      MismatchAt(text, JsonOpener, i, 0);
    } else if i <= p + 2 {
      assert text[p + 3] == '\n';
      MismatchAt(text, JsonOpener, i, p + 3 - i);
    } else if i < c {
      assert i == p + 3 || text[i] == body[i - p - 4];
      MismatchAt(text, JsonOpener, i, 0);
    } else if i == c {
      MismatchAt(text, JsonOpener, i, 0);
    } else if i <= c + 3 {
      assert c + 4 < |text| ==> text[c + 4] == rest[0];
      MismatchAt(text, JsonOpener, i, c + 4 - i);
    } else {
      assert i < |text| ==> text[i] == rest[i - c - 4];
      MismatchAt(text, JsonOpener, i, 0);
    }
  }

  /** A plain fenced block is used when the reply holds no "```json" block:
      here the surrounding text holds no backtick and what follows the
      closing fence does not start with "j". */
  lemma PlainFenceRoundTrip(pre: string, body: string, rest: string)
    requires NoBackticks(pre) && NoBackticks(body) && NoBackticks(rest)
    requires rest == [] || rest[0] != 'j'
    ensures ExtractJson(pre + PlainOpener + body + Closer + rest) == body
  {
    var text := pre + PlainOpener + body + Closer + rest;
    forall i: nat
      ensures !OccursAt(text, JsonOpener, i)
    {
      NoJsonOpenerAt(pre, body, rest, i);
    }
    assert FenceMatch(text, JsonOpener).None?;
    FenceFound(pre, PlainOpener, body, rest);
    var s := |pre| + |PlainOpener|;
    assert text[s..s + |body|] == body;
  }

  /** A reply without any backtick is parsed whole. */
  lemma UnfencedIsWhole(text: string)
    requires NoBackticks(text)
    ensures ExtractJson(text) == text
  {
    forall i: nat
      ensures !OccursAt(text, JsonOpener, i) && !OccursAt(text, PlainOpener, i)
    {
      MismatchAt(text, JsonOpener, i, 0);
      MismatchAt(text, PlainOpener, i, 0);
    }
    assert FenceMatch(text, JsonOpener).None?;
    assert FenceMatch(text, PlainOpener).None?;
  }

  // ---------------------------------------------------------------------
  // Field checks

  /** JavaScript truthiness of a parsed JSON value. */
  predicate Truthy(j: Json) {
    match j
    case JNull => false
    case JBool(b) => b
    case JNum(n) => n != 0.0
    case JStr(s) => s != ""
    case JArr(_) => true
    case JObj(_) => true
  }

  /** `j.key` is truthy; a missing key reads as undefined, and a field of a
      non-object is undefined (or, on null, a thrown TypeError). */
  predicate FieldTruthy(j: Json, key: string) {
    j.JObj? && Lookup(j.fields, key).Some? && Truthy(Lookup(j.fields, key).value)
  }

  predicate HasRequiredFields(j: Json) {
    FieldTruthy(j, "scores") && FieldTruthy(j, "confidence") && FieldTruthy(j, "reasoning")
  }

  /** `parseClaudeResponse`, with `JSON.parse` as the partial function
      `parseJson`. Every failure, whether of the parser or of the field check,
      has the same message. */
  function ParseClaudeResponse(text: string, parseJson: string -> Option<Json>): (r: Result<Json>)
    ensures r.Err? ==> r.error == ParseFailure
    ensures r.Ok? <==>
      parseJson(Trim(ExtractJson(text))).Some? && HasRequiredFields(parseJson(Trim(ExtractJson(text))).value)
    ensures r.Ok? ==> r.value == parseJson(Trim(ExtractJson(text))).value
  {
    match parseJson(Trim(ExtractJson(text)))
    case None => Err(ParseFailure)
    case Some(parsed) =>
      if HasRequiredFields(parsed) then Ok(parsed) else Err(ParseFailure)
  }

  /** A confidence of exactly 0 is falsy, so such a reply is refused even
      though it is well-formed. */
  lemma ZeroConfidenceRejected(text: string, parseJson: string -> Option<Json>, fields: seq<(string, Json)>)
    requires parseJson(Trim(ExtractJson(text))) == Some(JObj(fields))
    requires Lookup(fields, "confidence") == Some(JNum(0.0))
    ensures ParseClaudeResponse(text, parseJson) == Err(ParseFailure)
  {
    assert !FieldTruthy(JObj(fields), "confidence");
  }

  /** Round trip: a reply that wraps a serialised object in a "```json" block
      is parsed back to that object, padding around the payload included,
      provided the object has the three required fields. */
  lemma ReplyRoundTrip(pre: string, payload: string, rest: string, j: Json, parseJson: string -> Option<Json>)
    requires NoBackticks(pre) && NoBackticks(payload)
    requires parseJson(Trim(payload)) == Some(j)
    requires HasRequiredFields(j)
    ensures ParseClaudeResponse(pre + JsonOpener + payload + Closer + rest, parseJson) == Ok(j)
  {
    JsonFenceRoundTrip(pre, payload, rest);
  }
}
