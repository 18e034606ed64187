/** The extraction of the JSON object from the language model's reply
    (content.js, the tail of `analyzeContentWithAI`): the greedy regular
    expression `/\{[\s\S]*\}/`, then `JSON.parse` of the matched text. */
module Reply {
  import opened Wrappers
  import Plan

  /** The message of the error thrown when the reply holds no match. */
  const ParseErrorMessage: string := "Failed to parse AI response"

  /** A half-open slice `[start, stop)` of the reply. */
  datatype Span = Span(start: nat, stop: nat)

  /** The pattern `\{[\s\S]*\}` matches exactly `s[i..j]`: the slice opens
      with `{`, closes with a different `}` and `[\s\S]*` takes anything. */
  ghost predicate MatchAt(s: string, i: int, j: int) {
    0 <= i && i + 2 <= j <= |s| && s[i] == '{' && s[j - 1] == '}'
  }

  /** The first position of `c` in `s`. */
  function FirstIndex(s: string, c: char): (r: Option<nat>)
    ensures r.Some? ==> r.value < |s| && s[r.value] == c
    ensures r.Some? ==> forall k :: 0 <= k < r.value ==> s[k] != c
    ensures r.None? ==> forall k :: 0 <= k < |s| ==> s[k] != c
  {
    if |s| == 0 then None
    else if s[0] == c then Some(0)
    else match FirstIndex(s[1..], c)
      case None => None
      case Some(i) => Some(i + 1)
  }

  /** The last position of `c` in `s`. */
  function LastIndex(s: string, c: char): (r: Option<nat>)
    ensures r.Some? ==> r.value < |s| && s[r.value] == c
    ensures r.Some? ==> forall k :: r.value < k < |s| ==> s[k] != c
    ensures r.None? ==> forall k :: 0 <= k < |s| ==> s[k] != c
  {
    if |s| == 0 then None
    else if s[|s| - 1] == c then Some(|s| - 1)
    else LastIndex(s[..|s| - 1], c)
  }

  /** `String.prototype.match` with `/\{[\s\S]*\}/`: the slice from the
      first `{` to the last `}`, when that `}` comes later. */
  function JsonSpan(s: string): Option<Span> {
    match FirstIndex(s, '{')
    case None => None
    case Some(i) =>
      match LastIndex(s, '}')
      case None => None
      case Some(j) => if i < j then Some(Span(i, j + 1)) else None
  }

  /** The text `jsonMatch[0]`, or the error the source throws without a match. */
  function ExtractJson(reply: string): Result<string, string> {
    match JsonSpan(reply)
    case None => Failure(ParseErrorMessage)
    case Some(span) => Success(reply[span.start..span.stop])
  }

  /** `JSON.parse(jsonMatch[0])`. `parse` stands for `JSON.parse` read as an
      `UpdatePlan`; its failure carries the `SyntaxError` message. */
  function ParseReply(reply: string, parse: string -> Result<Plan.UpdatePlan, string>): Result<Plan.UpdatePlan, string> {
    match ExtractJson(reply)
    case Failure(e) => Failure(e)
    case Success(text) => parse(text)
  }

  /** The span is what the regular expression engine finds: the leftmost
      start at which the pattern can match and, there, the longest match of
      the greedy `[\s\S]*`; there is no span when the pattern matches nowhere. */
  lemma JsonSpanIsLeftmostLongest(s: string)
    ensures JsonSpan(s).None? <==> forall i, j :: !MatchAt(s, i, j)
    ensures JsonSpan(s).Some? ==> MatchAt(s, JsonSpan(s).value.start, JsonSpan(s).value.stop)
    ensures JsonSpan(s).Some? ==> forall i, j :: i < JsonSpan(s).value.start ==> !MatchAt(s, i, j)
    ensures JsonSpan(s).Some? ==> forall j :: MatchAt(s, JsonSpan(s).value.start, j) ==> j <= JsonSpan(s).value.stop
  {
    var first, last := FirstIndex(s, '{'), LastIndex(s, '}');
    if first.Some? && last.Some? && first.value < last.value {
      assert MatchAt(s, first.value, last.value + 1);
    } else {
      assert forall a, b :: MatchAt(s, a, b) ==> first.Some? && last.Some? && first.value <= a && b - 1 <= last.value;
    }
  }

  /** Extraction fails, with `Failed to parse AI response`, exactly when the
      pattern matches nowhere; what it extracts opens with `{` and closes
      with `}`. */
  lemma ExtractJsonOutcome(reply: string)
    ensures ExtractJson(reply).Failure? <==> forall i, j :: !MatchAt(reply, i, j)
    ensures ExtractJson(reply).Failure? ==> ExtractJson(reply).error == ParseErrorMessage
    ensures ExtractJson(reply).Success? ==>
      var text := ExtractJson(reply).value;
      2 <= |text| && text[0] == '{' && text[|text| - 1] == '}'
  {
    JsonSpanIsLeftmostLongest(reply);
  }

  /** Without a match the reply is rejected before `JSON.parse` is tried. */
  lemma ParseReplyWithoutMatch(reply: string, parse: string -> Result<Plan.UpdatePlan, string>)
    requires forall i, j :: !MatchAt(reply, i, j)
    ensures ParseReply(reply, parse) == Failure(ParseErrorMessage)
  {
    JsonSpanIsLeftmostLongest(reply);
  }

  /** The plan is `JSON.parse` of the leftmost-longest match, whichever way
      the match is found. */
  lemma ParseReplyParsesMatch(reply: string, parse: string -> Result<Plan.UpdatePlan, string>, i: int, j: int)
    requires MatchAt(reply, i, j)
    requires forall a, b :: a < i ==> !MatchAt(reply, a, b)
    requires forall b :: MatchAt(reply, i, b) ==> b <= j
    ensures ParseReply(reply, parse) == parse(reply[i..j])
  {
    JsonSpanIsLeftmostLongest(reply);
    var span := JsonSpan(reply).value;
    assert span.start == i;
    assert span.stop == j;
  }

  /** The extractor succeeds exactly when some `}` follows the first `{`. */
  lemma SucceedsIffCloseAfterFirstOpen(s: string)
    ensures ExtractJson(s).Success? <==>
      FirstIndex(s, '{').Some? && exists j :: FirstIndex(s, '{').value < j < |s| && s[j] == '}'
  {
    var first, last := FirstIndex(s, '{'), LastIndex(s, '}');
    if ExtractJson(s).Success? {
      assert s[last.value] == '}';
    }
  }

  /** Prose before the object (holding no `{`) and after it (holding no `}`)
      is ignored: exactly the object is extracted. */
  lemma {:induction false} SurroundingProseIgnored(pre: string, body: string, post: string)
    requires forall k :: 0 <= k < |pre| ==> pre[k] != '{'
    requires forall k :: 0 <= k < |post| ==> post[k] != '}'
    requires 2 <= |body| && body[0] == '{' && body[|body| - 1] == '}'
    ensures ExtractJson(pre + body + post) == Success(body)
  {
    var s := pre + body + post;
    var a, b := |pre|, |pre| + |body|;
    JsonSpanIsLeftmostLongest(s);
    assert s[a] == '{' && s[b - 1] == '}';
    assert MatchAt(s, a, b);
    var span := JsonSpan(s).value;
    assert span.start == a by {
      assert forall k :: 0 <= k < a ==> s[k] == pre[k];
    }
    assert span.stop == b by {
      assert forall k :: b <= k < |s| ==> s[k] == post[k - b];
    }
    assert s[a..b] == body;
  }
}
