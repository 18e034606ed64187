/** `extractPresentationId` (content.js): the regular expression
    `/\/presentation\/d\/([a-zA-Z0-9-_]+)/` applied to the page URL, giving
    the first capture group or `null`. */
module PresentationId {
  import opened Wrappers

  /** The literal part of the pattern. */
  const Marker: string := "/presentation/d/"

  /** The class `[a-zA-Z0-9-_]`: the `-` after the range `0-9` is literal. */
  predicate IsIdChar(c: char) {
    ('a' <= c <= 'z') || ('A' <= c <= 'Z') || ('0' <= c <= '9') || c == '-' || c == '_'
  }

  /** The pattern can match at position `p`: the marker sits there and at
      least one id character follows it. */
  ghost predicate MatchAt(url: string, p: int) {
    0 <= p && p + |Marker| < |url| && url[p..p + |Marker|] == Marker && IsIdChar(url[p + |Marker|])
  }

  /** `p` is the leftmost position where the pattern can match. */
  ghost predicate LeftmostMatch(url: string, p: int) {
    MatchAt(url, p) && forall q :: 0 <= q < p ==> !MatchAt(url, q)
  }

  /** `id` is the maximal run of id characters starting at `start`, as the
      greedy `+` takes it. */
  ghost predicate MaximalRunAt(url: string, start: int, id: string) {
    0 <= start && start + |id| <= |url| && url[start..start + |id|] == id &&
    (forall k :: 0 <= k < |id| ==> IsIdChar(id[k])) &&
    (start + |id| == |url| || !IsIdChar(url[start + |id|]))
  }

  /** The length of the run of id characters starting at `i`. */
  function RunLength(url: string, i: nat): (n: nat)
    requires i <= |url|
    ensures i + n <= |url|
    ensures forall k :: i <= k < i + n ==> IsIdChar(url[k])
    ensures i + n == |url| || !IsIdChar(url[i + n])
    decreases |url| - i
  {
    if i == |url| || !IsIdChar(url[i]) then 0 else 1 + RunLength(url, i + 1)
  }

  /** The leftmost position at or after `from` where the pattern matches. */
  function FindMatch(url: string, from: nat): (r: Option<nat>)
    requires from <= |url|
    ensures r.Some? ==> from <= r.value && MatchAt(url, r.value)
    ensures r.Some? ==> forall q :: from <= q < r.value ==> !MatchAt(url, q)
    ensures r.None? ==> forall q :: from <= q ==> !MatchAt(url, q)
    decreases |url| - from
  {
    if from + |Marker| >= |url| then None
    else if url[from..from + |Marker|] == Marker && IsIdChar(url[from + |Marker|]) then Some(from)
    else FindMatch(url, from + 1)
  }

  /** `match ? match[1] : null`. */
  function ExtractPresentationId(url: string): Option<string> {
    match FindMatch(url, 0)
    case None => None
    case Some(p) =>
      var start := p + |Marker|;
      Some(url[start..start + RunLength(url, start)])
  }

  /** There is no id exactly when no marker is followed by an id character;
      otherwise the id is non-empty and is the maximal run of id characters
      after the leftmost such marker. */
  lemma ExtractPresentationIdSpec(url: string)
    ensures ExtractPresentationId(url).None? <==> forall p :: !MatchAt(url, p)
    ensures ExtractPresentationId(url).Some? ==>
      var id := ExtractPresentationId(url).value;
      |id| > 0 && exists p :: LeftmostMatch(url, p) && MaximalRunAt(url, p + |Marker|, id)
  {
    var m := FindMatch(url, 0);
    if m.Some? {
      var start := m.value + |Marker|;
      assert LeftmostMatch(url, m.value);
      assert MaximalRunAt(url, start, url[start..start + RunLength(url, start)]);
    }
  }

  /** Whether the pattern matches at `q` depends only on the text up to
      the first id character. */
  lemma MatchAtPrefix(s: string, u: string, q: nat)
    requires q + |Marker| < |s| <= |u| && u[..|s|] == s
    ensures MatchAt(u, q) == MatchAt(s, q)
  {
    assert u[..|s|][q..q + |Marker|] == u[q..q + |Marker|];
    assert u[..|s|][q + |Marker|] == u[q + |Marker|];
  }

  /** A maximal run is the one `RunLength` measures. */
  lemma {:induction false} MaximalRunLength(url: string, start: nat, id: string)
    requires MaximalRunAt(url, start, id)
    ensures start + |id| <= |url| && id == url[start..start + RunLength(url, start)]
    decreases |id|
  {
    if |id| > 0 {
      assert url[start] == id[0];
      assert url[start + 1..start + 1 + |id[1..]|] == id[1..];
      MaximalRunLength(url, start + 1, id[1..]);
      assert id == [url[start]] + id[1..];
    }
  }

  /** The scan from `from` stops at the first match it reaches. */
  lemma {:induction false} FindMatchStopsAtFirst(url: string, from: nat, p: nat)
    requires from <= p && MatchAt(url, p)
    requires forall q :: from <= q < p ==> !MatchAt(url, q)
    ensures FindMatch(url, from) == Some(p)
    decreases p - from
  {
    if from < p {
      assert !MatchAt(url, from);
      FindMatchStopsAtFirst(url, from + 1, p);
    }
  }

  /** A prefix without a match keeps it so whatever follows it. */
  lemma NoEarlierMatch(pre: string, url: string)
    requires forall p :: !MatchAt(pre + Marker, p)
    requires |pre + Marker| <= |url| && url[..|pre + Marker|] == pre + Marker
    ensures forall q :: 0 <= q < |pre| ==> !MatchAt(url, q)
  {
    forall q | 0 <= q < |pre|
      ensures !MatchAt(url, q)
    {
      MatchAtPrefix(pre + Marker, url, q);
    }
  }

  /** Right after the marker, an id followed by a non-id character (or by
      nothing) is a match, and its greedy run is exactly that id. */
  lemma IdAfterMarker(pre: string, id: string, rest: string)
    requires |id| > 0 && forall k :: 0 <= k < |id| ==> IsIdChar(id[k])
    requires rest == [] || !IsIdChar(rest[0])
    ensures MatchAt(pre + Marker + id + rest, |pre|)
    ensures MaximalRunAt(pre + Marker + id + rest, |pre| + |Marker|, id)
  {
    var url := pre + Marker + id + rest;
    var start := |pre| + |Marker|;
    assert url[|pre|..start] == Marker;
    assert url[start..start + |id|] == id;
    assert start + |id| < |url| ==> url[start + |id|] == rest[0];
  }

  /** The leftmost match wins even when a later occurrence of the marker has
      another id after it, and the id stops at the first character outside
      the class (such as the `/` of `/edit`). */
  lemma FirstIdWins(pre: string, id: string, rest: string)
    requires forall p :: !MatchAt(pre + Marker, p)
    requires |id| > 0 && forall k :: 0 <= k < |id| ==> IsIdChar(id[k])
    requires rest == [] || !IsIdChar(rest[0])
    ensures ExtractPresentationId(pre + Marker + id + rest) == Some(id)
  {
    var url := pre + Marker + id + rest;
    var start := |pre| + |Marker|;
    IdAfterMarker(pre, id, rest);
    assert url[..|pre + Marker|] == pre + Marker;
    NoEarlierMatch(pre, url);
    FindMatchStopsAtFirst(url, 0, |pre|);
    MaximalRunLength(url, start, id);
    assert url[start..start + RunLength(url, start)] == id;
  }
}
