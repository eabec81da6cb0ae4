/** Extraction of the onsen-preferences payload from a bot reply: the first
    match of the regular expression /```json\s*([\s\S]*?)\s*```/, whose
    capture, when non-empty, is handed to the JSON parser.

    How the regular expression matches, written out: the search tries start
    positions from left to right; at a start `i` it needs the literal
    "```json", then `\s*` takes the whole whitespace run (up to `p`), then the
    lazy capture tries to stop at `p`, `p + 1`, ... and stops at the first
    position `c` from which whitespace followed by "```" can be read. Giving
    back whitespace from the leading `\s*` never helps: a stop inside that run
    would need "```" right at `p`, which the first attempt already tried. */
module JsonFence {
  import opened Common

  const Opening: string := "```json"
  const Fence: string := "```"

  /** The capture may stop at `c`: optional whitespace, then "```". */
  predicate ClosesAt(s: string, c: nat)
    requires c <= |s|
  {
    OccursAt(s, SkipSpaces(s, c), Fence)
  }

  /** The first position at or after `c` where the lazy capture can stop. */
  function CaptureEnd(s: string, c: nat): (r: Option<nat>)
    requires c <= |s|
    ensures r.Some? ==> c <= r.value <= |s| && ClosesAt(s, r.value)
    ensures r.Some? ==> forall k :: c <= k < r.value ==> !ClosesAt(s, k)
    ensures r.None? ==> forall k :: c <= k <= |s| ==> !ClosesAt(s, k)
    decreases |s| - c
  {
    if ClosesAt(s, c) then Some(c)
    else if c == |s| then None
    else CaptureEnd(s, c + 1)
  }

  /** The capture of a match starting at `i`, if one starts there. */
  function MatchAt(s: string, i: nat): (r: Option<string>)
    requires i <= |s|
    ensures r.Some? ==> OccursAt(s, i, Opening)
  {
    if OccursAt(s, i, Opening) then
      var p := SkipSpaces(s, i + |Opening|);
      match CaptureEnd(s, p)
      case Some(c) => Some(s[p..c])
      case None => None
    else None
  }

  /** The capture of the first match starting at or after `i`. */
  function SearchFrom(s: string, i: nat): (r: Option<string>)
    requires i <= |s|
    decreases |s| - i
  {
    match MatchAt(s, i)
    case Some(b) => Some(b)
    case None => if i == |s| then None else SearchFrom(s, i + 1)
  }

  /** `botResponseText.match(jsonRegex)?.[1]`: the capture of the first match. */
  function FenceBody(text: string): (r: Option<string>)
  {
    SearchFrom(text, 0)
  }

  /** The preferences of a reply: the parse of a non-empty fence body. A
      missing fence, an empty body (`match[1]` is falsy) or a parse failure
      all give None. */
  function ExtractPreferences(text: string, parse: string -> Option<OnsenPreferences>): (r: Option<OnsenPreferences>)
    ensures r.Some? <==> FenceBody(text).Some? && FenceBody(text).value != "" && parse(FenceBody(text).value).Some?
    ensures r.Some? ==> r == parse(FenceBody(text).value)
  {
    match FenceBody(text)
    case Some(body) => if body != "" then parse(body) else None
    case None => None
  }

  // ---------------------------------------------------------------------------
  // Properties of the extractor

  lemma SkipSpacesFromSpace(s: string, i: nat)
    requires i < |s| && IsSpace(s[i])
    ensures SkipSpaces(s, i) == SkipSpaces(s, i + 1)
  {
  }

  lemma SkipSpacesFromNonSpace(s: string, i: nat)
    requires i < |s| && !IsSpace(s[i])
    ensures SkipSpaces(s, i) == i
  {
  }

  /** A text without "```json" has no payload. */
  lemma {:induction false} NoOpeningNoBody(s: string, i: nat)
    requires i <= |s|
    requires forall j :: !OccursAt(s, j, Opening)
    ensures SearchFrom(s, i) == None
    decreases |s| - i
  {
    if i < |s| {
      NoOpeningNoBody(s, i + 1);
    }
  }

  /** Whitespace just before a closing position is itself a closing position. */
  lemma ClosesBackward(s: string, c: nat)
    requires 0 < c <= |s|
    ensures IsSpace(s[c - 1]) && ClosesAt(s, c) ==> ClosesAt(s, c - 1)
  {
    if IsSpace(s[c - 1]) {
      SkipSpacesFromSpace(s, c - 1);
    }
  }

  /** A fence right at `x` lets the capture stop at `x`. */
  lemma FenceCloses(s: string, x: nat)
    requires x <= |s|
    ensures OccursAt(s, x, Fence) ==> ClosesAt(s, x)
  {
    if OccursAt(s, x, Fence) {
      assert s[x] == Fence[0];
      SkipSpacesFromNonSpace(s, x);
    }
  }

  /** A capture that stops at the first place it may stop holds no "```". */
  lemma CaptureHasNoFence(s: string, p: nat, c: nat)
    requires p <= c <= |s|
    requires forall k :: p <= k < c ==> !ClosesAt(s, k)
    ensures forall j :: !OccursAt(s[p..c], j, Fence)
  {
    var b := s[p..c];
    forall j: int
      ensures !OccursAt(b, j, Fence)
    {
      if 0 <= j && j + |Fence| <= |b| {
        SliceOfSlice(s, p, c, j, |Fence|);
        FenceCloses(s, p + j);
      }
    }
  }

  lemma SliceOfSlice<T>(s: seq<T>, p: nat, c: nat, j: nat, n: nat)
    requires p <= c <= |s| && j + n <= c - p
    ensures s[p..c][j..j + n] == s[p + j..p + j + n]
  {
    var x := s[p..c][j..j + n];
    var y := s[p + j..p + j + n];
    assert |x| == n == |y|;
    forall t | 0 <= t < n
      ensures x[t] == y[t]
    {
      assert x[t] == s[p..c][j + t] == s[p + j + t];
    }
  }

  /** A capture that starts after the whitespace run and stops at the first
      place it may stop is trimmed. */
  lemma CaptureIsTrimmed(s: string, p: nat, c: nat)
    requires p <= c <= |s| && ClosesAt(s, c)
    requires p < |s| ==> !IsSpace(s[p])
    requires forall k :: p <= k < c ==> !ClosesAt(s, k)
    ensures IsTrimmed(s[p..c])
  {
    var b := s[p..c];
    if b != "" {
      assert b[0] == s[p];
      ClosesBackward(s, c);
      assert b[|b| - 1] == s[c - 1];
    }
  }

  /** The body of a match is trimmed and holds no "```". */
  lemma MatchIsTrimmed(s: string, i: nat)
    requires i <= |s| && MatchAt(s, i).Some?
    ensures IsTrimmed(MatchAt(s, i).value)
    ensures forall j :: !OccursAt(MatchAt(s, i).value, j, Fence)
  {
    var p := SkipSpaces(s, i + |Opening|);
    var c := CaptureEnd(s, p).value;
    assert MatchAt(s, i) == Some(s[p..c]);
    CaptureIsTrimmed(s, p, c);
    CaptureHasNoFence(s, p, c);
  }

  /** Whatever body the extractor returns is trimmed and holds no "```". */
  lemma {:induction false} FenceBodyIsTrimmed(s: string, i: nat)
    requires i <= |s| && SearchFrom(s, i).Some?
    ensures IsTrimmed(SearchFrom(s, i).value)
    ensures forall j :: !OccursAt(SearchFrom(s, i).value, j, Fence)
    decreases |s| - i
  {
    if MatchAt(s, i).Some? {
      MatchIsTrimmed(s, i);
    } else {
      FenceBodyIsTrimmed(s, i + 1);
    }
  }

  /** No character of `s` is a backtick. */
  predicate NoBacktick(s: string)
  {
    forall k :: 0 <= k < |s| ==> s[k] != '`'
  }

  /** The text a reply holds when it carries `body` in a json fence. */
  function Fenced(prefix: string, body: string, suffix: string): string
  {
    prefix + Opening + "\n" + body + "\n" + Fence + suffix
  }

  /** Where the parts of a fenced reply sit. */
  predicate LaidOut(s: string, i0: nat, body: string)
  {
    var n := |body|;
    i0 + 12 + n <= |s| &&
    OccursAt(s, i0, Opening) && s[i0 + 7] == '\n' &&
    s[i0 + 8..i0 + 8 + n] == body && s[i0 + 8 + n] == '\n' &&
    OccursAt(s, i0 + 9 + n, Fence)
  }

  lemma FencedLaidOut(prefix: string, body: string, suffix: string)
    ensures StartsWith(Fenced(prefix, body, suffix), prefix)
    ensures LaidOut(Fenced(prefix, body, suffix), |prefix|, body)
  {
    var s := Fenced(prefix, body, suffix);
    var i0 := |prefix|;
    var n := |body|;
    assert s == prefix + (Opening + ("\n" + (body + ("\n" + (Fence + suffix)))));
    assert s[..i0] == prefix;
    assert s[i0..i0 + 7] == Opening;
    assert s[i0 + 8..i0 + 8 + n] == body;
    assert s[i0 + 9 + n..i0 + 12 + n] == Fence;
  }

  /** At the opening of a laid-out reply, the match captures exactly the
      body. */
  lemma MatchLaidOut(s: string, i0: nat, body: string)
    requires LaidOut(s, i0, body)
    requires NoBacktick(body) && IsTrimmed(body)
    ensures MatchAt(s, i0) == Some(body)
  {
    var n := |body|;
    SkipSpacesFromSpace(s, i0 + 7);
    var p := SkipSpaces(s, i0 + 7);
    if n == 0 {
      SkipSpacesFromSpace(s, i0 + 8);
      assert s[i0 + 9] == Fence[0];
      SkipSpacesFromNonSpace(s, i0 + 9);
      assert ClosesAt(s, p);
      assert s[p..p] == body;
    } else {
      assert s[i0 + 8] == body[0];
      SkipSpacesFromNonSpace(s, i0 + 8);
      var c := i0 + 8 + n;
      SkipSpacesFromSpace(s, c);
      assert s[c + 1] == Fence[0];
      SkipSpacesFromNonSpace(s, c + 1);
      assert ClosesAt(s, c);
      forall k | p <= k < c
        ensures !ClosesAt(s, k)
      {
        BodyDoesNotClose(s, body, p, k);
      }
      CaptureEndIsFirst(s, p, c);
    }
  }

  /** Round trip: a reply that carries a trimmed, backtick-free body in a json
      fence, after text without backticks, yields exactly that body. */
  lemma FenceRoundTrip(prefix: string, body: string, suffix: string)
    requires NoBacktick(prefix) && NoBacktick(body) && IsTrimmed(body)
    ensures FenceBody(Fenced(prefix, body, suffix)) == Some(body)
  {
    var s := Fenced(prefix, body, suffix);
    FencedLaidOut(prefix, body, suffix);
    NoMatchBefore(s, prefix);
    MatchLaidOut(s, |prefix|, body);
    FirstMatchWins(s, 0, |prefix|);
  }

  /** No match starts inside a prefix without backticks. */
  lemma NoMatchBefore(s: string, prefix: string)
    requires StartsWith(s, prefix) && NoBacktick(prefix)
    ensures forall j :: 0 <= j < |prefix| ==> !OccursAt(s, j, Opening)
  {
    forall j | 0 <= j < |prefix|
      ensures !OccursAt(s, j, Opening)
    {
      assert s[j] == prefix[j];
      assert Opening[0] == '`';
    }
  }

  /** Inside a trimmed, backtick-free body, followed by more text, the capture
      cannot stop before the end of the body. */
  lemma BodyDoesNotClose(s: string, body: string, p: nat, k: nat)
    requires p + |body| < |s| && s[p..p + |body|] == body
    requires NoBacktick(body) && body != "" && !IsSpace(body[|body| - 1])
    requires p <= k < p + |body|
    ensures !ClosesAt(s, k)
  {
    var d := SkipSpaces(s, k);
    assert d < p + |body| by {
      assert s[p + |body| - 1] == body[|body| - 1];
    }
    assert s[d] == body[d - p];
    assert Fence[0] == '`';
  }

  lemma CaptureEndIsFirst(s: string, p: nat, c: nat)
    requires p <= c <= |s|
    requires ClosesAt(s, c)
    requires forall k :: p <= k < c ==> !ClosesAt(s, k)
    ensures CaptureEnd(s, p) == Some(c)
    decreases c - p
  {
    if p < c {
      CaptureEndIsFirst(s, p + 1, c);
    }
  }

  /** When no match starts before `i0` and one starts at `i0`, the search
      from `i` returns it. */
  lemma {:induction false} FirstMatchWins(s: string, i: nat, i0: nat)
    requires i <= i0 <= |s|
    requires forall j :: i <= j < i0 ==> !OccursAt(s, j, Opening)
    requires MatchAt(s, i0).Some?
    ensures SearchFrom(s, i) == MatchAt(s, i0)
    decreases i0 - i
  {
    if i < i0 {
      FirstMatchWins(s, i + 1, i0);
    }
  }
}
