/** The sentence splitter of the chat session: the response text is cut at
    every whitespace run that directly follows `.`, `?` or `!` (the regular
    expression `/(?<=[.?!])\s+/`), each piece is trimmed, and empty pieces are
    dropped. */
module SentenceSplitter {
  import opened Common

  predicate IsSentenceEnd(c: char)
  {
    c == '.' || c == '?' || c == '!'
  }

  /** `q` is a split point: the character before it ends a sentence and a
      whitespace run starts at it (where the lookbehind and `\s` both match). */
  predicate IsBoundary(s: string, q: int)
  {
    1 <= q < |s| && IsSentenceEnd(s[q - 1]) && IsSpace(s[q])
  }

  /** The first split point at or after `from`, as the regular-expression
      search of `split` finds it. */
  function FindBoundary(s: string, from: nat): (r: Option<nat>)
    requires 1 <= from
    ensures r.Some? ==> from <= r.value < |s| && IsBoundary(s, r.value)
    ensures r.Some? ==> forall q :: from <= q < r.value ==> !IsBoundary(s, q)
    ensures r.None? ==> forall q :: from <= q < |s| ==> !IsBoundary(s, q)
    decreases |s| - from
  {
    if from >= |s| then None
    else if IsBoundary(s, from) then Some(from)
    else FindBoundary(s, from + 1)
  }

  /** What `s.split(/(?<=[.?!])\s+/)` returns: the text between consecutive
      separator runs, including a trailing "" when the text ends in one. */
  function Pieces(s: string): (r: seq<string>)
    ensures |r| >= 1
    decreases |s|
  {
    match FindBoundary(s, 1)
    case None => [s]
    case Some(q) => [s[..q]] + Pieces(s[SkipSpaces(s, q)..])
  }

  /** `.map(s => s.trim())` */
  function TrimAll(ss: seq<string>): (r: seq<string>)
    ensures |r| == |ss|
    ensures forall i :: 0 <= i < |ss| ==> r[i] == Trim(ss[i]) && IsTrimmed(r[i])
  {
    if ss == [] then [] else [Trim(ss[0])] + TrimAll(ss[1..])
  }

  /** `.filter(Boolean)`: keeps the non-empty strings, in order; what it keeps
      of trimmed strings is trimmed. */
  function DropEmpty(ss: seq<string>): (r: seq<string>)
    ensures |r| <= |ss|
    ensures forall i :: 0 <= i < |r| ==> r[i] != ""
    ensures (forall i :: 0 <= i < |ss| ==> IsTrimmed(ss[i])) ==>
      forall i :: 0 <= i < |r| ==> IsTrimmed(r[i])
  {
    if ss == [] then []
    else if ss[0] == "" then DropEmpty(ss[1..])
    else [ss[0]] + DropEmpty(ss[1..])
  }

  /** `splitIntoSentences`: every sentence is non-empty and trimmed, and the
      empty text has none. */
  function SplitIntoSentences(text: string): (r: seq<string>)
    ensures text == "" ==> r == []
    ensures forall i :: 0 <= i < |r| ==> r[i] != "" && IsTrimmed(r[i])
  {
    if text == "" then [] else DropEmpty(TrimAll(Pieces(text)))
  }

  // ---------------------------------------------------------------------------
  // Properties of the splitter

  /** A text without any split point is one piece. */
  lemma {:induction false} NoBoundaryOnePiece(s: string)
    requires forall q :: !IsBoundary(s, q)
    ensures Pieces(s) == [s]
  {
  }

  /** A text without a sentence end followed by whitespace is at most one
      sentence. */
  lemma {:induction false} NoBoundaryAtMostOneSentence(text: string)
    requires forall q :: !IsBoundary(text, q)
    ensures |SplitIntoSentences(text)| <= 1
  {
    if text != "" {
      NoBoundaryOnePiece(text);
      assert TrimAll(Pieces(text)) == [Trim(text)];
    }
  }

  lemma {:induction false} DropEmptyAppend(a: seq<string>, b: seq<string>)
    ensures DropEmpty(a + b) == DropEmpty(a) + DropEmpty(b)
    decreases |a|
  {
    if a != [] {
      assert (a + b)[1..] == a[1..] + b;
      DropEmptyAppend(a[1..], b);
    } else {
      assert a + b == b;
    }
  }

  lemma {:induction false} DropEmptyKeepsNonEmpty(a: seq<string>)
    requires forall i :: 0 <= i < |a| ==> a[i] != ""
    ensures DropEmpty(a) == a
    decreases |a|
  {
    if a != [] {
      DropEmptyKeepsNonEmpty(a[1..]);
    }
  }

  /** `x` is non-empty and ends with sentence-closing punctuation. */
  predicate EndsSentence(x: string)
  {
    x != "" && IsSentenceEnd(x[|x| - 1])
  }

  /** Every piece but the last ends with the punctuation that closed it. */
  lemma {:induction false} PiecesEndWithPunctuation(s: string)
    ensures forall i :: 0 <= i < |Pieces(s)| - 1 ==> EndsSentence(Pieces(s)[i])
    decreases |s|
  {
    match FindBoundary(s, 1)
    case None =>
    case Some(q) =>
      var rest := s[SkipSpaces(s, q)..];
      PiecesEndWithPunctuation(rest);
      assert Pieces(s) == [s[..q]] + Pieces(rest);
  }

  /** Trimming a string that ends a sentence keeps it ending the sentence. */
  lemma TrimKeepsSentenceEnd(s: string)
    requires EndsSentence(s)
    ensures EndsSentence(Trim(s))
  {
    var r := Trim(s);
    TrimIsFactor(s);
    var k :| IsTrimmedAt(s, k, r);
    assert !IsSpace(s[|s| - 1]);
  }

  lemma {:induction false} TrimAllKeepsSentenceEnds(p: seq<string>)
    requires |p| >= 1
    requires forall i :: 0 <= i < |p| - 1 ==> EndsSentence(p[i])
    ensures DropEmpty(TrimAll(p)) == TrimAll(p)[..|p| - 1] + DropEmpty([TrimAll(p)[|p| - 1]])
    ensures forall i :: 0 <= i < |p| - 1 ==> EndsSentence(TrimAll(p)[i])
  {
    var t := TrimAll(p);
    var n := |p|;
    forall i | 0 <= i < n - 1
      ensures EndsSentence(t[i])
    {
      TrimKeepsSentenceEnd(p[i]);
    }
    assert t == t[..n - 1] + [t[n - 1]];
    DropEmptyAppend(t[..n - 1], [t[n - 1]]);
    DropEmptyKeepsNonEmpty(t[..n - 1]);
  }

  /** Splits keep the punctuation with the earlier sentence: every sentence
      except the last ends with `.`, `?` or `!`. */
  lemma SentencesEndWithPunctuation(text: string)
    ensures forall i :: 0 <= i < |SplitIntoSentences(text)| - 1 ==>
      EndsSentence(SplitIntoSentences(text)[i])
  {
    if text != "" {
      var p := Pieces(text);
      PiecesEndWithPunctuation(text);
      TrimAllKeepsSentenceEnds(p);
      var t := TrimAll(p);
      var r := SplitIntoSentences(text);
      assert r == DropEmpty(t);
      assert r == t[..|p| - 1] + DropEmpty([t[|p| - 1]]);
      forall i | 0 <= i < |r| - 1
        ensures EndsSentence(r[i])
      {
        assert r[i] == t[i];
      }
    }
  }

  // ---------------------------------------------------------------------------
  // No loss and no duplication: apart from whitespace, the sentences spell out
  // exactly the text.

  /** The non-whitespace characters of `s`, in order. */
  function Visible(s: string): string
  {
    if s == [] then []
    else if IsSpace(s[0]) then Visible(s[1..])
    else [s[0]] + Visible(s[1..])
  }

  function Concat(ss: seq<string>): string
  {
    if ss == [] then [] else ss[0] + Concat(ss[1..])
  }

  lemma {:induction false} VisibleAppend(a: string, b: string)
    ensures Visible(a + b) == Visible(a) + Visible(b)
    decreases |a|
  {
    if a == [] {
      assert a + b == b;
    } else {
      assert (a + b)[1..] == a[1..] + b;
      VisibleAppend(a[1..], b);
    }
  }

  lemma {:induction false} VisibleOfSpaces(s: string)
    requires forall i :: 0 <= i < |s| ==> IsSpace(s[i])
    ensures Visible(s) == []
    decreases |s|
  {
    if s != [] {
      VisibleOfSpaces(s[1..]);
    }
  }

  lemma {:induction false} VisibleTrimStart(s: string)
    ensures Visible(TrimStart(s)) == Visible(s)
    decreases |s|
  {
    if s != [] && IsSpace(s[0]) {
      VisibleTrimStart(s[1..]);
    }
  }

  lemma VisibleTrimEnd(s: string)
    ensures Visible(TrimEnd(s)) == Visible(s)
  {
    var r := TrimEnd(s);
    assert s == r + s[|r|..];
    VisibleAppend(r, s[|r|..]);
    VisibleOfSpaces(s[|r|..]);
  }

  lemma VisibleTrim(s: string)
    ensures Visible(Trim(s)) == Visible(s)
  {
    VisibleTrimStart(s);
    VisibleTrimEnd(TrimStart(s));
  }

  /** Cutting out a run of whitespace keeps what is visible. */
  lemma VisibleCut(s: string, q: nat, e: nat)
    requires q <= e <= |s|
    requires forall k :: q <= k < e ==> IsSpace(s[k])
    ensures Visible(s) == Visible(s[..q]) + Visible(s[e..])
  {
    var a, w, r := s[..q], s[q..e], s[e..];
    assert s == a + (w + r);
    forall k | 0 <= k < |w|
      ensures IsSpace(w[k])
    {
      assert w[k] == s[q + k];
    }
    VisibleOfSpaces(w);
    VisibleAppend(w, r);
    VisibleAppend(a, w + r);
  }

  lemma {:induction false} VisiblePieces(s: string)
    ensures Visible(Concat(Pieces(s))) == Visible(s)
    decreases |s|
  {
    match FindBoundary(s, 1)
    case None =>
      assert Pieces(s) == [s];
      assert Concat([s]) == s + Concat([]);
      assert s + [] == s;
    case Some(q) =>
      var e := SkipSpaces(s, q);
      var rest := s[e..];
      var tail := Concat(Pieces(rest));
      VisiblePieces(rest);
      assert Pieces(s) == [s[..q]] + Pieces(rest);
      assert Concat(Pieces(s)) == s[..q] + tail by {
        assert ([s[..q]] + Pieces(rest))[1..] == Pieces(rest);
      }
      VisibleAppend(s[..q], tail);
      VisibleCut(s, q, e);
  }

  lemma {:induction false} VisibleTrimAll(ss: seq<string>)
    ensures Visible(Concat(TrimAll(ss))) == Visible(Concat(ss))
    decreases |ss|
  {
    if ss != [] {
      VisibleTrimAll(ss[1..]);
      assert TrimAll(ss) == [Trim(ss[0])] + TrimAll(ss[1..]);
      VisibleAppend(Trim(ss[0]), Concat(TrimAll(ss[1..])));
      VisibleAppend(ss[0], Concat(ss[1..]));
      VisibleTrim(ss[0]);
    }
  }

  lemma {:induction false} ConcatDropEmpty(ss: seq<string>)
    ensures Concat(DropEmpty(ss)) == Concat(ss)
    decreases |ss|
  {
    if ss != [] {
      ConcatDropEmpty(ss[1..]);
      if ss[0] != "" {
        assert DropEmpty(ss) == [ss[0]] + DropEmpty(ss[1..]);
      } else {
        assert Concat(ss) == ss[0] + Concat(ss[1..]);
      }
    }
  }

  /** Splitting loses and duplicates nothing: the sentences, joined, hold
      exactly the non-whitespace characters of the text, in order. */
  lemma SplitPreservesContent(text: string)
    ensures Visible(Concat(SplitIntoSentences(text))) == Visible(text)
  {
    if text != "" {
      var p := Pieces(text);
      ConcatDropEmpty(TrimAll(p));
      VisibleTrimAll(p);
      VisiblePieces(text);
    }
  }

  /** Empty or whitespace-only text yields no sentence. */
  lemma BlankTextHasNoSentences(text: string)
    requires forall i :: 0 <= i < |text| ==> IsSpace(text[i])
    ensures SplitIntoSentences(text) == []
  {
    if text != "" {
      NoBoundaryOnePiece(text);
      assert Visible(text) == [] by { VisibleOfSpaces(text); }
      var t := Trim(text);
      TrimIsFactor(text);
      var k :| IsTrimmedAt(text, k, t);
      assert TrimAll(Pieces(text)) == [""];
    }
  }
}
