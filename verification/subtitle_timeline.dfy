/** The subtitle timeline of a bot reply: each sentence is shown when the
    estimated speaking time of the sentences before it has passed, and the
    subtitle is cleared two seconds after the last one would end. Times are
    milliseconds, as exact reals. */
module SubtitleTimeline {

  /** Reading rate in characters a second: `(140 * 5) / 50`, which is 14
      (140 words at five characters a word, divided by 50). Written as the
      literal so that durations stay linear arithmetic. */
  const CharsPerSecond: real := 14.0

  /** How long after the last sentence the subtitle is cleared. */
  const ClearDelayMs: real := 2000.0

  /** `(sentence.length / CHARS_PER_SECOND) * 1000` */
  function Duration(sentence: string): (d: real)
    ensures d >= 0.0
    ensures sentence != "" ==> d > 0.0
  {
    (|sentence| as real / CharsPerSecond) * 1000.0
  }

  /** The cumulative delay after the given sentences. */
  function TotalDuration(ss: seq<string>): (t: real)
    ensures t >= 0.0
  {
    if ss == [] then 0.0 else TotalDuration(ss[..|ss| - 1]) + Duration(ss[|ss| - 1])
  }

  /** The time at which sentence `i` is shown: the cumulative delay of the
      sentences before it. */
  function ShowTime(ss: seq<string>, i: nat): (t: real)
    requires i < |ss|
  {
    TotalDuration(ss[..i])
  }

  /** The time of the final clear. */
  function ClearTime(ss: seq<string>): (t: real)
  {
    TotalDuration(ss) + ClearDelayMs
  }

  /** The cumulative delay never decreases along the sentences. */
  lemma {:induction false} TotalDurationMonotone(ss: seq<string>, i: nat, j: nat)
    requires i <= j <= |ss|
    ensures TotalDuration(ss[..i]) <= TotalDuration(ss[..j])
    decreases j - i
  {
    if i < j {
      TotalDurationMonotone(ss, i, j - 1);
      assert ss[..j][..j - 1] == ss[..j - 1];
    }
  }

  /** With non-empty sentences the cumulative delay strictly grows. */
  lemma {:induction false} TotalDurationStrictlyMonotone(ss: seq<string>, i: nat, j: nat)
    requires i < j <= |ss|
    requires forall k :: 0 <= k < |ss| ==> ss[k] != ""
    ensures TotalDuration(ss[..i]) < TotalDuration(ss[..j])
    decreases j - i
  {
    assert ss[..j][..j - 1] == ss[..j - 1];
    if i < j - 1 {
      TotalDurationStrictlyMonotone(ss, i, j - 1);
    }
  }

  /** The first sentence is shown at once and show times never decrease; for
      non-empty sentences they strictly increase. */
  lemma ShowTimesOrdered(ss: seq<string>, i: nat, j: nat)
    requires i <= j < |ss|
    ensures ShowTime(ss, 0) == 0.0
    ensures ShowTime(ss, i) <= ShowTime(ss, j)
    ensures (forall k :: 0 <= k < |ss| ==> ss[k] != "") && i < j ==>
      ShowTime(ss, i) < ShowTime(ss, j)
  {
    assert ss[..0] == [];
    TotalDurationMonotone(ss, i, j);
    if (forall k :: 0 <= k < |ss| ==> ss[k] != "") && i < j {
      TotalDurationStrictlyMonotone(ss, i, j);
    }
  }

  /** The clear comes strictly after every show time, and two seconds after
      the estimated end of the last sentence. */
  lemma ClearAfterEveryShow(ss: seq<string>, i: nat)
    requires i < |ss|
    ensures ShowTime(ss, i) + Duration(ss[i]) + ClearDelayMs <= ClearTime(ss)
    ensures ShowTime(ss, i) < ClearTime(ss)
  {
    assert ss[..|ss|] == ss;
    TotalDurationMonotone(ss, i + 1, |ss|);
    assert ss[..i + 1][..i] == ss[..i];
  }
}
