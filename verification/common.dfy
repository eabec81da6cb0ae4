/** Values shared by every part of the chat front-end: optional values, the
    outcome of an awaited call, chat messages, onsen preferences, and the few
    JavaScript string operations the core relies on (whitespace, `trim`,
    `includes`, truthiness of a possibly-missing string). */
module Common {

  datatype Option<T> = None | Some(value: T)

  /** The outcome of an awaited call that may reject; a rejection carries the
      error's `message`, which may be missing. */
  datatype Call<T> = Returned(value: T) | Threw(message: Option<string>)

  datatype Sender = User | Bot

  /** A chat message; the history is an append-only sequence of these. */
  datatype ChatMessage = ChatMessage(sender: Sender, text: string)

  datatype WellbeingProfile = WellbeingProfile(
    skinType: string,
    muscleSoreness: string,
    stressLevel: string,
    waterTemperature: string,
    healthGoals: string)

  datatype AestheticProfile = AestheticProfile(
    atmosphere: string,
    colorPalette: string,
    timeOfDay: string)

  datatype OnsenPreferences = OnsenPreferences(
    wellbeingProfile: WellbeingProfile,
    aestheticProfile: AestheticProfile)

  /** JavaScript's WhiteSpace and LineTerminator code points: the class `\s`
      of a regular expression and the characters `String.prototype.trim`
      removes. */
  predicate IsSpace(c: char)
  {
    var n := c as int;
    n == 0x09 || n == 0x0A || n == 0x0B || n == 0x0C || n == 0x0D || n == 0x20 ||
    n == 0xA0 || n == 0x1680 || (0x2000 <= n <= 0x200A) ||
    n == 0x2028 || n == 0x2029 || n == 0x202F || n == 0x205F || n == 0x3000 || n == 0xFEFF
  }

  /** `s` with its leading whitespace removed. */
  function TrimStart(s: string): (r: string)
    ensures |r| <= |s| && r == s[|s| - |r|..]
    ensures forall i :: 0 <= i < |s| - |r| ==> IsSpace(s[i])
    ensures r != [] ==> !IsSpace(r[0])
  {
    if s != [] && IsSpace(s[0]) then TrimStart(s[1..]) else s
  }

  /** `s` with its trailing whitespace removed. */
  function TrimEnd(s: string): (r: string)
    ensures |r| <= |s| && r == s[..|r|]
    ensures forall i :: |r| <= i < |s| ==> IsSpace(s[i])
    ensures r != [] ==> !IsSpace(r[|r| - 1])
  {
    if s != [] && IsSpace(s[|s| - 1]) then TrimEnd(s[..|s| - 1]) else s
  }

  /** `r` is `s` with `k` whitespace characters cut from its start and only
      whitespace cut from its end. */
  predicate IsTrimmedAt(s: string, k: int, r: string)
  {
    0 <= k <= |s| - |r| && r == s[k..k + |r|] &&
    (forall i :: 0 <= i < k ==> IsSpace(s[i])) &&
    (forall i :: k + |r| <= i < |s| ==> IsSpace(s[i]))
  }

  /** `String.prototype.trim`: the result neither starts nor ends with
      whitespace; `TrimIsFactor` shows what was cut away. */
  function Trim(s: string): (r: string)
    ensures |r| <= |s|
    ensures r != [] ==> !IsSpace(r[0]) && !IsSpace(r[|r| - 1])
  {
    TrimEnd(TrimStart(s))
  }

  /** The result of `Trim` is a factor of its input, and everything cut away
      is whitespace. */
  lemma TrimIsFactor(s: string)
    ensures exists k :: IsTrimmedAt(s, k, Trim(s))
  {
    var t := TrimStart(s);
    var r := TrimEnd(t);
    var k := |s| - |t|;
    assert r == Trim(s);
    assert s[k..k + |r|] == t[..|r|] == r;
    forall i | k + |r| <= i < |s|
      ensures IsSpace(s[i])
    {
      assert s[i] == t[i - k];
    }
    assert IsTrimmedAt(s, k, r);
  }

  /** `x` has no leading and no trailing whitespace. */
  predicate IsTrimmed(x: string)
  {
    x == "" || (!IsSpace(x[0]) && !IsSpace(x[|x| - 1]))
  }

  /** The end of the whitespace run starting at `i` (`\s+` is greedy). */
  function SkipSpaces(s: string, i: nat): (e: nat)
    requires i <= |s|
    ensures i <= e <= |s|
    ensures forall k :: i <= k < e ==> IsSpace(s[k])
    ensures e < |s| ==> !IsSpace(s[e])
    decreases |s| - i
  {
    if i < |s| && IsSpace(s[i]) then SkipSpaces(s, i + 1) else i
  }

  /** JavaScript's `!text.trim()`: the text is empty or whitespace only. */
  predicate IsBlank(s: string)
  {
    Trim(s) == ""
  }

  /** `s` starts with `prefix`. */
  predicate StartsWith(s: string, prefix: string)
  {
    |prefix| <= |s| && s[..|prefix|] == prefix
  }

  /** `s` ends with `suffix`. */
  predicate EndsWith(s: string, suffix: string)
  {
    |suffix| <= |s| && s[|s| - |suffix|..] == suffix
  }

  /** `sub` occurs in `s` at index `i`. */
  predicate OccursAt(s: string, i: int, sub: string)
  {
    0 <= i && i + |sub| <= |s| && s[i..i + |sub|] == sub
  }

  /** Where the three parts of `x + y + z` sit. */
  lemma ThreeParts(x: string, y: string, z: string)
    ensures StartsWith(x + y + z, x)
    ensures OccursAt(x + y + z, |x|, y)
    ensures OccursAt(x + y + z, |x| + |y|, z)
    ensures EndsWith(x + (y + z), z)
  {
    assert (x + y + z)[..|x|] == x;
    assert (x + y + z)[|x|..|x| + |y|] == y;
    assert (x + y + z)[|x| + |y|..] == z;
    assert x + (y + z) == x + y + z;
  }

  /** `String.prototype.includes`. */
  predicate Includes(s: string, sub: string)
  {
    exists i :: 0 <= i <= |s| - |sub| && OccursAt(s, i, sub)
  }

  /** `error?.message?.includes(sub)` as a condition: a missing message is falsy. */
  predicate MessageIncludes(message: Option<string>, sub: string)
  {
    message.Some? && Includes(message.value, sub)
  }

  /** JavaScript truthiness of a `string | null`: null and "" are falsy. */
  predicate Truthy(s: Option<string>)
  {
    s.Some? && s.value != ""
  }
}
