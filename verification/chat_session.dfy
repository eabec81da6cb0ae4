/** The chat-session hook: the message history, the typing reveal of a bot
    reply, its subtitle timers, and the send-and-await cycle of one user
    message.

    The browser's timer table is part of the state: `pending` holds the
    subtitle timeouts that have not fired or been cleared, keyed by their
    handle, and `typingInterval` the running reveal interval. Handles come
    from one counter and are positive, as the browser's are. Time itself is
    not modelled: a timeout records its delay, and `FireTimeout` and `Tick`
    are the callbacks the browser runs. The awaited calls of
    `processUserMessage` are split around their `await`s: `Submit` is the
    synchronous part, `Complete` the continuation, given how each awaited call
    ended. */
module ChatSession {
  import opened Common
  import opened SentenceSplitter
  import opened SubtitleTimeline
  import opened JsonFence

  /** A pending subtitle timeout: after `delay` milliseconds it shows `show`
      (the empty string clears the subtitle). */
  datatype SubtitleTimer = SubtitleTimer(delay: real, show: string)

  /** The running typing interval: its handle, the reply it reveals and how
      many characters it has revealed. */
  datatype Reveal = Reveal(handle: nat, text: string, charIndex: nat)

  /** What a completed turn hands back to the screen. */
  datatype TurnResult = TurnResult(
    text: string,
    audio: Option<string>,
    preferences: Option<OnsenPreferences>)

  /** The handles `first`, `first + 1`, ..., `first + n - 1`. */
  function Handles(first: nat, n: nat): (r: seq<nat>)
    ensures |r| == n
    ensures forall k :: 0 <= k < n ==> r[k] == first + k
  {
    seq(n, k => first + k)
  }

  /** The subtitle timeouts for the first `i` sentences, on consecutive
      handles from `first`: each shows its sentence at its show time. */
  function SentenceTimers(first: nat, ss: seq<string>, i: nat): (m: map<nat, SubtitleTimer>)
    requires i <= |ss|
    ensures forall h :: h in m <==> first <= h < first + i
    ensures forall h :: h in m ==> m[h] == SubtitleTimer(ShowTime(ss, h - first), ss[h - first])
  {
    if i == 0 then map[]
    else SentenceTimers(first, ss, i - 1)[first + i - 1 := SubtitleTimer(ShowTime(ss, i - 1), ss[i - 1])]
  }

  /** The subtitle timeouts a reply schedules: one per sentence at its show
      time, then the clearing timeout two seconds after the last sentence. */
  function Schedule(first: nat, ss: seq<string>): (m: map<nat, SubtitleTimer>)
    ensures forall h :: h in m <==> first <= h <= first + |ss|
  {
    SentenceTimers(first, ss, |ss|)[first + |ss| := SubtitleTimer(ClearTime(ss), "")]
  }

  /** What each scheduled timeout shows, and when. */
  lemma ScheduleAt(first: nat, ss: seq<string>, h: nat)
    requires h in Schedule(first, ss)
    ensures h < first + |ss| ==>
      Schedule(first, ss)[h] == SubtitleTimer(ShowTime(ss, h - first), ss[h - first])
    ensures h == first + |ss| ==> Schedule(first, ss)[h] == SubtitleTimer(ClearTime(ss), "")
  {
  }

  /** The schedule of non-empty sentences shows every sentence once, in
      order, each strictly later than the one before, and clears the subtitle
      after all of them. */
  lemma ScheduleInOrder(first: nat, ss: seq<string>, h1: nat, h2: nat)
    requires forall k :: 0 <= k < |ss| ==> ss[k] != ""
    requires h1 in Schedule(first, ss) && h2 in Schedule(first, ss) && h1 < h2
    ensures Schedule(first, ss)[h1].delay < Schedule(first, ss)[h2].delay
    ensures Schedule(first, ss)[h1].show == ss[h1 - first]
    ensures h2 < first + |ss| ==> Schedule(first, ss)[h2].show == ss[h2 - first]
    ensures Schedule(first, ss)[h2].show == "" <==> h2 == first + |ss|
  {
    var m := Schedule(first, ss);
    var i, j := h1 - first, h2 - first;
    ScheduleAt(first, ss, h1);
    ScheduleAt(first, ss, h2);
    if j < |ss| {
      ShowTimesOrdered(ss, i, j);
    } else {
      ClearAfterEveryShow(ss, i);
    }
  }

  /** A reply's subtitles come in order: its sentences are non-empty, so the
      schedule shows each strictly after the previous one and clears last. */
  lemma ReplyScheduleInOrder(first: nat, text: string, h1: nat, h2: nat)
    requires h1 in Schedule(first, SplitIntoSentences(text))
    requires h2 in Schedule(first, SplitIntoSentences(text)) && h1 < h2
    ensures var m := Schedule(first, SplitIntoSentences(text));
      m[h1].delay < m[h2].delay && m[h1].show != ""
  {
    ScheduleInOrder(first, SplitIntoSentences(text), h1, h2);
  }

  /** One more sentence timeout, at the cumulative delay so far, extends
      the timers and the handles by one. */
  lemma ScheduleStep(first: nat, ss: seq<string>, i: nat)
    requires i < |ss|
    ensures SentenceTimers(first, ss, i)[first + i := SubtitleTimer(TotalDuration(ss[..i]), ss[i])]
      == SentenceTimers(first, ss, i + 1)
    ensures TotalDuration(ss[..i]) + Duration(ss[i]) == TotalDuration(ss[..i + 1])
    ensures Handles(first, i) + [first + i] == Handles(first, i + 1)
  {
    assert ss[..i + 1][..i] == ss[..i];
  }

  /** The sentence timeouts and the clearing timeout make up the schedule. */
  lemma ScheduleComplete(first: nat, ss: seq<string>, timers: map<nat, SubtitleTimer>, delay: real)
    requires timers == SentenceTimers(first, ss, |ss|) && delay == TotalDuration(ss[..|ss|])
    ensures timers[first + |ss| := SubtitleTimer(delay + ClearDelayMs, "")] == Schedule(first, ss)
  {
    assert ss[..|ss|] == ss;
  }

  lemma HandlesSnoc(first: nat, n: nat)
    ensures Handles(first, n) + [first + n] == Handles(first, n + 1)
  {
  }

  /** The timer table and the remembered handles agree with the handle
      counter: handles are positive and already handed out, and every pending
      timeout is remembered. */
  predicate TimersValid(next: nat, pending: map<nat, SubtitleTimer>, refs: seq<nat>)
  {
    1 <= next &&
    (forall h :: h in pending ==> 1 <= h < next && h in refs) &&
    (forall k :: 0 <= k < |refs| ==> 1 <= refs[k] < next)
  }

  /** While the reveal runs, the session is typing and shows exactly the
      revealed prefix of the reply. */
  predicate RevealValid(next: nat, interval: Option<Reveal>, isTyping: bool, shown: string)
  {
    interval.Some? ==>
      var r := interval.value;
      1 <= r.handle < next && isTyping &&
      r.charIndex <= |r.text| && shown == r.text[..r.charIndex]
  }

  /** A freshly scheduled reply leaves the timer table consistent. */
  lemma ScheduleValid(first: nat, ss: seq<string>)
    requires 1 <= first
    ensures TimersValid(first + |ss| + 1, Schedule(first, ss), Handles(first, |ss| + 1))
  {
    forall h | h in Schedule(first, ss)
      ensures h in Handles(first, |ss| + 1)
    {
      assert Handles(first, |ss| + 1)[h - first] == h;
    }
  }

  /** The `forEach` of `runTypingEffect` and its final timeout: the timers
      set, on handles handed out from `first` (as `window.setTimeout` does),
      their handles in the order they were set, and the next free handle. */
  method ScheduleTimeouts(first: nat, sentences: seq<string>)
      returns (timers: map<nat, SubtitleTimer>, refs: seq<nat>, next: nat)
    ensures timers == Schedule(first, sentences)
    ensures refs == Handles(first, |sentences| + 1)
    ensures next == first + |sentences| + 1
  {
    timers, refs, next := map[], [], first;
    var cumulativeDelay := 0.0;
    for i := 0 to |sentences|
      invariant next == first + i
      invariant cumulativeDelay == TotalDuration(sentences[..i])
      invariant timers == SentenceTimers(first, sentences, i)
      invariant refs == Handles(first, i)
    {
      var duration := Duration(sentences[i]);
      var timeoutId := next;
      next := next + 1;
      timers := timers[timeoutId := SubtitleTimer(cumulativeDelay, sentences[i])];
      refs := refs + [timeoutId];
      ScheduleStep(first, sentences, i);
      cumulativeDelay := cumulativeDelay + duration;
    }
    ScheduleComplete(first, sentences, timers, cumulativeDelay);
    HandlesSnoc(first, |sentences|);
    var finalTimeoutId := next;
    next := next + 1;
    timers := timers[finalTimeoutId := SubtitleTimer(cumulativeDelay + ClearDelayMs, "")];
    refs := refs + [finalTimeoutId];
  }

  class Session {
    var messages: seq<ChatMessage>
    var currentBotMessage: string
    var currentSubtitle: string
    var isTyping: bool
    var isLoading: bool
    var lastBotAudio: Option<string>
    var typingInterval: Option<Reveal>
    var subtitleTimeoutRefs: seq<nat>
    var pending: map<nat, SubtitleTimer>
    var nextHandle: nat

    /** Handles are positive and below the counter; every pending timeout is
        remembered in `subtitleTimeoutRefs`; while the reveal runs the session
        is typing and shows exactly the revealed prefix of the reply. */
    predicate Valid()
      reads this
    {
      TimersValid(nextHandle, pending, subtitleTimeoutRefs) &&
      RevealValid(nextHandle, typingInterval, isTyping, currentBotMessage)
    }

    /** The hook's initial state: no history, nothing typing or loading. */
    constructor ()
      ensures Valid()
      ensures messages == [] && currentBotMessage == "" && currentSubtitle == ""
      ensures !isTyping && !isLoading && lastBotAudio == None
      ensures typingInterval == None && subtitleTimeoutRefs == [] && pending == map[]
    {
      messages := [];
      currentBotMessage := "";
      currentSubtitle := "";
      isTyping := false;
      isLoading := false;
      lastBotAudio := None;
      typingInterval := None;
      subtitleTimeoutRefs := [];
      pending := map[];
      nextHandle := 1;
    }

    /** `clearTimeouts`: clears every remembered timeout and the reveal
        interval; nothing else changes. */
    method ClearTimeouts()
      requires Valid()
      modifies this
      ensures Valid()
      ensures pending == map[] && subtitleTimeoutRefs == [] && typingInterval == None
      ensures nextHandle == old(nextHandle)
      ensures messages == old(messages) && currentBotMessage == old(currentBotMessage)
      ensures currentSubtitle == old(currentSubtitle) && isTyping == old(isTyping)
      ensures isLoading == old(isLoading) && lastBotAudio == old(lastBotAudio)
    {
      var refs := subtitleTimeoutRefs;
      var remaining := pending;
      for i := 0 to |refs|
        modifies {}
        invariant remaining == map h | h in pending && h !in refs[..i] :: pending[h]
      {
        // window.clearTimeout(refs[i])
        remaining := map h | h in remaining && h != refs[i] :: remaining[h];
      }
      assert refs[..|refs|] == refs;
      pending := remaining;
      subtitleTimeoutRefs := [];
      if typingInterval.Some? {
        typingInterval := None;
      }
    }

    /** `runTypingEffect`: starts the reveal of `text` from its first
        character and schedules the subtitles of its sentences, replacing
        whatever was pending. */
    /** The timers right after the reveal of `text` starts on handle
        `first`: the interval holds `first`, and the subtitle timeouts hold
        the handles after it, one per sentence and one that clears. */
    predicate TypingStarted(first: nat, text: string)
      reads this
    {
      var ss := SplitIntoSentences(text);
      typingInterval == Some(Reveal(first, text, 0)) &&
      subtitleTimeoutRefs == Handles(first + 1, |ss| + 1) &&
      pending == Schedule(first + 1, ss) &&
      nextHandle == first + |ss| + 2
    }

    method RunTypingEffect(text: string)
      requires Valid()
      modifies this
      ensures Valid()
      ensures TypingStarted(old(nextHandle), text)
      ensures isTyping && currentBotMessage == ""
      ensures typingInterval == Some(Reveal(old(nextHandle), text, 0))
      ensures var ss := SplitIntoSentences(text);
        subtitleTimeoutRefs == Handles(old(nextHandle) + 1, |ss| + 1) &&
        pending == Schedule(old(nextHandle) + 1, ss) &&
        nextHandle == old(nextHandle) + |ss| + 2
      ensures messages == old(messages) && currentSubtitle == old(currentSubtitle)
      ensures isLoading == old(isLoading) && lastBotAudio == old(lastBotAudio)
    {
      var sentences := SplitIntoSentences(text);
      StartTyping(text, sentences);
    }

    /** The body of `runTypingEffect` once the sentences of `text` are known:
        the old timers are cleared, the reveal interval takes the next handle
        and the subtitle timeouts the ones after it. */
    method StartTyping(text: string, sentences: seq<string>)
      requires Valid()
      modifies this
      ensures Valid()
      ensures isTyping && currentBotMessage == ""
      ensures typingInterval == Some(Reveal(old(nextHandle), text, 0))
      ensures subtitleTimeoutRefs == Handles(old(nextHandle) + 1, |sentences| + 1)
      ensures pending == Schedule(old(nextHandle) + 1, sentences)
      ensures nextHandle == old(nextHandle) + |sentences| + 2
      ensures messages == old(messages) && currentSubtitle == old(currentSubtitle)
      ensures isLoading == old(isLoading) && lastBotAudio == old(lastBotAudio)
    {
      ClearTimeouts();
      SetTimers(text, sentences);
    }

    /** Sets the reveal interval and the subtitle timeouts on a cleared timer
        table. */
    method SetTimers(text: string, sentences: seq<string>)
      requires Valid() && pending == map[] && subtitleTimeoutRefs == [] && typingInterval == None
      modifies this
      ensures Valid()
      ensures isTyping && currentBotMessage == ""
      ensures typingInterval == Some(Reveal(old(nextHandle), text, 0))
      ensures subtitleTimeoutRefs == Handles(old(nextHandle) + 1, |sentences| + 1)
      ensures pending == Schedule(old(nextHandle) + 1, sentences)
      ensures nextHandle == old(nextHandle) + |sentences| + 2
      ensures messages == old(messages) && currentSubtitle == old(currentSubtitle)
      ensures isLoading == old(isLoading) && lastBotAudio == old(lastBotAudio)
    {
      // 1. the typing interval (`window.setInterval`, every 50 ms)
      var intervalId := nextHandle;
      // 2. the subtitle timeouts
      var timers, refs, next := ScheduleTimeouts(intervalId + 1, sentences);
      ScheduleValid(intervalId + 1, sentences);
      assert TimersValid(next, timers, refs);
      assert RevealValid(next, Some(Reveal(intervalId, text, 0)), true, "") by {
        assert text[..0] == "";
      }
      isTyping, currentBotMessage, typingInterval, pending, subtitleTimeoutRefs, nextHandle :=
        true, "", Some(Reveal(intervalId, text, 0)), timers, refs, next;
    }

    /** One run of the reveal interval: shows one more character, or, once the
        whole reply is shown, stops the interval, ends typing and appends the
        reply to the history. */
    method Tick()
      requires Valid() && typingInterval.Some?
      modifies this
      ensures Valid()
      ensures var r := old(typingInterval.value);
        if r.charIndex < |r.text| then
          typingInterval == Some(r.(charIndex := r.charIndex + 1)) &&
          currentBotMessage == r.text[..r.charIndex + 1] &&
          isTyping && messages == old(messages)
        else
          typingInterval == None && !isTyping && currentBotMessage == r.text &&
          messages == old(messages) + [ChatMessage(Bot, r.text)]
      ensures currentSubtitle == old(currentSubtitle) && isLoading == old(isLoading)
      ensures lastBotAudio == old(lastBotAudio) && pending == old(pending)
      ensures subtitleTimeoutRefs == old(subtitleTimeoutRefs) && nextHandle == old(nextHandle)
    {
      var r := typingInterval.value;
      if r.charIndex < |r.text| {
        currentBotMessage := r.text[..r.charIndex + 1];
        typingInterval := Some(r.(charIndex := r.charIndex + 1));
      } else {
        assert r.text[..r.charIndex] == r.text;
        typingInterval := None;
        isTyping := false;
        messages := messages + [ChatMessage(Bot, r.text)];
      }
    }

    /** A pending subtitle timeout fires: it shows its sentence (or clears the
        subtitle) and is no longer pending; its handle stays remembered. */
    method FireTimeout(h: nat)
      requires Valid() && h in pending
      modifies this
      ensures Valid()
      ensures currentSubtitle == old(pending[h].show)
      ensures pending == map k | k in old(pending) && k != h :: old(pending)[k]
      ensures messages == old(messages) && currentBotMessage == old(currentBotMessage)
      ensures isTyping == old(isTyping) && isLoading == old(isLoading)
      ensures lastBotAudio == old(lastBotAudio) && typingInterval == old(typingInterval)
      ensures subtitleTimeoutRefs == old(subtitleTimeoutRefs) && nextHandle == old(nextHandle)
    {
      currentSubtitle := pending[h].show;
      pending := map k | k in pending && k != h :: pending[k];
    }

    /** The exported `setCurrentSubtitle`. */
    method SetCurrentSubtitle(s: string)
      modifies this
      ensures currentSubtitle == s
      ensures messages == old(messages) && currentBotMessage == old(currentBotMessage)
      ensures isTyping == old(isTyping) && isLoading == old(isLoading)
      ensures lastBotAudio == old(lastBotAudio) && typingInterval == old(typingInterval)
      ensures subtitleTimeoutRefs == old(subtitleTimeoutRefs) && pending == old(pending)
      ensures nextHandle == old(nextHandle)
    {
      currentSubtitle := s;
    }

    /** The synchronous part of `processUserMessage`: refused (nothing changes)
        while a reply is typing or loading; otherwise clears the timers, the
        subtitle and the last audio, appends the user's message and starts
        loading. */
    method Submit(userInput: string) returns (accepted: bool)
      requires Valid()
      modifies this
      ensures Valid()
      ensures accepted <==> !old(isTyping) && !old(isLoading)
      ensures !accepted ==>
        messages == old(messages) && currentBotMessage == old(currentBotMessage) &&
        currentSubtitle == old(currentSubtitle) && isTyping == old(isTyping) &&
        isLoading == old(isLoading) && lastBotAudio == old(lastBotAudio) &&
        typingInterval == old(typingInterval) && pending == old(pending) &&
        subtitleTimeoutRefs == old(subtitleTimeoutRefs) && nextHandle == old(nextHandle)
      ensures accepted ==>
        messages == old(messages) + [ChatMessage(User, userInput)] &&
        isLoading && !isTyping && currentBotMessage == "" && currentSubtitle == "" &&
        lastBotAudio == None && typingInterval == None && pending == map[] &&
        subtitleTimeoutRefs == [] && nextHandle == old(nextHandle)
    {
      if isTyping || isLoading {
        return false;
      }
      ClearTimeouts();
      currentSubtitle := "";
      lastBotAudio := None;
      messages := messages + [ChatMessage(User, userInput)];
      isLoading := true;
      currentBotMessage := "";
      accepted := true;
    }

    /** The continuation of `processUserMessage` once the bot's reply and then
        its speech have been awaited (`speech` is ignored when the reply
        failed, since it is then never requested). A failure of either ends
        loading and yields no result; otherwise the reply's audio becomes the
        last audio and the reply, its audio and the preferences read from its
        json fence are handed back. */
    method Complete(reply: Call<string>, speech: Call<Option<string>>,
                    parse: string -> Option<OnsenPreferences>) returns (result: Option<TurnResult>)
      requires Valid()
      modifies this
      ensures Valid()
      ensures !isLoading
      ensures result.Some? <==> reply.Returned? && speech.Returned?
      ensures result.Some? ==>
        result.value == TurnResult(reply.value, speech.value, ExtractPreferences(reply.value, parse)) &&
        lastBotAudio == speech.value
      ensures result.None? ==> lastBotAudio == old(lastBotAudio)
      ensures messages == old(messages) && currentBotMessage == old(currentBotMessage)
      ensures currentSubtitle == old(currentSubtitle) && isTyping == old(isTyping)
      ensures typingInterval == old(typingInterval) && pending == old(pending)
      ensures subtitleTimeoutRefs == old(subtitleTimeoutRefs) && nextHandle == old(nextHandle)
    {
      if reply.Threw? {
        isLoading := false;
        return None;
      }
      var botResponseText := reply.value;
      var preferences := ExtractPreferences(botResponseText, parse);
      if speech.Threw? {
        isLoading := false;
        return None;
      }
      var audioData := speech.value;
      lastBotAudio := audioData;
      isLoading := false;
      result := Some(TurnResult(botResponseText, audioData, preferences));
    }
  }
}
