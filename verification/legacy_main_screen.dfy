/** The earlier main screen: a bot-only history revealed one character per
    tick, a send guard, and a full-screen image viewer toggled from the
    keyboard. */
module LegacyMainScreen {
  import opened Common

  const Greeting := "Hey there! What are you curious about today?"

  /** The history starts as a single bot greeting. */
  const InitialHistory := [ChatMessage(Bot, Greeting)]

  // ---------------------------------------------------------------------------
  // The reveal interval

  /** A running interval: the text it reveals and the next character index. */
  datatype Typing = Typing(text: string, charIndex: nat)

  /** What the reveal drives: the shown text, the typing flag and the
      interval (if one is running). */
  datatype Reveal = Reveal(shown: string, isTyping: bool, interval: Option<Typing>)

  /** The effect's first updates: the buffer is emptied, typing starts and an
      interval with `charIndex = 0` is set up. */
  function StartReveal(text: string): Reveal
  {
    Reveal("", true, Some(Typing(text, 0)))
  }

  /** One firing of the interval: the next character is appended while any
      remain; after that the interval is cleared and typing ends. With no
      interval running nothing fires. */
  function TickSpec(r: Reveal): Reveal
  {
    match r.interval
    case None => r
    case Some(t) =>
      if t.charIndex < |t.text| then
        r.(shown := r.shown + [t.text[t.charIndex]], interval := Some(t.(charIndex := t.charIndex + 1)))
      else
        r.(isTyping := false, interval := None)
  }

  /** `k` firings of the interval. */
  function Ticks(r: Reveal, k: nat): Reveal
    decreases k
  {
    if k == 0 then r else Ticks(TickSpec(r), k - 1)
  }

  /** Midway through a reveal, `k` more firings show `k` more characters. */
  lemma {:induction false} TicksMidway(text: string, j: nat, k: nat)
    requires j + k <= |text|
    ensures Ticks(Reveal(text[..j], true, Some(Typing(text, j))), k) ==
            Reveal(text[..j + k], true, Some(Typing(text, j + k)))
    decreases k
  {
    if k > 0 {
      assert text[..j] + [text[j]] == text[..j + 1];
      TicksMidway(text, j + 1, k - 1);
    }
  }

  /** After tick `k` (for `k` up to the length) the buffer is the first `k`
      characters and typing continues. */
  lemma RevealProgress(text: string, k: nat)
    requires k <= |text|
    ensures Ticks(StartReveal(text), k) == Reveal(text[..k], true, Some(Typing(text, k)))
  {
    assert text[..0] == "";
    TicksMidway(text, 0, k);
  }

  /** The tick after the last character clears the interval and ends typing
      with the whole text shown; later ticks change nothing. */
  lemma {:induction false} RevealCompletes(text: string, k: nat)
    requires k > |text|
    ensures Ticks(StartReveal(text), k) == Reveal(text, false, None)
  {
    RevealProgress(text, |text|);
    assert text[..|text|] == text;
    TicksAfter(StartReveal(text), |text|, k - |text|);
    IdleTicks(Reveal(text, false, None), k - |text| - 1);
  }

  /** Firings compose. */
  lemma {:induction false} TicksAfter(r: Reveal, a: nat, b: nat)
    ensures Ticks(r, a + b) == Ticks(Ticks(r, a), b)
    decreases a
  {
    if a > 0 {
      TicksAfter(TickSpec(r), a - 1, b);
    }
  }

  /** With no interval running, ticks change nothing. */
  lemma {:induction false} IdleTicks(r: Reveal, k: nat)
    requires r.interval.None?
    ensures Ticks(r, k) == r
    decreases k
  {
    if k > 0 {
      IdleTicks(r, k - 1);
    }
  }

  // ---------------------------------------------------------------------------
  // The keyboard

  /** The viewer after a keydown: Space opens it unless an INPUT element has
      focus, Escape closes it when it is open. */
  function ViewerAfterKey(isOpen: bool, code: string, activeTag: Option<string>): bool
  {
    var afterSpace := if code == "Space" && activeTag != Some("INPUT") then true else isOpen;
    if code == "Escape" && isOpen then false else afterSpace
  }

  /** Space opens the viewer unless typing in an input; Escape always leaves
      it closed; any other key, or Space while typing, leaves it as it was. */
  lemma KeyCases(isOpen: bool, code: string, activeTag: Option<string>)
    ensures code == "Space" ==> ViewerAfterKey(isOpen, code, activeTag) == (isOpen || activeTag != Some("INPUT"))
    ensures code == "Escape" ==> !ViewerAfterKey(isOpen, code, activeTag)
    ensures code != "Space" && code != "Escape" ==> ViewerAfterKey(isOpen, code, activeTag) == isOpen
  {
  }

  // ---------------------------------------------------------------------------
  // The screen

  class Screen {
    var messages: seq<ChatMessage>
    var currentBotMessage: string
    var isTyping: bool
    var isLoading: bool
    var isImageViewerOpen: bool
    var interval: Option<Typing>

    function View(): Reveal
      reads this
    {
      Reveal(currentBotMessage, isTyping, interval)
    }

    /** The history holds only bot messages and is never empty; a running
        interval reveals the last one, typing is on exactly while it runs,
        and the buffer is the prefix shown so far. */
    predicate Valid()
      reads this
    {
      messages != [] &&
      (forall i :: 0 <= i < |messages| ==> messages[i].sender == Bot) &&
      (isTyping <==> interval.Some?) &&
      (interval.Some? ==>
        interval.value.text == messages[|messages| - 1].text &&
        interval.value.charIndex <= |interval.value.text| &&
        currentBotMessage == interval.value.text[..interval.value.charIndex])
    }

    /** The initial state, after the mount effect has started revealing the
        greeting. */
    constructor ()
      ensures Valid()
      ensures messages == InitialHistory && !isLoading && !isImageViewerOpen
      ensures View() == StartReveal(Greeting)
    {
      messages := InitialHistory;
      currentBotMessage := "";
      isTyping := false;
      isLoading := false;
      isImageViewerOpen := false;
      interval := None;
      new;
      MessagesChanged();
    }

    /** The effect that runs when `messages` changes: the previous interval
        is cleared, and when the last message is from the bot a new reveal
        of it starts. */
    method MessagesChanged()
      requires messages != []
      modifies this
      ensures messages == old(messages) && isLoading == old(isLoading)
      ensures isImageViewerOpen == old(isImageViewerOpen)
      ensures messages[|messages| - 1].sender == Bot ==> View() == StartReveal(messages[|messages| - 1].text)
      ensures messages[|messages| - 1].sender != Bot ==> View() == old(View()).(interval := None)
    {
      interval := None;
      var lastMessage := messages[|messages| - 1];
      if lastMessage.sender == Bot {
        isTyping := true;
        currentBotMessage := "";
        interval := Some(Typing(lastMessage.text, 0));
      }
    }

    /** One firing of the reveal interval. */
    method Tick()
      requires Valid()
      modifies this
      ensures Valid()
      ensures View() == TickSpec(old(View()))
      ensures messages == old(messages) && isLoading == old(isLoading)
      ensures isImageViewerOpen == old(isImageViewerOpen)
    {
      if interval.Some? {
        var t := interval.value;
        if t.charIndex < |t.text| {
          assert t.text[..t.charIndex] + [t.text[t.charIndex]] == t.text[..t.charIndex + 1];
          currentBotMessage := currentBotMessage + [t.text[t.charIndex]];
          interval := Some(t.(charIndex := t.charIndex + 1));
        } else {
          interval := None;
          isTyping := false;
        }
      }
    }

    /** `handleSendMessage` up to its `await`: ignored while typing or
        loading; otherwise loading starts. The user's message is not added
        to the history. */
    method SendMessage(userInput: string) returns (accepted: bool)
      requires Valid()
      modifies this
      ensures Valid()
      ensures accepted <==> !old(isTyping) && !old(isLoading)
      ensures messages == old(messages) && View() == old(View())
      ensures isImageViewerOpen == old(isImageViewerOpen)
      ensures isLoading == (old(isLoading) || accepted)
    {
      if isTyping || isLoading {
        return false;
      }
      isLoading := true;
      accepted := true;
    }

    /** `handleSendMessage` after the bot replied (its reply service answers
        every failure with an apology text, so the await never rejects): the
        reply is appended as the last message, loading ends, and the effect
        starts revealing it. */
    method ReplyArrived(botResponseText: string)
      requires Valid()
      modifies this
      ensures Valid()
      ensures messages == old(messages) + [ChatMessage(Bot, botResponseText)]
      ensures !isLoading && isImageViewerOpen == old(isImageViewerOpen)
      ensures View() == StartReveal(botResponseText)
    {
      messages := messages + [ChatMessage(Bot, botResponseText)];
      isLoading := false;
      MessagesChanged();
    }

    /** The keydown listener; returns whether the default was prevented. */
    method KeyDown(code: string, activeTag: Option<string>) returns (preventDefault: bool)
      requires Valid()
      modifies this
      ensures Valid()
      ensures isImageViewerOpen == ViewerAfterKey(old(isImageViewerOpen), code, activeTag)
      ensures preventDefault <==> code == "Space" && activeTag != Some("INPUT")
      ensures messages == old(messages) && View() == old(View()) && isLoading == old(isLoading)
    {
      var wasOpen := isImageViewerOpen;
      preventDefault := false;
      if code == "Space" && activeTag != Some("INPUT") {
        preventDefault := true;
        isImageViewerOpen := true;
      }
      if code == "Escape" && wasOpen {
        isImageViewerOpen := false;
      }
    }

    /** Clicking the viewer closes it. */
    method CloseViewer()
      requires Valid()
      modifies this
      ensures Valid() && !isImageViewerOpen
      ensures messages == old(messages) && View() == old(View()) && isLoading == old(isLoading)
    {
      isImageViewerOpen := false;
    }
  }
}
