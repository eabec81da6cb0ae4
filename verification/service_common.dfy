/** What the chat service variants share: the development modes, the scripted
    mock conversation that several of them run before (or instead of) the
    real chat, how a chat call's outcome becomes the reply text, the speech
    guard, and how base64 image data is picked out of image responses. */
module ServiceCommon {
  import opened Common
  import JsonFence

  /** `DEV_MODE`: never reassigned, so a parameter of the model. */
  datatype DevMode = Developing | FastDevelop | Test

  const ConnectionApology := "Sorry, I seem to be having trouble connecting. Please try again later."
  const QuotaMessage := "I apologize, but I've reached my daily conversation limit. Please try again in 24 hours."
  const ThankYou := "Thank you. I have everything I need. Now, allow me to prepare a visual representation of your unique onsen. Please give me a moment."

  /** The preferences the mock conversation hands back. */
  const MockPreferences := OnsenPreferences(
    WellbeingProfile("dry", "shoulders", "high", "hot", "relaxation"),
    AestheticProfile("traditional cedar wood", "warm autumn tones", "starry night"))

  /** A JSON string for text that needs no escaping. */
  function Quote(s: string): string
  {
    "\"" + s + "\""
  }

  /** Object members, one per line at `indent`, separated by commas. */
  function Members(indent: string, members: seq<(string, string)>): string
  {
    if members == [] then ""
    else
      var line := indent + Quote(members[0].0) + ": " + members[0].1;
      if |members| == 1 then line else line + ",\n" + Members(indent, members[1..])
  }

  /** A non-empty object at nesting `indent`, laid out as
      `JSON.stringify(value, null, 2)` lays it out. */
  function Object(indent: string, members: seq<(string, string)>): string
  {
    "{\n" + Members(indent + "  ", members) + "\n" + indent + "}"
  }

  /** `JSON.stringify(preferences, null, 2)` for preferences whose texts need
      no escaping. */
  function Stringify(p: OnsenPreferences): string
  {
    var w := p.wellbeingProfile;
    var a := p.aestheticProfile;
    Object("", [
      ("wellbeingProfile", Object("  ", [
        ("skinType", Quote(w.skinType)), ("muscleSoreness", Quote(w.muscleSoreness)),
        ("stressLevel", Quote(w.stressLevel)), ("waterTemperature", Quote(w.waterTemperature)),
        ("healthGoals", Quote(w.healthGoals))])),
      ("aestheticProfile", Object("  ", [
        ("atmosphere", Quote(a.atmosphere)), ("colorPalette", Quote(a.colorPalette)),
        ("timeOfDay", Quote(a.timeOfDay))]))])
  }

  /** No preference text holds a backtick. */
  predicate BacktickFree(p: OnsenPreferences)
  {
    var w := p.wellbeingProfile;
    var a := p.aestheticProfile;
    JsonFence.NoBacktick(w.skinType) && JsonFence.NoBacktick(w.muscleSoreness) &&
    JsonFence.NoBacktick(w.stressLevel) && JsonFence.NoBacktick(w.waterTemperature) &&
    JsonFence.NoBacktick(w.healthGoals) && JsonFence.NoBacktick(a.atmosphere) &&
    JsonFence.NoBacktick(a.colorPalette) && JsonFence.NoBacktick(a.timeOfDay)
  }

  lemma NoBacktickJoin(x: string, y: string)
    ensures JsonFence.NoBacktick(x + y) <==> JsonFence.NoBacktick(x) && JsonFence.NoBacktick(y)
  {
    if JsonFence.NoBacktick(x) && JsonFence.NoBacktick(y) {
      forall k | 0 <= k < |x + y|
        ensures (x + y)[k] != '`'
      {
        if k >= |x| {
          assert (x + y)[k] == y[k - |x|];
        }
      }
    }
    if JsonFence.NoBacktick(x + y) {
      forall k | 0 <= k < |x|
        ensures x[k] != '`'
      {
        assert (x + y)[k] == x[k];
      }
      forall k | 0 <= k < |y|
        ensures y[k] != '`'
      {
        assert (x + y)[|x| + k] == y[k];
      }
    }
  }

  /** Members built from backtick-free text are backtick-free. */
  lemma {:induction false} MembersClean(indent: string, members: seq<(string, string)>)
    requires JsonFence.NoBacktick(indent)
    requires forall i :: 0 <= i < |members| ==> JsonFence.NoBacktick(members[i].0) && JsonFence.NoBacktick(members[i].1)
    ensures JsonFence.NoBacktick(Members(indent, members))
    decreases |members|
  {
    if members != [] {
      var key := members[0].0;
      NoBacktickJoin("\"", key);
      NoBacktickJoin("\"" + key, "\"");
      NoBacktickJoin(indent, Quote(key));
      NoBacktickJoin(indent + Quote(key), ": ");
      var line := indent + Quote(key) + ": " + members[0].1;
      NoBacktickJoin(indent + Quote(key) + ": ", members[0].1);
      if |members| > 1 {
        MembersClean(indent, members[1..]);
        NoBacktickJoin(line, ",\n");
        NoBacktickJoin(line + ",\n", Members(indent, members[1..]));
      }
    }
  }

  /** An object built from backtick-free text is backtick-free. */
  lemma ObjectClean(indent: string, members: seq<(string, string)>)
    requires JsonFence.NoBacktick(indent)
    requires forall i :: 0 <= i < |members| ==> JsonFence.NoBacktick(members[i].0) && JsonFence.NoBacktick(members[i].1)
    ensures JsonFence.NoBacktick(Object(indent, members))
  {
    NoBacktickJoin(indent, "  ");
    MembersClean(indent + "  ", members);
    var body := Members(indent + "  ", members);
    NoBacktickJoin("{\n", body);
    NoBacktickJoin("{\n" + body, "\n");
    NoBacktickJoin("{\n" + body + "\n", indent);
    NoBacktickJoin("{\n" + body + "\n" + indent, "}");
  }

  lemma QuoteClean(s: string)
    requires JsonFence.NoBacktick(s)
    ensures JsonFence.NoBacktick(Quote(s))
  {
    NoBacktickJoin("\"", s);
    NoBacktickJoin("\"" + s, "\"");
  }

  /** The stringified preferences can sit in a json fence: they hold no
      backtick and start and end with a brace. */
  lemma StringifyFits(p: OnsenPreferences)
    requires BacktickFree(p)
    ensures JsonFence.NoBacktick(Stringify(p)) && IsTrimmed(Stringify(p))
  {
    var w := p.wellbeingProfile;
    var a := p.aestheticProfile;
    QuoteClean(w.skinType); QuoteClean(w.muscleSoreness); QuoteClean(w.stressLevel);
    QuoteClean(w.waterTemperature); QuoteClean(w.healthGoals);
    QuoteClean(a.atmosphere); QuoteClean(a.colorPalette); QuoteClean(a.timeOfDay);
    var wm := [("skinType", Quote(w.skinType)), ("muscleSoreness", Quote(w.muscleSoreness)),
               ("stressLevel", Quote(w.stressLevel)), ("waterTemperature", Quote(w.waterTemperature)),
               ("healthGoals", Quote(w.healthGoals))];
    var am := [("atmosphere", Quote(a.atmosphere)), ("colorPalette", Quote(a.colorPalette)),
               ("timeOfDay", Quote(a.timeOfDay))];
    ObjectClean("  ", wm);
    ObjectClean("  ", am);
    ObjectClean("", [("wellbeingProfile", Object("  ", wm)), ("aestheticProfile", Object("  ", am))]);
    var s := Stringify(p);
    assert s[0] == '{';
    assert s[|s| - 1] == '}';
  }

  /** The reply a mock conversation gives at its preferences step: the
      stringified preferences in a json fence, then the thank-you text. */
  function PreferencesReply(p: OnsenPreferences): string
  {
    JsonFence.Fenced("", Stringify(p), "\n\n" + ThankYou)
  }

  /** The chat session reads exactly the stringified preferences out of that
      reply: the block it parses is the one the mock wrote. */
  lemma PreferencesReplyRoundTrip(p: OnsenPreferences, parse: string -> Option<OnsenPreferences>)
    requires BacktickFree(p)
    ensures JsonFence.FenceBody(PreferencesReply(p)) == Some(Stringify(p))
    ensures JsonFence.ExtractPreferences(PreferencesReply(p), parse) == parse(Stringify(p))
  {
    StringifyFits(p);
    JsonFence.FenceRoundTrip("", Stringify(p), "\n\n" + ThankYou);
  }

  /** The fixed preferences qualify. */
  lemma MockPreferencesFit()
    ensures BacktickFree(MockPreferences)
  {
  }

  // ---------------------------------------------------------------------------
  // The scripted conversation

  /** The module-level `turn` counter and the stored `wellbeingInfo`. */
  datatype Conversation = Conversation(turn: nat, wellbeingInfo: string)

  const FreshConversation := Conversation(0, "")

  /** The replies the script makes up without asking the real chat. */
  datatype Scripted = MedicalQuestion | VisualQuestion | MockPreferencesBlock | ConversationEnded

  function ScriptedText(line: Scripted): string
  {
    match line
    case MedicalQuestion => "Hi, whats your medical condition?"
    case VisualQuestion => "whats your visual preference?"
    case MockPreferencesBlock => PreferencesReply(MockPreferences)
    case ConversationEnded => "Mock conversation ended. To start over, please refresh the page."
  }

  /** What is sent to the real chat: the user's message as it is, or the
      prompt combining the two stored answers. */
  datatype Prompt = Verbatim(message: string) | Combined(wellbeingInfo: string, aestheticInfo: string)

  function PromptText(p: Prompt): string
  {
    match p
    case Verbatim(message) => message
    case Combined(w, a) => CombinedPrompt(w, a)
  }

  /** What a message leads to: a reply made up on the spot, or a prompt
      forwarded to the real chat. */
  datatype Outcome = Answer(line: Scripted) | Forward(prompt: Prompt)

  /** One message's outcome and the conversation after it. */
  datatype Step = Step(outcome: Outcome, next: Conversation)

  const PromptHead := "The user has provided their preferences through a shortened flow. Your task is to extract the necessary information from the details below and generate the final summary JSON block, followed by your concluding message.\n\nUser's well-being information: \""
  const PromptMiddle := "\"\n- From this, infer values for skinType, muscleSoreness, stressLevel, waterTemperature, and healthGoals.\n\nUser's aesthetic preferences: \""
  const PromptTail := "\"\n- From this, infer values for atmosphere, colorPalette, and timeOfDay.\n\nPlease proceed directly to generating the JSON and the final confirmation message."

  /** The prompt that asks the real chat for the preferences block. */
  function CombinedPrompt(wellbeingInfo: string, aestheticInfo: string): string
  {
    Interleave(PromptHead, wellbeingInfo, PromptMiddle, aestheticInfo, PromptTail)
  }

  /** A template with two holes, filled. */
  function Interleave(head: string, x: string, middle: string, y: string, tail: string): string
  {
    head + x + middle + y + tail
  }

  /** The filled holes sit where the template's pieces put them. */
  lemma InterleaveHoles(head: string, x: string, middle: string, y: string, tail: string)
    ensures OccursAt(Interleave(head, x, middle, y, tail), |head|, x)
    ensures OccursAt(Interleave(head, x, middle, y, tail), |head| + |x| + |middle|, y)
  {
    var p := Interleave(head, x, middle, y, tail);
    assert p == head + (x + (middle + (y + tail)));
    assert p[|head|..|head| + |x|] == x;
    assert p[|head| + |x| + |middle|..|head| + |x| + |middle| + |y|] == y;
  }

  /** The prompt quotes the stored well-being answer and then the latest
      message, in that order. */
  lemma PromptEmbedsAnswers(wellbeingInfo: string, aestheticInfo: string)
    ensures OccursAt(CombinedPrompt(wellbeingInfo, aestheticInfo), |PromptHead|, wellbeingInfo)
    ensures OccursAt(CombinedPrompt(wellbeingInfo, aestheticInfo),
                     |PromptHead| + |wellbeingInfo| + |PromptMiddle|, aestheticInfo)
  {
    InterleaveHoles(PromptHead, wellbeingInfo, PromptMiddle, aestheticInfo, PromptTail);
  }

  /** The mock conversation: `developing` tells whether the script ends
      (Developing) or hands over to the real chat (fast_develop). Turn 0
      asks for the medical condition, turn 1 stores the answer and asks
      for visual preferences, turn 2 produces the preferences block (a
      fixed one, or one requested from the real chat); later messages are
      refused (Developing) or forwarded unchanged. */
  function MockTurn(developing: bool, c: Conversation, message: string): Step
  {
    if developing && c.turn > 2 then Step(Answer(ConversationEnded), c)
    else if c.turn == 0 then Step(Answer(MedicalQuestion), c.(turn := 1))
    else if c.turn == 1 then Step(Answer(VisualQuestion), Conversation(2, message))
    else if c.turn == 2 then
      Step(if developing then Answer(MockPreferencesBlock) else Forward(Combined(c.wellbeingInfo, message)),
           c.(turn := 3))
    else Step(Forward(Verbatim(message)), c)
  }

  /** A service with a `test` mode forwards every message there and leaves
      the script alone; the other modes run the script. */
  function ServiceTurn(mode: DevMode, c: Conversation, message: string): Step
  {
    if mode == Test then Step(Forward(Verbatim(message)), c)
    else MockTurn(mode == Developing, c, message)
  }

  /** The counter advances by one for each of the first three scripted
      messages and then stays at 3; `wellbeingInfo` changes only on the
      second, to that message; `test` mode never changes either. */
  lemma TurnAdvances(mode: DevMode, c: Conversation, message: string)
    ensures var s := ServiceTurn(mode, c, message);
      (mode == Test ==> s.next == c) &&
      (mode != Test ==> s.next.turn == (if c.turn <= 2 then c.turn + 1 else c.turn)) &&
      (mode != Test ==> s.next.wellbeingInfo == (if c.turn == 1 then message else c.wellbeingInfo)) &&
      (c.turn <= 3 ==> s.next.turn <= 3)
  {
  }

  /** The outcomes of a run of messages and the conversation it ends in. */
  datatype Trace = Trace(outcomes: seq<Outcome>, last: Conversation)

  function Run(mode: DevMode, c: Conversation, messages: seq<string>): (t: Trace)
    ensures |t.outcomes| == |messages|
    decreases |messages|
  {
    if messages == [] then Trace([], c)
    else
      var s := ServiceTurn(mode, c, messages[0]);
      var t := Run(mode, s.next, messages[1..]);
      Trace([s.outcome] + t.outcomes, t.last)
  }

  /** Once the Developing script is over, every message gets the ended
      reply and the conversation stays put. */
  lemma {:induction false} EndedIsFinal(c: Conversation, messages: seq<string>)
    requires c.turn > 2
    ensures Run(Developing, c, messages) == Trace(seq(|messages|, _ => Answer(ConversationEnded)), c)
    decreases |messages|
  {
    if messages != [] {
      EndedIsFinal(c, messages[1..]);
      assert [Answer(ConversationEnded)] + seq(|messages| - 1, _ => Answer(ConversationEnded))
          == seq(|messages|, _ => Answer(ConversationEnded));
    }
  }

  /** Once the script is over in fast_develop (or at any point in `test`),
      every message is forwarded unchanged. */
  lemma {:induction false} ForwardsUnchanged(mode: DevMode, c: Conversation, messages: seq<string>)
    requires mode == Test || (mode == FastDevelop && c.turn > 2)
    ensures Run(mode, c, messages) == Trace(seq(|messages|, i requires 0 <= i < |messages| => Forward(Verbatim(messages[i]))), c)
    decreases |messages|
  {
    if messages != [] {
      ForwardsUnchanged(mode, c, messages[1..]);
      var tail := seq(|messages| - 1, i requires 0 <= i < |messages| - 1 => Forward(Verbatim(messages[1..][i])));
      assert [Forward(Verbatim(messages[0]))] + tail == seq(|messages|, i requires 0 <= i < |messages| => Forward(Verbatim(messages[i])));
    }
  }

  /** From a fresh start the script answers the first three messages with
      the two questions and the preferences step, remembers the second
      message, and then either ends (Developing) or forwards (fast_develop). */
  lemma {:induction false} ScriptFromStart(mode: DevMode, m0: string, m1: string, m2: string, rest: seq<string>)
    requires mode != Test
    ensures var t := Run(mode, FreshConversation, [m0, m1, m2] + rest);
      t.last == Conversation(3, m1) &&
      t.outcomes[..3] == [Answer(MedicalQuestion), Answer(VisualQuestion),
                          if mode == Developing then Answer(MockPreferencesBlock) else Forward(Combined(m1, m2))] &&
      (mode == Developing ==> t.outcomes[3..] == seq(|rest|, _ => Answer(ConversationEnded))) &&
      (mode == FastDevelop ==> t.outcomes[3..] == seq(|rest|, i requires 0 <= i < |rest| => Forward(Verbatim(rest[i]))))
  {
    var ms := [m0, m1, m2] + rest;
    var c1 := Conversation(1, "");
    var c2 := Conversation(2, m1);
    var c3 := Conversation(3, m1);
    var third := if mode == Developing then Answer(MockPreferencesBlock) else Forward(Combined(m1, m2));
    assert ms[1..] == [m1, m2] + rest;
    assert ms[1..][1..] == [m2] + rest;
    assert ms[1..][1..][1..] == rest;
    var t3 := Run(mode, c3, rest);
    var t2 := Run(mode, c2, [m2] + rest);
    assert t2 == Trace([third] + t3.outcomes, t3.last);
    var t1 := Run(mode, c1, [m1, m2] + rest);
    assert t1 == Trace([Answer(VisualQuestion)] + t2.outcomes, t3.last);
    var t0 := Run(mode, FreshConversation, ms);
    assert t0 == Trace([Answer(MedicalQuestion)] + t1.outcomes, t3.last);
    assert t0.outcomes == [Answer(MedicalQuestion), Answer(VisualQuestion), third] + t3.outcomes;
    if mode == Developing {
      EndedIsFinal(c3, rest);
    } else {
      ForwardsUnchanged(mode, c3, rest);
    }
  }

  // ---------------------------------------------------------------------------
  // Replies and speech

  /** The reply text: a made-up answer as it is; a forwarded message gives the
      chat's text (`response.text ?? ""`) or, when the chat call throws, what
      the service's error handler makes of the error message. */
  function Settle(out: Outcome, call: Call<Option<string>>, onError: Option<string> -> string): (reply: string)
    ensures out.Answer? ==> reply == ScriptedText(out.line)
    ensures out.Forward? && call.Threw? ==> reply == onError(call.message)
    ensures out.Forward? && call.Returned? ==> reply == (if call.value.Some? then call.value.value else "")
  {
    match out
    case Answer(line) => ScriptedText(line)
    case Forward(_) =>
      match call
      case Returned(text) => if text.Some? then text.value else ""
      case Threw(message) => onError(message)
  }

  /** `generateSpeech` in the services with modes: no speech in Developing
      mode or for blank text; otherwise the audio data of the TTS response
      (`?? null`), and null when the call throws. */
  function GuardedSpeech(mode: DevMode, text: string, call: Call<Option<string>>): (audio: Option<string>)
    ensures audio.Some? <==> mode != Developing && !IsBlank(text) && call.Returned? && call.value.Some?
    ensures audio.Some? ==> audio == call.value
  {
    if mode == Developing then None
    else if IsBlank(text) then None
    else match call
      case Returned(data) => data
      case Threw(_) => None
  }

  // ---------------------------------------------------------------------------
  // Images

  /** A part of a model response; `inlineData` holds base64 data when the
      part is an image. */
  datatype Part = Part(inlineData: Option<string>)

  /** The first part's inline data, searching in order. */
  function FirstInlineData(parts: seq<Part>): (r: Option<string>)
    ensures r.None? <==> forall i :: 0 <= i < |parts| ==> parts[i].inlineData.None?
    ensures r.Some? ==> exists i :: 0 <= i < |parts| && parts[i].inlineData == r &&
                           forall j :: 0 <= j < i ==> parts[j].inlineData.None?
  {
    if parts == [] then None
    else if parts[0].inlineData.Some? then parts[0].inlineData
    else
      var r := FirstInlineData(parts[1..]);
      assert forall j :: 1 <= j < |parts| ==> parts[j] == parts[1..][j - 1];
      r
  }

  /** `extractImageData`: the parts of the first candidate (missing anywhere
      along the way means no parts) and their first inline data. */
  function ExtractImageData(parts: Option<seq<Part>>): (r: Option<string>)
    ensures parts.None? ==> r.None?
    ensures parts.Some? ==> r == FirstInlineData(parts.value)
  {
    FirstInlineData(if parts.Some? then parts.value else [])
  }

  /** The present values, in order (`.filter(data => data !== null)`). */
  function Somes<T>(xs: seq<Option<T>>): (r: seq<T>)
    ensures |r| <= |xs|
  {
    if xs == [] then []
    else (if xs[0].Some? then [xs[0].value] else []) + Somes(xs[1..])
  }

  /** Filtering a concatenation concatenates the filtered parts, so order is
      kept and each value appears where its position puts it. */
  lemma {:induction false} SomesAppend<T>(xs: seq<Option<T>>, ys: seq<Option<T>>)
    ensures Somes(xs + ys) == Somes(xs) + Somes(ys)
    decreases |xs|
  {
    if xs == [] {
      assert xs + ys == ys;
    } else {
      assert (xs + ys)[0] == xs[0];
      assert (xs + ys)[1..] == xs[1..] + ys;
      SomesAppend(xs[1..], ys);
    }
  }

  /** Nothing is left exactly when every value was missing. */
  lemma {:induction false} SomesEmpty<T>(xs: seq<Option<T>>)
    ensures Somes(xs) == [] <==> forall i :: 0 <= i < |xs| ==> xs[i].None?
    decreases |xs|
  {
    if xs != [] {
      SomesEmpty(xs[1..]);
      if xs[0].Some? {
        assert Somes(xs) == [xs[0].value] + Somes(xs[1..]);
      } else {
        assert Somes(xs) == Somes(xs[1..]);
        assert forall i :: 1 <= i < |xs| ==> xs[i] == xs[1..][i - 1];
      }
    }
  }

  /** `Promise.all`: every value when every call returned, otherwise a
      rejection. */
  function AllReturned<T>(calls: seq<Call<T>>): (r: Option<seq<T>>)
    ensures r.Some? <==> forall i :: 0 <= i < |calls| ==> calls[i].Returned?
    ensures r.Some? ==> |r.value| == |calls| && forall i :: 0 <= i < |calls| ==> r.value[i] == calls[i].value
  {
    if forall i :: 0 <= i < |calls| ==> calls[i].Returned?
    then Some(seq(|calls|, i requires 0 <= i < |calls| => calls[i].value))
    else None
  }

  /** The base image the restyling starts from: its base64 data and its
      MIME type. */
  datatype BaseImage = BaseImage(base64: string, mimeType: string)

  /** Only the data of a loaded base image, as the mock image sets use it. */
  function Base64Of(base: Call<BaseImage>): (r: Call<string>)
    ensures r.Returned? <==> base.Returned?
    ensures r.Returned? ==> r.value == base.value.base64
    ensures r.Threw? ==> r.message == base.message
  {
    match base
    case Returned(b) => Returned(b.base64)
    case Threw(message) => Threw(message)
  }

  /** One call of the image model: a text part holding the prompt and an
      inline-data part holding the base image with its MIME type. */
  type Generate = (string, BaseImage) -> Call<Option<seq<Part>>>

  /** The image data extracted from each response, by variation. */
  function Extracted(responses: seq<Option<seq<Part>>>): (r: seq<Option<string>>)
    ensures |r| == |responses|
    ensures forall i :: 0 <= i < |responses| ==> r[i] == ExtractImageData(responses[i])
  {
    seq(|responses|, i requires 0 <= i < |responses| => ExtractImageData(responses[i]))
  }

  /** One call per variation, in order: the base prompt followed by the
      variation, with the same base image each time. */
  function VariationCalls(basePrompt: string, variations: seq<string>, image: BaseImage, generate: Generate)
    : (calls: seq<Call<Option<seq<Part>>>>)
    ensures |calls| == |variations|
    ensures forall i :: 0 <= i < |variations| ==> calls[i] == generate(basePrompt + variations[i], image)
  {
    seq(|variations|, i requires 0 <= i < |variations| => generate(basePrompt + variations[i], image))
  }

  /** All variations at once: any failing call loses them all; otherwise the
      first inline image of each response, nulls dropped, and null when
      none is left. */
  function ParallelImages(basePrompt: string, variations: seq<string>, image: BaseImage, generate: Generate)
    : Option<seq<string>>
  {
    match AllReturned(VariationCalls(basePrompt, variations, image, generate))
    case None => None
    case Some(responses) =>
      var imageDatas := Somes(Extracted(responses));
      if |imageDatas| > 0 then Some(imageDatas) else None
  }

  /** A parallel round gives at most one image per variation, in variation
      order, and null exactly when a call failed or no response held an
      image. */
  lemma ParallelImagesResult(basePrompt: string, variations: seq<string>, image: BaseImage, generate: Generate)
    ensures var calls := VariationCalls(basePrompt, variations, image, generate);
      var r := ParallelImages(basePrompt, variations, image, generate);
      (r.Some? ==> 0 < |r.value| <= |variations| && AllReturned(calls).Some? &&
                   r.value == Somes(Extracted(AllReturned(calls).value))) &&
      (r.None? <==> AllReturned(calls).None? ||
                    forall i :: 0 <= i < |variations| ==> ExtractImageData(calls[i].value).None?)
  {
    var calls := VariationCalls(basePrompt, variations, image, generate);
    if AllReturned(calls).Some? {
      SomesEmpty(Extracted(AllReturned(calls).value));
    }
  }

  /** The base image repeated `n` times (the mock image sets), or null when
      the base image could not be loaded. */
  function Copies(base: Call<string>, n: nat): (r: Option<seq<string>>)
    ensures r.Some? <==> base.Returned?
    ensures r.Some? ==> |r.value| == n && forall i :: 0 <= i < n ==> r.value[i] == base.value
  {
    match base
    case Returned(b) => Some(seq(n, _ => b))
    case Threw(_) => None
  }

  /** A parallel round yields at most one image per variation. */
  lemma ParallelImagesCount(basePrompt: string, variations: seq<string>, image: BaseImage, generate: Generate)
    ensures var r := ParallelImages(basePrompt, variations, image, generate);
      r.Some? ==> 0 < |r.value| <= |variations|
  {
  }

  const ImageHead := "Modify this onsen image to create a custom experience based on these preferences:\n    - Atmosphere: '"
  const TimeOfDayLabel := "'\n    - Time of day: '"
  const PaletteLabel := "' with '"
  const GoalsLabel := "' lighting\n    - Designed for: '"
  const SorenessLabel := "' and soothing '"
  const ImageTail := "'\n\n    Keep the overall onsen structure but modify the atmosphere, lighting, colors, and surrounding elements to match these preferences. The mood should be tranquil, inviting, and deeply peaceful."

  /** The prompt that restyles the base image after the preferences
      (`createImagePrompt`; the first and fast-development variants write
      the same text inline). */
  function CreateImagePrompt(p: OnsenPreferences): string
  {
    ImageHead + p.aestheticProfile.atmosphere + ImagePromptRest(p)
  }

  /** The prompt after the atmosphere. */
  function ImagePromptRest(p: OnsenPreferences): string
  {
    ImagePromptMiddle(p) + ImageTail
  }

  /** The remaining preferences, each after its label. */
  function ImagePromptMiddle(p: OnsenPreferences): string
  {
    TimeOfDayLabel + p.aestheticProfile.timeOfDay + PaletteLabel + p.aestheticProfile.colorPalette +
    GoalsLabel + p.wellbeingProfile.healthGoals + SorenessLabel + p.wellbeingProfile.muscleSoreness
  }

  /** The prompt opens with the instruction and quotes the atmosphere right
      after it. */
  lemma ImagePromptOpens(p: OnsenPreferences)
    ensures StartsWith(CreateImagePrompt(p), ImageHead)
    ensures OccursAt(CreateImagePrompt(p), |ImageHead|, p.aestheticProfile.atmosphere)
  {
    ThreeParts(ImageHead, p.aestheticProfile.atmosphere, ImagePromptRest(p));
  }

  /** The prompt closes with the fixed description of the mood. */
  lemma ImagePromptCloses(p: OnsenPreferences)
    ensures EndsWith(CreateImagePrompt(p), ImageTail)
  {
    ThreeParts(ImageHead + p.aestheticProfile.atmosphere, ImagePromptMiddle(p), ImageTail);
  }

  const WideAngle := " Show a wide angle view with modified surrounding nature and atmosphere."
  const WaterTexture := " Focus on the water texture and steam with the new lighting and color palette."
  const Architecture := " Emphasize the traditional architecture and materials with the new atmosphere."
  const Bather := " Show the view from the perspective of someone relaxing in the water with the new ambiance."
}
