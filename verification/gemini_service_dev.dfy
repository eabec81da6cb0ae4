/** The fast-development service variant: the two mock questions, then the
    real chat; speech for any non-blank text; and images generated one
    variation at a time. */
module GeminiServiceDev {
  import opened Common
  import opened ServiceCommon
  import GeminiService2

  /** `handleError`: the daily-limit text for '429' or 'quota' in the
      message, the general apology otherwise. */
  function HandleError(message: Option<string>): (reply: string)
    ensures reply == QuotaMessage <==> MessageIncludes(message, "429") || MessageIncludes(message, "quota")
    ensures reply == ConnectionApology <==> !MessageIncludes(message, "429") && !MessageIncludes(message, "quota")
  {
    if MessageIncludes(message, "429") || MessageIncludes(message, "quota") then QuotaMessage
    else ConnectionApology
  }

  /** The same classification as the later handler, without its API key
      case. */
  lemma HandlersCompared(message: Option<string>)
    ensures HandleError(message) == GeminiService2.HandleChatError(message) <==>
      (MessageIncludes(message, "429") || MessageIncludes(message, "quota") || !MessageIncludes(message, "API key"))
  {
  }

  /** The module's mock conversation state; there is no mode and no end. */
  class ChatService {
    var conversation: Conversation

    constructor ()
      ensures conversation == FreshConversation
    {
      conversation := FreshConversation;
    }

    /** `sendMessageToBot` up to the chat call: the fast_develop script. */
    method SendMessage(message: string) returns (out: Outcome)
      modifies this
      ensures Step(out, conversation) == ServiceTurn(FastDevelop, old(conversation), message)
    {
      if conversation.turn == 0 {
        conversation := conversation.(turn := 1);
        return Answer(MedicalQuestion);
      }
      if conversation.turn == 1 {
        conversation := Conversation(2, message);
        return Answer(VisualQuestion);
      }
      if conversation.turn == 2 {
        conversation := conversation.(turn := 3);
        return Forward(Combined(conversation.wellbeingInfo, message));
      }
      out := Forward(Verbatim(message));
    }
  }

  // ---------------------------------------------------------------------------
  // Images

  const Variations := [WideAngle, WaterTexture]

  /** What one variation contributes: the first inline image of its
      response, or nothing when the call failed. */
  function Harvest(call: Call<Option<seq<Part>>>): Option<string>
  {
    match call
    case Returned(parts) => ExtractImageData(parts)
    case Threw(_) => None
  }

  /** What the variations contribute, in order. */
  function Harvests(calls: seq<Call<Option<seq<Part>>>>): (r: seq<Option<string>>)
    ensures |r| == |calls|
    ensures forall i :: 0 <= i < |calls| ==> r[i] == Harvest(calls[i])
  {
    seq(|calls|, i requires 0 <= i < |calls| => Harvest(calls[i]))
  }

  /** The first inline data of a response's parts, searched with a loop
      that stops at the first image. */
  method FirstImage(parts: Option<seq<Part>>) returns (data: Option<string>)
    ensures data == ExtractImageData(parts)
  {
    var ps := if parts.Some? then parts.value else [];
    var j := 0;
    while j < |ps|
      invariant 0 <= j <= |ps|
      invariant forall k :: 0 <= k < j ==> ps[k].inlineData.None?
      invariant FirstInlineData(ps) == FirstInlineData(ps[j..])
    {
      if ps[j].inlineData.Some? {
        return ps[j].inlineData;
      }
      assert ps[j..][1..] == ps[j + 1..];
      j := j + 1;
    }
    return None;
  }

  /** The sequential loop of `generateOnsenImage`: each variation in turn,
      a failing one skipped, the first image of each response kept. */
  method CollectImages(basePrompt: string, variations: seq<string>, image: BaseImage, generate: Generate)
    returns (imageDatas: seq<string>)
    ensures imageDatas == Somes(Harvests(VariationCalls(basePrompt, variations, image, generate)))
  {
    var calls := VariationCalls(basePrompt, variations, image, generate);
    imageDatas := [];
    var i := 0;
    while i < |variations|
      invariant 0 <= i <= |variations|
      invariant imageDatas == Somes(Harvests(calls[..i]))
    {
      var response := calls[i];
      var got: Option<string> := None;
      if response.Returned? {
        got := FirstImage(response.value);
        if got.Some? {
          imageDatas := imageDatas + [got.value];
        }
      }
      assert got == Harvest(calls[i]);
      assert calls[..i + 1] == calls[..i] + [calls[i]];
      assert Harvests(calls[..i + 1]) == Harvests(calls[..i]) + [Harvest(calls[i])];
      SomesAppend(Harvests(calls[..i]), [Harvest(calls[i])]);
      i := i + 1;
    }
    assert calls[..i] == calls;
  }

  /** `generateOnsenImage`: null when the base image cannot be loaded or no
      variation produced an image, otherwise the images in variation order. */
  method GenerateOnsenImage(preferences: OnsenPreferences, base: Call<BaseImage>, generate: Generate)
    returns (r: Option<seq<string>>)
    ensures base.Threw? ==> r.None?
    ensures base.Returned? ==>
      var d := Somes(Harvests(VariationCalls(CreateImagePrompt(preferences), Variations, base.value, generate)));
      r == if |d| > 0 then Some(d) else None
  {
    if base.Threw? {
      return None;
    }
    var imageDatas := CollectImages(CreateImagePrompt(preferences), Variations, base.value, generate);
    r := if |imageDatas| > 0 then Some(imageDatas) else None;
  }

  /** Going one at a time only matters when a call fails: with every call
      returning, the sequential result is the parallel one; and a failing
      variation only loses its own image. */
  lemma SequentialAgainstParallel(basePrompt: string, variations: seq<string>, image: BaseImage, generate: Generate)
    ensures var calls := VariationCalls(basePrompt, variations, image, generate);
      var d := Somes(Harvests(calls));
      (AllReturned(calls).Some? ==> ParallelImages(basePrompt, variations, image, generate) == if |d| > 0 then Some(d) else None) &&
      |d| <= |variations| &&
      (d == [] <==> forall i :: 0 <= i < |variations| ==> Harvest(calls[i]).None?)
  {
    var calls := VariationCalls(basePrompt, variations, image, generate);
    SomesEmpty(Harvests(calls));
    if AllReturned(calls).Some? {
      assert Harvests(calls) == Extracted(AllReturned(calls).value);
    }
  }
}
