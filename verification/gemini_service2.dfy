/** The service variant with three development modes and a classified chat
    error: the mock or hybrid conversation, the speech guard, and image
    generation over four variations. */
module GeminiService2 {
  import opened Common
  import opened ServiceCommon

  const ApiKeyMessage := "There seems to be an issue with the API configuration. Please check your API key."

  /** `handleChatError`: a quota problem ('429' or 'quota' in the message)
      comes first, then an API key problem, then the general apology. */
  function HandleChatError(message: Option<string>): (reply: string)
    ensures reply == QuotaMessage <==> MessageIncludes(message, "429") || MessageIncludes(message, "quota")
    ensures reply == ApiKeyMessage <==>
      !MessageIncludes(message, "429") && !MessageIncludes(message, "quota") && MessageIncludes(message, "API key")
    ensures reply == ConnectionApology <==>
      !MessageIncludes(message, "429") && !MessageIncludes(message, "quota") && !MessageIncludes(message, "API key")
  {
    if MessageIncludes(message, "429") || MessageIncludes(message, "quota") then QuotaMessage
    else if MessageIncludes(message, "API key") then ApiKeyMessage
    else ConnectionApology
  }

  /** The module's mode and its mock conversation state. */
  class ChatService {
    const mode: DevMode
    var conversation: Conversation

    constructor (mode: DevMode)
      ensures this.mode == mode && conversation == FreshConversation
    {
      this.mode := mode;
      conversation := FreshConversation;
    }

    /** `sendMessageToBot` up to the chat call: `test` mode sends the message
        as it is (`sendRealMessage`); the other modes run the mock script
        (`sendMockOrHybridMessage`). */
    method SendMessage(message: string) returns (out: Outcome)
      modifies this
      ensures Step(out, conversation) == ServiceTurn(mode, old(conversation), message)
    {
      if mode == Test {
        return Forward(Verbatim(message));
      }
      out := SendMockOrHybridMessage(message);
    }

    method SendMockOrHybridMessage(message: string) returns (out: Outcome)
      requires mode != Test
      modifies this
      ensures Step(out, conversation) == MockTurn(mode == Developing, old(conversation), message)
    {
      var turn := conversation.turn;
      if mode == Developing && turn > 2 {
        return Answer(ConversationEnded);
      }
      if turn == 0 {
        conversation := conversation.(turn := turn + 1);
        return Answer(MedicalQuestion);
      }
      if turn == 1 {
        conversation := Conversation(turn + 1, message);
        return Answer(VisualQuestion);
      }
      if turn == 2 {
        conversation := conversation.(turn := turn + 1);
        if mode == Developing {
          return Answer(MockPreferencesBlock);
        }
        return Forward(Combined(conversation.wellbeingInfo, message));
      }
      out := Forward(Verbatim(message));
    }
  }

  /** After the chat call settles, the reply never surfaces an exception: a
      failed call gives one of the three fixed texts. */
  lemma FailedCallReplies(p: Prompt, message: Option<string>)
    ensures Settle(Forward(p), Threw(message), HandleChatError) in {QuotaMessage, ApiKeyMessage, ConnectionApology}
  {
  }

  // ---------------------------------------------------------------------------
  // Images

  const Variations := [WideAngle, WaterTexture, Architecture, Bather]

  /** `generateOnsenImage`: Developing mode returns four copies of the base
      image (`loadMockImages`); the other modes restyle it once per
      variation (`generateRealImages`), and a base image that cannot be
      loaded gives null. */
  function GenerateOnsenImage(mode: DevMode, preferences: OnsenPreferences, base: Call<BaseImage>,
                              generate: Generate): (r: Option<seq<string>>)
    ensures mode == Developing ==> r == Copies(Base64Of(base), 4)
    ensures mode != Developing && base.Threw? ==> r.None?
    ensures mode != Developing && base.Returned? ==>
      r == ParallelImages(CreateImagePrompt(preferences), Variations, base.value, generate)
  {
    if mode == Developing then Copies(Base64Of(base), 4)
    else if base.Threw? then None
    else ParallelImages(CreateImagePrompt(preferences), Variations, base.value, generate)
  }

  /** At most four images come back, and null only when none could be had. */
  lemma ImageCount(mode: DevMode, preferences: OnsenPreferences, base: Call<BaseImage>, generate: Generate)
    ensures var r := GenerateOnsenImage(mode, preferences, base, generate);
      r.Some? ==> 0 < |r.value| <= 4
  {
    if mode != Developing && base.Returned? {
      ParallelImagesCount(CreateImagePrompt(preferences), Variations, base.value, generate);
    }
  }
}
