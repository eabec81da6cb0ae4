/** The first service variant: the same modes and mock conversation as the
    later one, but every chat failure is answered with the same apology,
    and image generation uses two variations. */
module GeminiService {
  import opened Common
  import opened ServiceCommon
  import GeminiService2

  /** The reply to a failed chat call, in every mode: the quota check only
      logs, so the apology is all the user sees. */
  function ChatErrorReply(message: Option<string>): (reply: string)
    ensures reply == ConnectionApology
  {
    ConnectionApology
  }

  /** This variant agrees with the later, classified handler exactly on the
      errors that mention neither a quota nor the API key. */
  lemma ErrorRepliesCompared(message: Option<string>)
    ensures ChatErrorReply(message) == GeminiService2.HandleChatError(message) <==>
      !MessageIncludes(message, "429") && !MessageIncludes(message, "quota") && !MessageIncludes(message, "API key")
  {
  }

  /** The module's mode and its mock conversation state. */
  class ChatService {
    const mode: DevMode
    var conversation: Conversation

    constructor (mode: DevMode)
      ensures this.mode == mode && conversation == FreshConversation
    {
      this.mode := mode;
      conversation := FreshConversation;
    }

    /** `sendMessageToBot` up to the chat call. */
    method SendMessage(message: string) returns (out: Outcome)
      modifies this
      ensures Step(out, conversation) == ServiceTurn(mode, old(conversation), message)
    {
      if mode == Test {
        return Forward(Verbatim(message));
      }
      if mode == Developing && conversation.turn > 2 {
        return Answer(ConversationEnded);
      }
      if conversation.turn == 0 {
        conversation := conversation.(turn := conversation.turn + 1);
        return Answer(MedicalQuestion);
      }
      if conversation.turn == 1 {
        conversation := conversation.(wellbeingInfo := message);
        conversation := conversation.(turn := conversation.turn + 1);
        return Answer(VisualQuestion);
      }
      if conversation.turn == 2 {
        conversation := conversation.(turn := conversation.turn + 1);
        if mode == Developing {
          return Answer(MockPreferencesBlock);
        }
        return Forward(Combined(conversation.wellbeingInfo, message));
      }
      out := Forward(Verbatim(message));
    }
  }

  // ---------------------------------------------------------------------------
  // Images

  const Variations := [WideAngle, WaterTexture]

  /** `generateOnsenImage`: Developing mode returns four copies of the base
      image; the other modes restyle it once per variation, all at once, and
      a base image that cannot be loaded gives null. */
  function GenerateOnsenImage(mode: DevMode, preferences: OnsenPreferences, base: Call<BaseImage>,
                              generate: Generate): (r: Option<seq<string>>)
    ensures mode == Developing ==> r == Copies(Base64Of(base), 4)
    ensures mode != Developing && base.Threw? ==> r.None?
    ensures mode != Developing && base.Returned? ==>
      r == ParallelImages(CreateImagePrompt(preferences), Variations, base.value, generate)
  {
    if mode != Developing then
      if base.Threw? then None else ParallelImages(CreateImagePrompt(preferences), Variations, base.value, generate)
    else Copies(Base64Of(base), 4)
  }

  /** Restyling returns at most two images (its variations are the first two
      of the later variant's four); the mock set has four. */
  lemma ImageCount(mode: DevMode, preferences: OnsenPreferences, base: Call<BaseImage>, generate: Generate)
    ensures Variations == GeminiService2.Variations[..2]
    ensures var r := GenerateOnsenImage(mode, preferences, base, generate);
      r.Some? ==> 0 < |r.value| <= (if mode == Developing then 4 else 2)
  {
    if mode != Developing && base.Returned? {
      ParallelImagesCount(CreateImagePrompt(preferences), Variations, base.value, generate);
    }
  }
}
