/** The offline service variant: the scripted conversation with the fixed
    preferences, no speech, two copies of the base image, and no video. */
module GeminiServiceMock {
  import opened Common
  import opened ServiceCommon
  import MainScreen
  import GeminiService

  /** The module-level conversation state. */
  class ChatService {
    var conversation: Conversation

    constructor ()
      ensures conversation == FreshConversation
    {
      conversation := FreshConversation;
    }

    /** `sendMessageToBot`: the three scripted replies, then the end notice;
        nothing is ever forwarded. */
    method SendMessage(message: string) returns (out: Outcome)
      modifies this
      ensures Step(out, conversation) == ServiceTurn(Developing, old(conversation), message)
      ensures out.Answer?
    {
      if conversation.turn == 0 {
        conversation := conversation.(turn := 1);
        return Answer(MedicalQuestion);
      }
      if conversation.turn == 1 {
        conversation := Conversation(2, message);
        return Answer(VisualQuestion);
      }
      if conversation.turn == 2 {
        conversation := conversation.(turn := 3);
        return Answer(MockPreferencesBlock);
      }
      out := Answer(ConversationEnded);
    }
  }

  /** `generateSpeech`: there is never audio. */
  function GenerateSpeech(text: string): (audio: Option<string>)
    ensures audio.None?
  {
    None
  }

  /** The offline speech is what the services with modes give in Developing
      mode, whatever the speech call would have returned. */
  lemma SpeechLikeDeveloping(text: string, call: Call<Option<string>>)
    ensures GenerateSpeech(text) == GuardedSpeech(Developing, text, call)
  {
  }

  /** `generateOnsenImage`: two copies of the base image, or null when it
      cannot be loaded. */
  function GenerateOnsenImage(base: Call<string>): (r: Option<seq<string>>)
    ensures r.Some? <==> base.Returned?
    ensures r.Some? ==> r.value == [base.value, base.value]
  {
    match base
    case Returned(b) => Some([b, b])
    case Threw(_) => None
  }

  /** The offline images are the first two of the four copies the first
      service gives in Developing mode. */
  lemma ImagesLikeDeveloping(preferences: OnsenPreferences, base: Call<BaseImage>, generate: Generate)
    ensures var d := GeminiService.GenerateOnsenImage(Developing, preferences, base, generate);
      GenerateOnsenImage(Base64Of(base)).Some? <==> d.Some?
    ensures var d := GeminiService.GenerateOnsenImage(Developing, preferences, base, generate);
      d.Some? ==> GenerateOnsenImage(Base64Of(base)).value == d.value[..2]
  {
    var d := GeminiService.GenerateOnsenImage(Developing, preferences, base, generate);
    if d.Some? {
      assert d.value[..2] == [d.value[0], d.value[1]];
    }
  }

  const NotAvailable := NotAvailableHead + NotAvailableTail
  const NotAvailableHead := "Video generation is not available"
  const NotAvailableTail := " in mock mode"

  /** `generateLoopingVideo`: always throws. */
  function GenerateLoopingVideo(base64Image: string, mimeType: string): (r: Call<string>)
    ensures r.Threw? && r.message == Some(NotAvailable)
  {
    Threw(Some(NotAvailable))
  }

  predicate NoUnderscore(s: string)
  {
    forall k :: 0 <= k < |s| ==> s[k] != '_'
  }

  /** A text without an underscore does not contain `API_KEY`. */
  lemma NoUnderscoreNoApiKey(s: string)
    requires NoUnderscore(s)
    ensures !Includes(s, "API_KEY")
  {
    forall i | 0 <= i <= |s| - 7 ensures !OccursAt(s, i, "API_KEY") {
      assert s[i..i + 7][3] == s[i + 3] != '_';
    }
  }

  lemma NotAvailableHasNoUnderscore()
    ensures NoUnderscore(NotAvailable)
  {
    assert NoUnderscore(NotAvailableHead);
    assert NoUnderscore(NotAvailableTail);
    var s := NotAvailable;
    forall k | 0 <= k < |s| ensures s[k] != '_' {
      if k >= |NotAvailableHead| {
        assert s[k] == NotAvailableTail[k - |NotAvailableHead|];
      }
    }
  }

  /** Choosing a concept offline ends in the generic video error (the
      thrown message does not mention the API key) and leaves the video as
      it was. */
  lemma ConceptFailsOffline(s: MainScreen.OnsenState, url: string, base64Image: string, mimeType: string)
    ensures var q := MainScreen.ConceptSettled(MainScreen.ConceptStarted(s, url), GenerateLoopingVideo(base64Image, mimeType));
      q.error == Some(MainScreen.VideoErrorMessage) && q.videoUrl == s.videoUrl && !q.isGeneratingVideo
  {
    NotAvailableHasNoUnderscore();
    NoUnderscoreNoApiKey(NotAvailable);
  }
}
