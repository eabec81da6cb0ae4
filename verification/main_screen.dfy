/** The main screen: how a conversation turn drives the audio player, the
    typing reveal and the generation of onsen images and video, and the
    record of onsen visuals it keeps (`onsenState`). */
module MainScreen {
  import opened Common
  import opened ChatSession
  import opened AudioUtils
  import opened SentenceSplitter

  /** The `onsenState` record. */
  datatype OnsenState = OnsenState(
    isGeneratingImage: bool,
    imageUrls: Option<seq<string>>,
    selectedConceptUrl: Option<string>,
    isGeneratingVideo: bool,
    videoUrl: Option<string>,
    videoLoadingMsg: string,
    error: Option<string>)

  const InitialOnsenState := OnsenState(false, None, None, false, None, "", None)

  const ImageErrorMessage := "Failed to generate images."
  const PreparingMessage := "Preparing your onsen experience..."
  const ApiConfigErrorMessage := "API configuration error."
  const VideoErrorMessage := "Could not create video."
  const DataUrlPrefix := "data:image/png;base64,"
  const DefaultBackground := "default"

  // ---------------------------------------------------------------------------
  // Derived values

  /** `backgroundKey`: the video, else the chosen concept, else 'default'
      (empty strings are falsy and fall through). */
  function BackgroundKey(s: OnsenState): string
  {
    if Truthy(s.videoUrl) then s.videoUrl.value
    else if Truthy(s.selectedConceptUrl) then s.selectedConceptUrl.value
    else DefaultBackground
  }

  /** The background key is never empty, and it is the default exactly when
      neither a video nor a chosen concept is there to show. */
  lemma BackgroundKeyCases(s: OnsenState)
    ensures BackgroundKey(s) != ""
    ensures Truthy(s.videoUrl) ==> BackgroundKey(s) == s.videoUrl.value
    ensures !Truthy(s.videoUrl) && Truthy(s.selectedConceptUrl) ==> BackgroundKey(s) == s.selectedConceptUrl.value
    ensures !Truthy(s.videoUrl) && !Truthy(s.selectedConceptUrl) ==> BackgroundKey(s) == DefaultBackground
  {
  }

  /** `canReadAloud`: there is audio of the last reply and nothing is being
      typed. */
  predicate CanReadAloud(lastBotAudio: Option<string>, isTyping: bool)
  {
    Truthy(lastBotAudio) && !isTyping
  }

  /** The chat box's `isLoading`: the chat, or either generation, is busy. */
  predicate ChatBoxLoading(chatLoading: bool, s: OnsenState)
  {
    chatLoading || s.isGeneratingImage || s.isGeneratingVideo
  }

  /** The argument the read-aloud handler hands to `playAudio`: the last
      reply's audio, asserted present with `!`; a missing one reaches `atob`
      as `null`, which it reads as the text "null". */
  function ReadAloudArgument(lastBotAudio: Option<string>): string
  {
    if lastBotAudio.Some? then lastBotAudio.value else "null"
  }

  /** With the button enabled, reading aloud plays the last reply's audio;
      and whatever the button's state, only real reply audio ever plays: a
      missing or empty audio never does. */
  lemma ReadAloudPlaysReplyAudio(lastBotAudio: Option<string>, isTyping: bool)
    ensures CanReadAloud(lastBotAudio, isTyping) ==> ReadAloudArgument(lastBotAudio) == lastBotAudio.value
    ensures Playable(ReadAloudArgument(lastBotAudio)) ==>
      Truthy(lastBotAudio) && ReadAloudArgument(lastBotAudio) == lastBotAudio.value
  {
    if lastBotAudio.None? {
      NullAudioIsNotPlayable();
    } else if lastBotAudio.value == "" {
      EmptyAudioIsNotPlayable();
    }
  }

  // ---------------------------------------------------------------------------
  // Image generation (`handleGenerateImages`)

  /** Each base64 image as a PNG data URL, in order. */
  function DataUrls(images: seq<string>): (urls: seq<string>)
    ensures |urls| == |images|
    ensures forall i :: 0 <= i < |images| ==> urls[i] == DataUrlPrefix + images[i]
  {
    seq(|images|, i requires 0 <= i < |images| => DataUrlPrefix + images[i])
  }

  /** The first update: generation starts and any earlier error is cleared. */
  function ImagesStarted(s: OnsenState): OnsenState
  {
    s.(isGeneratingImage := true, error := None)
  }

  /** The updates after `generateOnsenImage` settles: a non-empty list
      replaces the image URLs; an empty or missing list changes nothing; a
      rejection sets the error; and generation always ends. */
  function ImagesSettled(s: OnsenState, images: Call<Option<seq<string>>>): OnsenState
  {
    var t :=
      match images
      case Returned(Some(b)) => if |b| > 0 then s.(imageUrls := Some(DataUrls(b))) else s
      case Returned(None) => s
      case Threw(_) => s.(error := Some(ImageErrorMessage));
    t.(isGeneratingImage := false)
  }

  /** A whole image round: it ends not generating; the URLs are the prefixed
      images, in order, exactly when a non-empty list came back, and are
      otherwise left as they were; the error is set exactly when the
      generation threw; the concept and video fields are untouched. */
  lemma ImageRound(s: OnsenState, images: Call<Option<seq<string>>>)
    ensures var q := ImagesSettled(ImagesStarted(s), images);
      !q.isGeneratingImage &&
      (images.Returned? && images.value.Some? && |images.value.value| > 0 ==>
        q.imageUrls == Some(DataUrls(images.value.value))) &&
      (!(images.Returned? && images.value.Some? && |images.value.value| > 0) ==> q.imageUrls == s.imageUrls) &&
      (q.error == None <==> images.Returned?) &&
      (images.Threw? ==> q.error == Some(ImageErrorMessage)) &&
      q.selectedConceptUrl == s.selectedConceptUrl && q.videoUrl == s.videoUrl &&
      q.isGeneratingVideo == s.isGeneratingVideo && q.videoLoadingMsg == s.videoLoadingMsg
  {
  }

  // ---------------------------------------------------------------------------
  // Video generation (`handleConceptSelect`)

  /** The first update: the concept is chosen, video generation starts with
      its loading message, and any earlier error is cleared. */
  function ConceptStarted(s: OnsenState, url: string): OnsenState
  {
    s.(selectedConceptUrl := Some(url), isGeneratingVideo := true,
       videoLoadingMsg := PreparingMessage, error := None)
  }

  /** The error text shown when making the video throws. */
  function VideoErrorText(message: Option<string>): (text: string)
    ensures text == ApiConfigErrorMessage <==> MessageIncludes(message, "API_KEY")
    ensures text == VideoErrorMessage <==> !MessageIncludes(message, "API_KEY")
  {
    if MessageIncludes(message, "API_KEY") then ApiConfigErrorMessage else VideoErrorMessage
  }

  /** The updates after the image is read and the video is made (`video`
      stands for both awaits: either may throw). */
  function ConceptSettled(s: OnsenState, video: Call<string>): OnsenState
  {
    var t :=
      match video
      case Returned(url) => s.(videoUrl := Some(url))
      case Threw(message) => s.(error := Some(VideoErrorText(message)));
    t.(isGeneratingVideo := false)
  }

  /** The chat box keeps showing loading while a round of image or video
      generation runs, whatever the chat is doing; once the round settles it
      is idle exactly when the chat and the other generation are. */
  lemma ChatBoxBusyDuringRounds(chatLoading: bool, s: OnsenState, url: string,
                                images: Call<Option<seq<string>>>, video: Call<string>)
    ensures ChatBoxLoading(chatLoading, ImagesStarted(s))
    ensures ChatBoxLoading(chatLoading, ConceptStarted(s, url))
    ensures !ChatBoxLoading(chatLoading, ImagesSettled(ImagesStarted(s), images)) <==>
      !chatLoading && !s.isGeneratingVideo
    ensures !ChatBoxLoading(chatLoading, ConceptSettled(ConceptStarted(s, url), video)) <==>
      !chatLoading && !s.isGeneratingImage
  {
    ImageRound(s, images);
    ConceptRound(s, url, video);
  }

  /** A whole concept round: the concept stays chosen, video generation
      always ends, a made video becomes the video URL with no error, and a
      failure keeps the old video and sets the classified error. */
  lemma ConceptRound(s: OnsenState, url: string, video: Call<string>)
    ensures var q := ConceptSettled(ConceptStarted(s, url), video);
      !q.isGeneratingVideo && q.selectedConceptUrl == Some(url) &&
      q.videoLoadingMsg == PreparingMessage &&
      (video.Returned? ==> q.videoUrl == Some(video.value) && q.error == None) &&
      (video.Threw? ==> q.videoUrl == s.videoUrl && q.error == Some(VideoErrorText(video.message))) &&
      q.imageUrls == s.imageUrls && q.isGeneratingImage == s.isGeneratingImage
  {
  }

  /** While a video is being made the background is the old video if there
      is one, otherwise the concept just chosen; a made video then becomes
      the background. */
  lemma BackgroundDuringConcept(s: OnsenState, url: string, video: Call<string>)
    ensures BackgroundKey(ConceptStarted(s, url)) ==
      if Truthy(s.videoUrl) then s.videoUrl.value else if url != "" then url else DefaultBackground
    ensures video.Returned? && video.value != "" ==>
      BackgroundKey(ConceptSettled(ConceptStarted(s, url), video)) == video.value
  {
  }

  // ---------------------------------------------------------------------------
  // The screen

  /** The screen's own state, with the chat session and the audio player its
      hooks provide. */
  class Screen {
    var onsen: OnsenState
    var hasStartedConversation: bool
    const chat: Session
    const player: AudioPlayer

    predicate Valid()
      reads this, chat, player
    {
      chat.Valid() && player.Valid()
    }

    constructor ()
      ensures Valid() && fresh(chat) && fresh(player)
      ensures onsen == InitialOnsenState && !hasStartedConversation
      ensures chat.messages == [] && !chat.isTyping && !chat.isLoading
      ensures player.State() == NoPlayback
    {
      onsen := InitialOnsenState;
      hasStartedConversation := false;
      chat := new Session();
      player := new AudioPlayer();
    }

    /** The initial-message effect: the first time a message is there, its
        audio (if any) plays and the message is typed; afterwards nothing
        happens, so it is typed at most once. */
    method StartConversation(initialMessage: Option<ChatMessage>, initialAudio: Option<string>, isMuted: bool)
      requires Valid()
      modifies this, chat, player
      ensures Valid() && onsen == old(onsen)
      ensures hasStartedConversation == (old(hasStartedConversation) || initialMessage.Some?)
      ensures old(hasStartedConversation) || initialMessage.None? ==>
        unchanged(this) && unchanged(chat) && unchanged(player)
      ensures !old(hasStartedConversation) && initialMessage.Some? ==>
        chat.isTyping && chat.typingInterval == Some(Reveal(old(chat.nextHandle), initialMessage.value.text, 0)) &&
        chat.currentBotMessage == "" &&
        chat.currentSubtitle == old(chat.currentSubtitle) && chat.lastBotAudio == old(chat.lastBotAudio) &&
        chat.messages == old(chat.messages) && chat.isLoading == old(chat.isLoading)
      ensures !old(hasStartedConversation) && initialMessage.Some? ==>
        chat.TypingStarted(old(chat.nextHandle), initialMessage.value.text)
      ensures !old(hasStartedConversation) && initialMessage.Some? ==>
        player.State() == (if Truthy(initialAudio)
                           then PlaySpec(old(player.State()), isMuted, Playable(initialAudio.value))
                           else old(player.State()))
    {
      if hasStartedConversation || initialMessage.None? {
        return;
      }
      hasStartedConversation := true;
      if Truthy(initialAudio) {
        var _ := player.PlayAudio(initialAudio.value, isMuted);
      }
      chat.RunTypingEffect(initialMessage.value.text);
    }

    /** `handleSendMessage` up to its `await`: the audio stops whether or not
        the chat takes the message, then the chat's entry guard decides. */
    method SendMessage(userInput: string) returns (accepted: bool)
      requires Valid()
      modifies chat, player
      ensures Valid()
      ensures player.State() == StopSpec(old(player.State())) && player.State().playing == {}
      ensures accepted <==> !old(chat.isTyping) && !old(chat.isLoading)
      ensures accepted ==>
        chat.messages == old(chat.messages) + [ChatMessage(User, userInput)] && chat.isLoading &&
        !chat.isTyping && chat.currentBotMessage == "" && chat.currentSubtitle == "" &&
        chat.lastBotAudio == None && chat.typingInterval == None &&
        chat.pending == map[] && chat.subtitleTimeoutRefs == []
      ensures !accepted ==>
        chat.messages == old(chat.messages) && chat.isLoading == old(chat.isLoading) &&
        chat.isTyping == old(chat.isTyping) && chat.currentBotMessage == old(chat.currentBotMessage) &&
        chat.currentSubtitle == old(chat.currentSubtitle) && chat.lastBotAudio == old(chat.lastBotAudio) &&
        chat.typingInterval == old(chat.typingInterval) && chat.pending == old(chat.pending) &&
        chat.subtitleTimeoutRefs == old(chat.subtitleTimeoutRefs)
    {
      StopPreserves(player.State());
      player.StopAudio();
      accepted := chat.Submit(userInput);
    }

    /** `handleSendMessage` after its `await`, for an accepted message: no
        result ends the handler; otherwise the reply's audio plays when there
        is some, the reply is always typed, and image generation starts only
        when the reply carried preferences. Returns those preferences. */
    method ReplyArrived(reply: Call<string>, speech: Call<Option<string>>,
                        parse: string -> Option<OnsenPreferences>, isMuted: bool)
      returns (preferences: Option<OnsenPreferences>)
      requires Valid()
      modifies this, chat, player
      ensures Valid() && !chat.isLoading
      ensures hasStartedConversation == old(hasStartedConversation)
      ensures chat.messages == old(chat.messages)
      ensures !(reply.Returned? && speech.Returned?) ==>
        preferences == None && onsen == old(onsen) && player.State() == old(player.State()) &&
        chat.isTyping == old(chat.isTyping) && chat.typingInterval == old(chat.typingInterval) &&
        chat.lastBotAudio == old(chat.lastBotAudio) && chat.currentBotMessage == old(chat.currentBotMessage) &&
        chat.currentSubtitle == old(chat.currentSubtitle) && chat.pending == old(chat.pending) &&
        chat.subtitleTimeoutRefs == old(chat.subtitleTimeoutRefs)
      ensures reply.Returned? && speech.Returned? ==>
        preferences == JsonFence.ExtractPreferences(reply.value, parse) &&
        chat.isTyping && chat.typingInterval == Some(Reveal(old(chat.nextHandle), reply.value, 0)) &&
        chat.currentBotMessage == "" && chat.currentSubtitle == old(chat.currentSubtitle) &&
        chat.lastBotAudio == speech.value
      ensures reply.Returned? && speech.Returned? ==>
        chat.TypingStarted(old(chat.nextHandle), reply.value)
      ensures reply.Returned? && speech.Returned? ==>
        player.State() == (if Truthy(speech.value)
                           then PlaySpec(old(player.State()), isMuted, Playable(speech.value.value))
                           else old(player.State())) &&
        onsen == (if preferences.Some? then ImagesStarted(old(onsen)) else old(onsen))
      ensures preferences.Some? ==> ChatBoxLoading(chat.isLoading, onsen)
    {
      var result := chat.Complete(reply, speech, parse);
      if result.None? {
        return None;
      }
      if Truthy(result.value.audio) {
        var _ := player.PlayAudio(result.value.audio.value, isMuted);
      }
      chat.RunTypingEffect(result.value.text);
      preferences := result.value.preferences;
      if preferences.Some? {
        onsen := onsen.(isGeneratingImage := true, error := None);
      }
    }

    /** `handleGenerateImages` after `generateOnsenImage` settles. */
    method ImagesArrived(images: Call<Option<seq<string>>>)
      modifies this
      ensures onsen == ImagesSettled(old(onsen), images)
      ensures hasStartedConversation == old(hasStartedConversation)
      ensures !ChatBoxLoading(chat.isLoading, onsen) <==> !chat.isLoading && !old(onsen).isGeneratingVideo
    {
      if images.Returned? {
        var base64Array := images.value;
        if base64Array.Some? && |base64Array.value| > 0 {
          var urls := DataUrls(base64Array.value);
          onsen := onsen.(imageUrls := Some(urls));
        }
      } else {
        onsen := onsen.(error := Some(ImageErrorMessage));
      }
      onsen := onsen.(isGeneratingImage := false);
    }

    /** `handleConceptSelect` up to its first `await`. */
    method SelectConcept(url: string)
      modifies this
      ensures onsen == ConceptStarted(old(onsen), url)
      ensures hasStartedConversation == old(hasStartedConversation)
      ensures ChatBoxLoading(chat.isLoading, onsen)
    {
      onsen := onsen.(selectedConceptUrl := Some(url), isGeneratingVideo := true,
                      videoLoadingMsg := PreparingMessage, error := None);
    }

    /** `handleConceptSelect` after its `await`s settle. */
    method VideoArrived(video: Call<string>)
      modifies this
      ensures onsen == ConceptSettled(old(onsen), video)
      ensures hasStartedConversation == old(hasStartedConversation)
      ensures !ChatBoxLoading(chat.isLoading, onsen) <==> !chat.isLoading && !old(onsen).isGeneratingImage
    {
      match video {
        case Returned(videoUrl) =>
          onsen := onsen.(videoUrl := Some(videoUrl));
        case Threw(message) =>
          var msg := if MessageIncludes(message, "API_KEY") then ApiConfigErrorMessage else VideoErrorMessage;
          onsen := onsen.(error := Some(msg));
      }
      onsen := onsen.(isGeneratingVideo := false);
    }

    /** The read-aloud button: plays the last reply's audio. The handler does
        not check that there is any; without it, `atob` is given `null`,
        which it reads as the text "null". */
    method ReadAloud(isMuted: bool)
      requires Valid()
      modifies player
      ensures Valid()
      ensures player.State() == PlaySpec(old(player.State()), isMuted, Playable(ReadAloudArgument(chat.lastBotAudio)))
      ensures CanReadAloud(chat.lastBotAudio, chat.isTyping) ==>
        player.State() == PlaySpec(old(player.State()), isMuted, Playable(chat.lastBotAudio.value))
    {
      var _ := player.PlayAudio(ReadAloudArgument(chat.lastBotAudio), isMuted);
    }

    /** The close button of the error banner. */
    method DismissError()
      modifies this
      ensures onsen == old(onsen).(error := None)
      ensures hasStartedConversation == old(hasStartedConversation)
    {
      onsen := onsen.(error := None);
    }
  }

  /** Reading "null" aloud never plays anything: it decodes to three bytes,
      an odd count, so the audio fails to decode and `onEnded` runs at once. */
  lemma NullAudioIsNotPlayable()
    ensures !Playable("null")
  {
    var s := "null";
    Base64.NoWhitespace(s);
    assert Base64.StripPadding(s) == s;
    assert Base64.AllBase64(s);
    assert |Base64.DecodeChars(s)| == 3 by {
      assert s[4..] == [];
    }
  }

  /** Empty audio never plays: it decodes to no bytes at all. */
  lemma EmptyAudioIsNotPlayable()
    ensures !Playable("")
  {
    PlayableEncoding([]);
  }
}
