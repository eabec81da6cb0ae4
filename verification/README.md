# MION onsen concierge: a model of the chat core

MION is a browser chat front-end. A concierge bot asks the visitor about
their well-being and taste in scenery, then hands back a block of "onsen
preferences". The screen turns these preferences into a set of generated bath
images. Choosing one of the images turns it into a looping background video.
This project models the core of that front-end in Dafny:

- **The chat-session hook** (`ChatSession`, with `SentenceSplitter`,
  `SubtitleTimeline` and `JsonFence`).
  - It keeps the append-only message history.
  - It reveals each bot reply one character per tick.
  - It splits the reply into sentences and schedules one subtitle timeout
    per sentence, plus a final clearing timeout.
  - It extracts the fenced JSON preferences block from a reply.
- **The audio utilities** (`AudioUtils`, with `Base64` for the browser's
  `atob`).
  - They decode base64 speech into 16-bit little-endian PCM, normalised and
    de-interleaved into an audio buffer.
  - They keep at most one audible source, through `stopAudio` and
    `playAudio`.
- **The two main screens.**
  - `MainScreen` is the current screen: the chat box, the read-aloud button,
    image generation, concept selection and the background key.
  - `LegacyMainScreen` is the earlier component: a bot-only history revealed
    by an interval, and an image viewer driven by the keyboard.
- **The five chat/image service variants**, with what they share in
  `ServiceCommon`:
  - `GeminiService2`: three development modes and a classified error reply.
  - `GeminiService`: the first variant.
  - `GeminiServiceDev`: the fast-development variant, with sequential image
    generation.
  - `GeminiServiceMock`: the offline variant.
  - `MockService`: canned replies, a mock audio marker and an image-to-video
    map.

Asynchronous functions are split at their `await`s into phases. Each phase
is a method or a function. The outcome of an awaited call is a parameter of
type `Call<T>`: `Returned(value)` or `Threw(message)`. Module-level mutable
state (`turn`, `wellbeingInfo`, `responseIndex`, the image-to-video map)
becomes the fields of a class. The state of React components and hooks
becomes class fields updated by methods. Each method's `ensures` states the
whole new state.

The three Gemini variants write the same combined prompt and the same image
prompt, word for word. The shared `ServiceCommon.CombinedPrompt` and
`ServiceCommon.CreateImagePrompt` therefore model all three exactly.

## Model

| member | source | states |
|---|---|---|
| SentenceSplitter.FindBoundary | hooks/useChatSession.ts:6-9 | the split point found is the first place at or after the start where a `.`, `?` or `!` is followed by whitespace; None means there is none |
| SentenceSplitter.Pieces | hooks/useChatSession.ts:6-9 | `split(/(?<=[.?!])\s+/)` always yields at least one piece |
| SentenceSplitter.TrimAll | hooks/useChatSession.ts:8 | the map keeps the length, and every entry is the trim of its input and is trimmed |
| SentenceSplitter.DropEmpty | hooks/useChatSession.ts:8 | `filter(Boolean)` keeps only non-empty strings, and keeps trimmed strings trimmed |
| SentenceSplitter.SplitIntoSentences | hooks/useChatSession.ts:6-9 | every sentence is non-empty and trimmed; the empty text gives no sentence |
| SentenceSplitter.NoBoundaryOnePiece | hooks/useChatSession.ts:6-9 | a text without a split point is a single piece |
| SentenceSplitter.NoBoundaryAtMostOneSentence | hooks/useChatSession.ts:6-9 | a text without a split point yields at most one sentence |
| SentenceSplitter.PiecesEndWithPunctuation | hooks/useChatSession.ts:7 | the lookbehind keeps the punctuation: every piece but the last ends with `.`, `?` or `!` |
| SentenceSplitter.TrimAllKeepsSentenceEnds | hooks/useChatSession.ts:8 | after trimming, the pieces that ended a sentence still do, and only the last piece can be dropped as empty |
| SentenceSplitter.SentencesEndWithPunctuation | hooks/useChatSession.ts:6-9 | every sentence but the last ends with its closing punctuation |
| SentenceSplitter.VisiblePieces | hooks/useChatSession.ts:7 | splitting removes only whitespace: the non-whitespace characters of the pieces are those of the text, in order |
| SentenceSplitter.SplitPreservesContent | hooks/useChatSession.ts:6-9 | the sentences, joined, hold exactly the non-whitespace characters of the text, in order |
| SentenceSplitter.BlankTextHasNoSentences | hooks/useChatSession.ts:6-9 | a whitespace-only text yields no sentence |
| SubtitleTimeline.Duration | hooks/useChatSession.ts:55-58 | a sentence's display time is non-negative, and positive for a non-empty sentence |
| SubtitleTimeline.TotalDurationMonotone | hooks/useChatSession.ts:53-62 | the cumulative delay never decreases along the sentences |
| SubtitleTimeline.TotalDurationStrictlyMonotone | hooks/useChatSession.ts:53-62 | with non-empty sentences the cumulative delay strictly grows |
| SubtitleTimeline.ShowTimesOrdered | hooks/useChatSession.ts:53-62 | the first sentence shows at once, and show times are ordered (strictly for non-empty sentences) |
| SubtitleTimeline.ClearAfterEveryShow | hooks/useChatSession.ts:64-65 | the final clear comes at least two seconds after every sentence's display time has run out |
| ChatSession.Handles | hooks/useChatSession.ts:59 | the handles of consecutive `setTimeout` calls are consecutive |
| ChatSession.SentenceTimers | hooks/useChatSession.ts:53-62 | one timeout per sentence, on its own handle, showing that sentence at its cumulative delay |
| ChatSession.Schedule | hooks/useChatSession.ts:53-65 | a reply's schedule has one timeout per sentence plus the clearing one, on consecutive handles |
| ChatSession.ScheduleAt | hooks/useChatSession.ts:53-65 | each scheduled timeout shows its sentence at its show time; the last one clears the subtitle at the clear time |
| ChatSession.ScheduleInOrder | hooks/useChatSession.ts:53-65 | with non-empty sentences, later handles fire strictly later and show later sentences; only the last one clears |
| ChatSession.ReplyScheduleInOrder | hooks/useChatSession.ts:53-65 | a reply's subtitles come in sentence order, strictly spaced in time |
| ChatSession.ScheduleStep | hooks/useChatSession.ts:56-60 | one loop step adds the next sentence's timeout and advances the cumulative delay by its duration |
| ChatSession.ScheduleComplete | hooks/useChatSession.ts:64-65 | the sentence timeouts and the clearing timeout make up the whole schedule |
| ChatSession.ScheduleValid | hooks/useChatSession.ts:53-65 | a fresh schedule keeps the timer table and the remembered handles consistent |
| ChatSession.ScheduleTimeouts | hooks/useChatSession.ts:53-65 | the loop schedules exactly the reply's schedule and remembers each handle it sets |
| ChatSession.Session.constructor | hooks/useChatSession.ts:12-20 | the hook starts with no history, no subtitle, nothing typing or loading and no timers |
| ChatSession.Session.ClearTimeouts | hooks/useChatSession.ts:22-29 | every remembered timeout and the reveal interval are cleared; nothing else changes |
| ChatSession.Session.RunTypingEffect | hooks/useChatSession.ts:31-66 | typing starts from an empty buffer, with the interval set and the reply's whole subtitle schedule pending (together `TypingStarted`) |
| ChatSession.Session.StartTyping | hooks/useChatSession.ts:31-66 | the same for given sentences: the earlier timers are cleared and the new ones set on fresh handles |
| ChatSession.Session.SetTimers | hooks/useChatSession.ts:37-65 | on a cleared timer table: the interval and the schedule are set, and the counter advances past every handle used |
| ChatSession.Session.Tick | hooks/useChatSession.ts:37-50 | one interval run shows the next character, or ends typing with the whole reply shown and the interval cleared |
| ChatSession.Session.FireTimeout | hooks/useChatSession.ts:59-65 | a firing timeout shows its sentence (or clears the subtitle) and leaves the table |
| ChatSession.Session.SetCurrentSubtitle | hooks/useChatSession.ts:126-137 | the exported setter changes only the subtitle |
| ChatSession.Session.Submit | hooks/useChatSession.ts:68-78 | refused while typing or loading; otherwise the user message is appended, loading starts and the timers are cleared |
| ChatSession.Session.Complete | hooks/useChatSession.ts:82-123 | loading always ends; a reply and its speech yield the reply text, its audio and the preferences extracted from it; a failure yields nothing |
| JsonFence.CaptureEnd | hooks/useChatSession.ts:86-88 | the lazy capture stops at the first place where optional whitespace and "```" follow |
| JsonFence.MatchAt | hooks/useChatSession.ts:86-88 | a match starts only at "```json" |
| JsonFence.ExtractPreferences | hooks/useChatSession.ts:86-100 | preferences come back exactly when there is a non-empty fence body that parses, and are its parse |
| JsonFence.NoOpeningNoBody | hooks/useChatSession.ts:86-88 | a reply without "```json" has no payload |
| JsonFence.MatchIsTrimmed | hooks/useChatSession.ts:86-88 | the body of a match is trimmed and holds no "```" |
| JsonFence.FenceBodyIsTrimmed | hooks/useChatSession.ts:86-88 | whatever body the search returns is trimmed and holds no "```" |
| JsonFence.FencedLaidOut | hooks/useChatSession.ts:86-88 | where prefix, opening, body and closing sit in a fenced reply |
| JsonFence.MatchLaidOut | hooks/useChatSession.ts:86-88 | at the opening of a laid-out reply, the match captures exactly the body |
| JsonFence.FenceRoundTrip | hooks/useChatSession.ts:86-88 | a trimmed, backtick-free body fenced after a backtick-free prefix is read back exactly |
| JsonFence.NoMatchBefore | hooks/useChatSession.ts:86-88 | no match starts inside a backtick-free prefix |
| JsonFence.CaptureEndIsFirst | hooks/useChatSession.ts:86-88 | the capture ends at the first closing position |
| JsonFence.FirstMatchWins | hooks/useChatSession.ts:86-88 | the search returns the first match |
| Common.TrimStart | hooks/useChatSession.ts:8 | removes exactly the leading whitespace |
| Common.TrimEnd | hooks/useChatSession.ts:8 | removes exactly the trailing whitespace |
| Common.Trim | hooks/useChatSession.ts:8 | the result neither starts nor ends with whitespace |
| Common.TrimIsFactor | hooks/useChatSession.ts:8 | the trim is a factor of the input, and everything cut away is whitespace |
| Common.SkipSpaces | hooks/useChatSession.ts:7 | `\s+` is greedy: the run ends at the first non-whitespace character |
| Base64.CharValue | utils/audioUtils.ts:10 | an alphabet character has a 6-bit value |
| Base64.ValueChar | utils/audioUtils.ts:10 | each 6-bit value has an alphabet character, which maps back to it |
| Base64.StripWhitespace | utils/audioUtils.ts:10 | `atob` first removes all ASCII whitespace |
| Base64.DecodeBase64 | utils/audioUtils.ts:10 | the forgiving decode succeeds exactly on whitespace-free, unpadded alphabet text whose length is not 1 mod 4 |
| Base64.Atob | utils/audioUtils.ts:10 | `atob` throws exactly where the decode fails; otherwise one character per decoded byte |
| Base64.BinaryString | utils/audioUtils.ts:13-15 | the characters' codes are the bytes |
| Base64.GroupRoundTrip | utils/audioUtils.ts:10 | decoding a group gives back the three bytes its encoding held |
| Base64.UnpaddedLength | utils/audioUtils.ts:10 | the unpadded encoding leaves 0, 2 or 3 characters after its last full group |
| Base64.EncodeIsPadded | utils/audioUtils.ts:10 | the padded encoding is the unpadded one followed by the padding |
| Base64.DecodeEncodeUnpadded | utils/audioUtils.ts:10 | decoding undoes the unpadded encoding |
| Base64.AtobEncode | utils/audioUtils.ts:9-17 | round trip: `atob` of the encoding of any bytes is their binary string |
| Base64.DecodeEncode | utils/audioUtils.ts:9-17 | round trip: decoding the encoding of any bytes gives the bytes |
| Base64.PaddingStripped | utils/audioUtils.ts:10 | the decoder removes exactly the padding the encoder added |
| Base64.WhitespaceIgnored | utils/audioUtils.ts:10 | whitespace anywhere in the input does not change the result |
| Base64.ForeignCharRejected | utils/audioUtils.ts:10 | a character outside the alphabet that is neither whitespace nor `=` makes `atob` throw |
| AudioUtils.Decode | utils/audioUtils.ts:9-17 | fails exactly where `atob` throws; otherwise a fresh array holding the decoded bytes |
| AudioUtils.AudioBuffer.constructor | utils/audioUtils.ts:37 | a fresh buffer with the requested channels, length and rate |
| AudioUtils.Int16At | utils/audioUtils.ts:35 | a 16-bit sample from two bytes, least significant first, read as two's complement |
| AudioUtils.Int16View | utils/audioUtils.ts:35 | the view has one sample per byte pair |
| AudioUtils.NormalizeInRange | utils/audioUtils.ts:43 | every normalised sample lies in [-1, 1) |
| AudioUtils.NormalizeInjective | utils/audioUtils.ts:43 | normalising keeps distinct samples distinct |
| AudioUtils.InterleavedIndex | utils/audioUtils.ts:39-45 | every index the loops read lies inside the data |
| AudioUtils.SampleLands | utils/audioUtils.ts:36-45 | every sample of the whole frames lands in the buffer, at channel `k mod n`, frame `k / n` |
| AudioUtils.DeinterleaveInjective | utils/audioUtils.ts:39-45 | no two buffer positions read the same sample |
| AudioUtils.DecodeAudioData | utils/audioUtils.ts:28-47 | fails exactly where the view or the buffer cannot be made; otherwise each channel holds its de-interleaved, normalised samples |
| AudioUtils.PlayableEncoding | utils/audioUtils.ts:110-122 | the encoding of some bytes plays exactly when there is an even number of them, at least two |
| AudioUtils.DecodeSpeech | utils/audioUtils.ts:110-122 | the source starts exactly when the audio is playable |
| AudioUtils.NoPlaybackValid | utils/audioUtils.ts:53-61 | the initial playback state keeps the invariant |
| AudioUtils.StopPreserves | utils/audioUtils.ts:53-61 | after `stopAudio` nothing is audible and the ref is empty; stopping is idempotent and keeps the invariant |
| AudioUtils.PlayPreserves | utils/audioUtils.ts:73-134 | `playAudio` silences the previous source first; at most the new source is audible, and only when playable and not muted; the invariant is kept |
| AudioUtils.EndedPreserves | utils/audioUtils.ts:123-129 | a source's end clears the ref only if the ref still holds it, and runs `onEnded` once |
| AudioUtils.AudioPlayer.constructor | utils/audioUtils.ts:53-61 | no source, nothing playing |
| AudioUtils.AudioPlayer.StopAudio | utils/audioUtils.ts:53-61 | the new state is the stop of the old one |
| AudioUtils.AudioPlayer.PlayAudio | utils/audioUtils.ts:73-134 | the new state is the play of the old one |
| AudioUtils.AudioPlayer.SourceEnded | utils/audioUtils.ts:123-129 | the new state is the end of that call's source |
| MainScreen.BackgroundKeyCases | screens/MainScreen.tsx:136 | the background key is never empty: the video if truthy, else the concept if truthy, else the default |
| MainScreen.ChatBoxBusyDuringRounds | screens/MainScreen.tsx:218 | the chat box shows loading throughout an image or video round, whatever the chat does; after the round settles it is idle exactly when the chat and the other generation are |
| MainScreen.ReadAloudPlaysReplyAudio | screens/MainScreen.tsx:222-225 | with the button enabled, reading aloud plays the last reply's audio; a missing or empty audio never plays |
| MainScreen.DataUrls | screens/MainScreen.tsx:90-93 | each image becomes a PNG data URL, in order |
| MainScreen.ImageRound | screens/MainScreen.tsx:85-104 | an image round always ends not generating; images give their data URLs; none gives the error |
| MainScreen.VideoErrorText | screens/MainScreen.tsx:121-124 | the API configuration message exactly when the error mentions `API_KEY` |
| MainScreen.ConceptRound | screens/MainScreen.tsx:106-128 | the concept stays chosen, video generation always ends, a video replaces the background and a failure shows its error |
| MainScreen.BackgroundDuringConcept | screens/MainScreen.tsx:106-136 | while the video is made the old video (or the new concept) is the background; a made video becomes the background |
| MainScreen.Screen.constructor | screens/MainScreen.tsx:38-48 | the initial onsen state, no conversation started, an empty session and silent player |
| MainScreen.Screen.StartConversation | screens/MainScreen.tsx:53-61 | the first initial message plays its audio and starts the reveal, once: the interval and the message's whole subtitle schedule are set up (`TypingStarted`), with history, loading, audio and subtitle kept |
| MainScreen.Screen.SendMessage | screens/MainScreen.tsx:65-72 | the audio always stops; the message is accepted exactly when the session is neither typing nor loading; an accepted one is appended, loading starts and the reveal, subtitle, audio and timers are cleared; a refused one changes no session state |
| MainScreen.Screen.ReplyArrived | screens/MainScreen.tsx:73-83 | loading ends and the history is kept; with a reply and its speech the audio is recorded, truthy audio plays, the reply's reveal and subtitle schedule start (`TypingStarted`) and extracted preferences start image generation, so the chat box stays loading; a failure keeps the audio, reveal, subtitle and timers |
| MainScreen.Screen.ImagesArrived | screens/MainScreen.tsx:94-103 | the onsen state becomes the settled image round; the chat box is then idle exactly when the chat and video generation are |
| MainScreen.Screen.SelectConcept | screens/MainScreen.tsx:107-113 | the concept is chosen and video generation starts, so the chat box shows loading |
| MainScreen.Screen.VideoArrived | screens/MainScreen.tsx:114-127 | the onsen state becomes the settled concept round; the chat box is then idle exactly when the chat and image generation are |
| MainScreen.Screen.ReadAloud | screens/MainScreen.tsx:222-225 | the handler's argument (the last reply's audio, or "null" without one) is played through the player; with the button enabled, that is the last reply's audio |
| MainScreen.Screen.DismissError | screens/MainScreen.tsx:244 | only the error is cleared |
| MainScreen.NullAudioIsNotPlayable | screens/MainScreen.tsx:222 | the non-null assertion passes the text "null", which never plays |
| LegacyMainScreen.TicksMidway | components/MainScreen.tsx:59-67 | midway through a reveal, `k` ticks show `k` more characters |
| LegacyMainScreen.RevealProgress | components/MainScreen.tsx:53-67 | after `k` ticks the buffer is the first `k` characters and typing continues |
| LegacyMainScreen.RevealCompletes | components/MainScreen.tsx:59-67 | once past the end, the whole text is shown, typing has ended and the interval is cleared |
| LegacyMainScreen.TicksAfter | components/MainScreen.tsx:59-67 | ticks compose |
| LegacyMainScreen.IdleTicks | components/MainScreen.tsx:68 | with no interval running, ticks change nothing |
| LegacyMainScreen.KeyCases | components/MainScreen.tsx:73-90 | Space opens the viewer unless an input has focus; Escape leaves it closed; other keys change nothing |
| LegacyMainScreen.Screen.constructor | components/MainScreen.tsx:45-70 | the greeting is the history, and its reveal has started |
| LegacyMainScreen.Screen.MessagesChanged | components/MainScreen.tsx:53-70 | the old interval is cleared; a bot message as the last one starts its reveal |
| LegacyMainScreen.Screen.Tick | components/MainScreen.tsx:59-67 | one interval run, keeping the reveal invariant |
| LegacyMainScreen.Screen.SendMessage | components/MainScreen.tsx:92-99 | refused while typing or loading; otherwise loading starts and the history is unchanged |
| LegacyMainScreen.Screen.ReplyArrived | components/MainScreen.tsx:101-105 | the reply is appended, loading ends and its reveal starts |
| LegacyMainScreen.Screen.KeyDown | components/MainScreen.tsx:73-90 | the viewer follows the key rules; the default is prevented exactly for Space outside an input |
| LegacyMainScreen.Screen.CloseViewer | components/MainScreen.tsx:174 | the viewer is closed and nothing else changes |
| ServiceCommon.NoBacktickJoin | services/geminiService2.ts:200-218 | a joined text is backtick-free exactly when both parts are |
| ServiceCommon.MembersClean | services/geminiService2.ts:200-218 | members built from backtick-free text are backtick-free |
| ServiceCommon.ObjectClean | services/geminiService2.ts:200-218 | an object built from backtick-free text is backtick-free |
| ServiceCommon.StringifyFits | services/geminiService2.ts:200-218 | stringified preferences can sit in a json fence: backtick-free and trimmed |
| ServiceCommon.PreferencesReplyRoundTrip | services/geminiService2.ts:200-218 | the session reads exactly the stringified preferences back out of the mock JSON reply |
| ServiceCommon.MockPreferencesFit | services/geminiService2.ts:200-218 | the fixed mock preferences qualify |
| ServiceCommon.InterleaveHoles | services/geminiService2.ts:223-240 | the filled holes of a prompt template sit where its pieces put them |
| ServiceCommon.PromptEmbedsAnswers | services/geminiService2.ts:223-240 | the combined prompt quotes the stored well-being answer, then the latest answer |
| ServiceCommon.TurnAdvances | services/geminiService2.ts:156-195 | the turn counter advances by one on each of the first three scripted turns and then stays |
| ServiceCommon.Run | services/geminiService2.ts:131-195 | a run of messages has one outcome per message |
| ServiceCommon.EndedIsFinal | services/geminiService2.ts:158-161 | once the Developing script is over, every message gets the ended notice |
| ServiceCommon.ForwardsUnchanged | services/geminiService2.ts:131-195 | in test mode, or in fast_develop after the script, every message is forwarded verbatim |
| ServiceCommon.ScriptFromStart | services/geminiService2.ts:156-195 | from a fresh start: two questions, then the preferences step with the stored first answer |
| ServiceCommon.Settle | services/geminiService2.ts:144-195 | a made-up answer as it is; a forwarded message gives the model's text, "" for none, or the error reply |
| ServiceCommon.GuardedSpeech | services/geminiService2.ts:271-304 | audio exactly when not Developing, the text is not blank and the call returned audio |
| ServiceCommon.FirstInlineData | services/geminiService2.ts:477-484 | the first part carrying inline data, or None when none does |
| ServiceCommon.ExtractImageData | services/geminiService2.ts:477-484 | None without parts; otherwise the first inline data |
| ServiceCommon.Somes | services/geminiService2.ts:379-383 | the filter keeps at most as many entries |
| ServiceCommon.SomesAppend | services/geminiService2.ts:379-383 | filtering keeps order across a concatenation |
| ServiceCommon.SomesEmpty | services/geminiService2.ts:379-383 | nothing is left exactly when every entry was null |
| ServiceCommon.AllReturned | services/geminiService2.ts:378 | `Promise.all` gives every value exactly when every call returned |
| ServiceCommon.Extracted | services/geminiService2.ts:379-381 | one extraction per response, in order |
| ServiceCommon.Base64Of | services/geminiService2.ts:337-344 | the Developing copies use the base image's data alone; a failed load stays the same failure |
| ServiceCommon.VariationCalls | services/geminiService2.ts:372-376 | one call per variation, in order, each given the base prompt followed by its variation and the base image with its MIME type |
| ServiceCommon.ImagePromptOpens | services/geminiService2.ts:438-445 | the image prompt opens with the fixed instruction and quotes the atmosphere right after it |
| ServiceCommon.ImagePromptCloses | services/geminiService2.ts:438-445 | the image prompt closes with the fixed description of the mood |
| ServiceCommon.ParallelImagesResult | services/geminiService2.ts:372-386 | any failing call loses all; otherwise the extracted images in variation order, null when none |
| ServiceCommon.Copies | services/geminiService2.ts:337-344 | n copies of the base image, or null when it cannot be loaded |
| ServiceCommon.ParallelImagesCount | services/geminiService2.ts:372-386 | a parallel round yields at most one image per variation |
| GeminiService2.HandleChatError | services/geminiService2.ts:245-255 | the quota text for '429' or 'quota', else the API-key text for 'API key', else the apology |
| GeminiService2.ChatService.constructor | services/geminiService2.ts:113-114 | the mode is fixed and the conversation fresh |
| GeminiService2.ChatService.SendMessage | services/geminiService2.ts:131-139 | one service turn of the mode |
| GeminiService2.ChatService.SendMockOrHybridMessage | services/geminiService2.ts:156-195 | one scripted turn, ending in Developing mode and forwarding in fast_develop |
| GeminiService2.FailedCallReplies | services/geminiService2.ts:144-151 | a failed chat call never surfaces: its reply is one of the three texts |
| GeminiService2.GenerateOnsenImage | services/geminiService2.ts:324-387 | Developing gives four copies of the base data; otherwise no base gives null and a base gives the parallel round over `CreateImagePrompt` of the preferences |
| GeminiService2.ImageCount | services/geminiService2.ts:311-387 | at most four images, and never an empty list |
| GeminiService.ChatErrorReply | services/geminiService.ts:99-108 | every failed chat call gets the connection apology |
| GeminiService.ErrorRepliesCompared | services/geminiService.ts:99-108 | this reply agrees with the later classified handler exactly for messages without '429', 'quota' or 'API key' |
| GeminiService.ChatService.constructor | services/geminiService.ts:62-66 | the mode is fixed and the conversation fresh |
| GeminiService.ChatService.SendMessage | services/geminiService.ts:88-182 | one service turn of the mode |
| GeminiService.GenerateOnsenImage | services/geminiService.ts:235-369 | Developing gives four copies of the base data; otherwise no base gives null and a base gives the parallel round over `CreateImagePrompt` of the preferences |
| GeminiService.ImageCount | services/geminiService.ts:280-330 | its variations are the first two of the later variant's; at most two images, four in Developing, never an empty list |
| GeminiServiceDev.HandleError | services/geminiService.dev.ts:153-158 | the daily-limit text exactly for '429' or 'quota'; the apology otherwise |
| GeminiServiceDev.HandlersCompared | services/geminiService.dev.ts:153-158 | agrees with the later handler except on 'API key' messages without a quota mark |
| GeminiServiceDev.ChatService.constructor | services/geminiService.dev.ts:101-102 | the conversation is fresh |
| GeminiServiceDev.ChatService.SendMessage | services/geminiService.dev.ts:107-151 | one fast_develop turn |
| GeminiServiceDev.Harvests | services/geminiService.dev.ts:213-241 | one harvest per call, in order |
| GeminiServiceDev.FirstImage | services/geminiService.dev.ts:231-236 | the part loop finds the same image as `extractImageData` |
| GeminiServiceDev.CollectImages | services/geminiService.dev.ts:213-241 | the sequential loop collects the harvested images of the variations, in order |
| GeminiServiceDev.GenerateOnsenImage | services/geminiService.dev.ts:194-248 | null without a base; otherwise the images collected with `CreateImagePrompt` of the preferences, or null when none |
| GeminiServiceDev.SequentialAgainstParallel | services/geminiService.dev.ts:213-243 | with every call returning, this agrees with the parallel round; at most one image per variation; none exactly when every call yields none |
| GeminiServiceMock.ChatService.constructor | services/geminiService.mock.ts:50-51 | the conversation is fresh |
| GeminiServiceMock.ChatService.SendMessage | services/geminiService.mock.ts:57-98 | one Developing turn, always answered without a chat call |
| GeminiServiceMock.GenerateSpeech | services/geminiService.mock.ts:104-107 | there is never audio |
| GeminiServiceMock.SpeechLikeDeveloping | services/geminiService.mock.ts:104-107 | the same as the services with modes give in Developing mode |
| GeminiServiceMock.GenerateOnsenImage | services/geminiService.mock.ts:113-139 | two copies of the base image, or null when it cannot be loaded |
| GeminiServiceMock.ImagesLikeDeveloping | services/geminiService.mock.ts:113-139 | the first two of the four Developing copies |
| GeminiServiceMock.GenerateLoopingVideo | services/geminiService.mock.ts:145-150 | always throws, with the not-available message |
| GeminiServiceMock.NoUnderscoreNoApiKey | services/geminiService.mock.ts:148 | a message without an underscore does not mention `API_KEY` |
| GeminiServiceMock.ConceptFailsOffline | services/geminiService.mock.ts:145-150 | choosing a concept offline ends in the generic video error, with the video unchanged and generation over |
| MockService.NextIndex | services/mockService.ts:89-90 | the index moves one further but never past the last reply |
| MockService.Replies | services/mockService.ts:85-93 | one reply per message |
| MockService.RepliesFrom | services/mockService.ts:85-93 | the `j`-th reply from index `i` is the one `j` further on, capped at the last |
| MockService.ReplySequence | services/mockService.ts:22-93 | from a fresh start, the replies run through the list in order and then repeat the last |
| MockService.SummaryEntry | services/mockService.ts:31-50 | the ninth reply is the summary |
| MockService.IntroducedRoundTrip | services/mockService.ts:31-50 | stringified preferences fenced after a backtick-free introduction are read back exactly |
| MockService.SummaryExtracts | services/mockService.ts:31-50 | the session reads the summary's preferences back out of the ninth reply |
| MockService.GenerateSpeech | services/mockService.ts:99-110 | nothing for blank text, the mock marker otherwise |
| MockService.SpeechIsNotPlayable | services/mockService.ts:99-110 | the marker is not base64 audio, so the audio utilities never play it |
| MockService.Split | services/mockService.ts:69 | `split(',')` always yields at least one field |
| MockService.SplitJoin | services/mockService.ts:69 | splitting undoes joining when no field holds a comma |
| MockService.SecondField | services/mockService.ts:69 | `[1]` is defined exactly when there is a comma |
| MockService.DataUrlField | services/mockService.ts:69 | the second field of a data URL is its payload |
| MockService.SplitAtComma | services/mockService.ts:69 | text holding a comma splits into at least two fields |
| MockService.DataUrlHasSecondField | services/mockService.ts:69 | `split(',')[1]` of a data URL is always defined |
| MockService.FileToBase64 | services/mockService.ts:60-79 | as written: a failed fetch gives "", a failed read escapes as a rejection, a read gives the second comma-separated field of the data URL, which is the payload when the header holds no comma |
| MockService.CommaInHeaderSplitsHeader | services/mockService.ts:69 | with a comma in the header (`data:a,b;base64` with payload `QQ==`) the helper returns `b;base64`, a piece of the header |
| MockService.ReaderErrorEscapes | services/mockService.ts:64-78 | the input that shows the escape: fetched, then the reader fails |
| MockService.FileToBase64Caught | services/mockService.ts:60-79 | corrected: every failure gives ""; a read gives the same second field as the original, the payload when the header holds no comma |
| MockService.CaughtAgrees | services/mockService.ts:60-79 | the corrected helper agrees wherever the original returns, and gives "" where it rejects |
| MockService.VideoFor | services/mockService.ts:149-158 | the mapped video when truthy, else the fallback; never empty |
| MockService.RegisteredVideos | services/mockService.ts:123-158 | after registration each image selects its own video (the second wins when both are equal), and any other image keeps its old one |
| MockService.MockService.constructor | services/mockService.ts:20-54 | index zero and an empty map |
| MockService.MockService.SendMessage | services/mockService.ts:85-93 | the reply at the index, which then moves on; the map is unchanged |
| MockService.MockService.GenerateOnsenImage | services/mockService.ts:116-133 | each image is read with the as-written `fileToBase64`; a rejecting read rejects the call with its error and registers nothing; otherwise both images are registered with their videos and returned in order |
| MockService.MockService.GenerateLoopingVideo | services/mockService.ts:139-159 | the video selected for the image |

## Left out

- I/O, the network and the generative model are not modelled. Every awaited call (chat, speech, image and video generation, `fetch`, `FileReader`) is a `Call<T>` parameter.
- `JSON.parse` is a parameter `parse`. `JSON.stringify` is modelled only for texts that need no escaping.
- `generateLoopingVideo` of the Gemini variants is left out: polling, the video download and object URLs. See services/geminiService.ts:371-443 and services/geminiService2.ts:508-591. The screen gets its outcome as a `Call<string>`.
- Loading the base image is modelled as the awaited `Call<BaseImage>` of its data and MIME type; the Developing copies use only its data (`Base64Of`). `loadMockImages` is modelled as the awaited images' `Call<string>`.
- A response part's `inlineData.data` is taken as present whenever `inlineData` is.
- The mock services' artificial delays (`setTimeout` waits) and all console logging are left out.
- `Promise.all` is modelled only as "all returned, or a failure". Which failure comes first is not modelled.
- React's batching of state updates and the timing of updater functions are not modelled. Each phase applies its updates in program order.
- LegacyMainScreen.Screen.Tick: the updater `prev => prev + lastMessage.text[charIndex]` closes over the mutable `charIndex`. The model reads it in program order, before `charIndex++`. If React runs the updater at the next render, after the increment, a reveal can skip characters and end with "undefined". `TicksMidway` and `RevealProgress` rest on the program-order reading.
- AudioUtils.AudioPlayer.PlayAudio: one call runs to its end before the next begins. Its two awaits, `ctx.resume()` (taken only for a suspended context) and `decodeAudioData`, are treated as atomic, and the suspended-context branch is not distinguished.
- AudioUtils.PlayPreserves: what the atomic awaits hide is overlapping calls. A second `playAudio` that begins while the first waits at one of them finds no source to stop. Both calls then start a source, and the first keeps playing with nothing holding it, so two sources are audible. The at-most-one-audible-source guarantee holds only for calls that do not overlap.
- Web Audio's own limits on channels and sample rates are not modelled.
- AudioUtils.Int16At: assumes a little-endian platform, as the `Int16Array` view does on the browsers this runs in.
- SubtitleTimeline.Duration: uses exact reals, so floating-point rounding of the delays is not modelled.
- Text lengths count `char`s. UTF-16 surrogate pairs are not modelled.
- The screen is wired to AudioUtils directly. The `useAudioController` hook is not part of this model.
- Internationalisation, the other components and the service selector are not part of this model.
- MockService.MockService.SendMessage: returns the `Canned` entry instead of its text. `CannedText` renders the entry.
- MockService.FileToBase64: a read is a `DataUrl`, a header and a payload joined by a comma. The result is the second field of that text. It equals the payload only when neither part holds a comma (`DataUrlField`); `CommaInHeaderSplitsHeader` shows a header comma.
- The `MOCK_MP3` marker: the source has no player that handles the marker; the model proves the audio utilities never play it.

## Findings

| source | as written | input that shows it | evidently intended | confidence | as-written member | corrected member |
|---|---|---|---|---|---|---|
| services/mockService.ts:60-79 | the `FileReader` promise is returned without `await` inside `try`, so a reader error rejects the call instead of reaching the `catch` | `fetch` succeeds, then the reader fails (`onerror`) | every failure gives '' | medium, not executed | MockService.FileToBase64, MockService.ReaderErrorEscapes | MockService.FileToBase64Caught, MockService.CaughtAgrees |
