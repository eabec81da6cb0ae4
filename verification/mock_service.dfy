/** The development mock service: canned replies in a fixed order, a marker
    instead of speech, two pre-made images each mapped to a pre-made video. */
module MockService {
  import opened Common
  import opened ServiceCommon
  import JsonFence
  import AudioUtils
  import Base64

  // ---------------------------------------------------------------------------
  // The canned replies

  const SummaryIntro1 := "Thank you for sharing all that information."
  const SummaryIntro2 := " Let me summarize what you've told me"
  const SummaryIntro3 := " to make sure I have everything correct."
  const SummaryIntro4 := " Based on your preferences,"
  const SummaryIntro5 := " here is your personalized onsen profile:"
  const SummaryIntro := SummaryIntro1 + SummaryIntro2 + SummaryIntro3 + SummaryIntro4 + SummaryIntro5

  /** The preferences in the summary reply. */
  const SummaryPreferences := OnsenPreferences(
    WellbeingProfile("sensitive", "shoulders and neck", "moderate", "warm", "relaxation and stress relief"),
    AestheticProfile("serene natural outdoor setting", "warm sunset tones with purple accents", "golden hour"))

  /** The ninth reply: an introduction, the summary as a fenced JSON block
      laid out as `JSON.stringify(value, null, 2)` lays it out, and the
      closing sentence. */
  function SummaryReply(): string
  {
    JsonFence.Fenced(SummaryIntro + "\n\n", Stringify(SummaryPreferences), "\n\n" + ThankYou)
  }

  /** The entries of `MOCK_RESPONSES`. */
  datatype Canned =
    | Welcome | AskSkinType | AskSoreness | AskStress | AskTemperature
    | AskAtmosphere | AskPalette | AskTimeOfDay | Summary | Farewell

  function CannedText(c: Canned): string
  {
    match c
    case Welcome => "Konnichiwa, welcome. I am MION, your personal onsen concierge. My purpose is to help you create the perfect hot spring experience to soothe your body and mind."
    case AskSkinType => "To create your personalized onsen experience, I need to understand your needs. Let's begin with your well-being profile. First, could you tell me about your skin type? Is it dry, oily, sensitive, or combination?"
    case AskSoreness => "Thank you. Now, do you have any muscle soreness or tension? If so, where do you feel it most?"
    case AskStress => "I understand. What is your current stress level? Would you say it's low, moderate, or high?"
    case AskTemperature => "Perfect. What water temperature do you prefer? Hot, warm, or moderate?"
    case AskAtmosphere => "Excellent. Now for the aesthetic profile. What kind of atmosphere appeals to you? For example, serene and secluded, traditional cedar wood, modern minimalist, or natural outdoor setting?"
    case AskPalette => "Wonderful choice. What color palette would you like for your onsen scene? For example, warm autumn tones, cool blues and greens, earthy browns, or vibrant sunset colors?"
    case AskTimeOfDay => "Beautiful. Finally, what time of day would you prefer? Misty morning, golden hour sunset, or starry night?"
    case Summary => SummaryReply()
    case Farewell => "I hope you enjoy your personalized onsen experience. The warm waters and beautiful surroundings should help you relax and rejuvenate. Enjoy your virtual bath."
  }

  /** `MOCK_RESPONSES`, in order. */
  const MockResponses: seq<Canned> := [
    Welcome, AskSkinType, AskSoreness, AskStress, AskTemperature,
    AskAtmosphere, AskPalette, AskTimeOfDay, Summary, Farewell
  ]

  /** The index after a reply: one further, but never past the last reply
      (`Math.min(responseIndex + 1, MOCK_RESPONSES.length - 1)`). */
  function NextIndex(i: nat): (j: nat)
    ensures j == if i + 1 < |MockResponses| then i + 1 else |MockResponses| - 1
  {
    var next := i + 1;
    if next < |MockResponses| - 1 then next else |MockResponses| - 1
  }

  /** The replies to `k` messages when the index starts at `i`. */
  function Replies(i: nat, k: nat): (r: seq<Canned>)
    requires i < |MockResponses|
    ensures |r| == k
    decreases k
  {
    if k == 0 then [] else [MockResponses[i]] + Replies(NextIndex(i), k - 1)
  }

  /** From index `i`, the `j`-th reply is the one `j` further on, stopping
      at the last. */
  lemma {:induction false} RepliesFrom(i: nat, k: nat, j: nat)
    requires i < |MockResponses| && j < k
    ensures Replies(i, k)[j] == MockResponses[if i + j < |MockResponses| then i + j else |MockResponses| - 1]
    decreases k
  {
    if j > 0 {
      RepliesFrom(NextIndex(i), k - 1, j - 1);
    }
  }

  /** From a fresh start, the replies run through the list in order and then
      repeat the last one for every further message. */
  lemma ReplySequence(k: nat, j: nat)
    requires j < k
    ensures j < |MockResponses| ==> Replies(0, k)[j] == MockResponses[j]
    ensures j >= |MockResponses| ==> Replies(0, k)[j] == MockResponses[|MockResponses| - 1]
  {
    RepliesFrom(0, k, j);
  }

  lemma SummaryIntroStartClean()
    ensures JsonFence.NoBacktick(SummaryIntro1) && JsonFence.NoBacktick(SummaryIntro2)
    ensures JsonFence.NoBacktick(SummaryIntro3)
  {
  }

  lemma SummaryIntroEndClean()
    ensures JsonFence.NoBacktick(SummaryIntro4) && JsonFence.NoBacktick(SummaryIntro5)
    ensures JsonFence.NoBacktick("\n\n")
  {
  }

  lemma SummaryIntroClean()
    ensures JsonFence.NoBacktick(SummaryIntro + "\n\n")
  {
    SummaryIntroStartClean();
    SummaryIntroEndClean();
    NoBacktickJoin(SummaryIntro1, SummaryIntro2);
    NoBacktickJoin(SummaryIntro1 + SummaryIntro2, SummaryIntro3);
    NoBacktickJoin(SummaryIntro1 + SummaryIntro2 + SummaryIntro3, SummaryIntro4);
    NoBacktickJoin(SummaryIntro1 + SummaryIntro2 + SummaryIntro3 + SummaryIntro4, SummaryIntro5);
    NoBacktickJoin(SummaryIntro, "\n\n");
  }

  lemma SummaryWellbeingClean()
    ensures var w := SummaryPreferences.wellbeingProfile;
      JsonFence.NoBacktick(w.skinType) && JsonFence.NoBacktick(w.muscleSoreness) &&
      JsonFence.NoBacktick(w.stressLevel) && JsonFence.NoBacktick(w.waterTemperature) &&
      JsonFence.NoBacktick(w.healthGoals)
  {
  }

  lemma SummaryAestheticClean()
    ensures var a := SummaryPreferences.aestheticProfile;
      JsonFence.NoBacktick(a.atmosphere) && JsonFence.NoBacktick(a.colorPalette) &&
      JsonFence.NoBacktick(a.timeOfDay)
  {
  }

  lemma SummaryPreferencesFit()
    ensures BacktickFree(SummaryPreferences)
  {
    SummaryWellbeingClean();
    SummaryAestheticClean();
  }

  lemma SummaryEntry()
    ensures MockResponses[8] == Summary && CannedText(Summary) == SummaryReply()
  {
  }

  /** A stringified summary fenced after a backtick-free introduction comes
      back out of the reply. */
  lemma IntroducedRoundTrip(intro: string, p: OnsenPreferences, suffix: string,
                            parse: string -> Option<OnsenPreferences>)
    requires JsonFence.NoBacktick(intro) && BacktickFree(p)
    ensures JsonFence.FenceBody(JsonFence.Fenced(intro, Stringify(p), suffix)) == Some(Stringify(p))
    ensures JsonFence.ExtractPreferences(JsonFence.Fenced(intro, Stringify(p), suffix), parse) == parse(Stringify(p))
  {
    StringifyFits(p);
    JsonFence.FenceRoundTrip(intro, Stringify(p), suffix);
  }

  /** The ninth reply carries the summary: the screen finds its JSON block,
      whose text is the stringified summary preferences. */
  lemma SummaryExtracts(parse: string -> Option<OnsenPreferences>)
    ensures MockResponses[8] == Summary && CannedText(Summary) == SummaryReply()
    ensures JsonFence.FenceBody(SummaryReply()) == Some(Stringify(SummaryPreferences))
    ensures JsonFence.ExtractPreferences(SummaryReply(), parse) == parse(Stringify(SummaryPreferences))
  {
    SummaryEntry();
    SummaryIntroClean();
    SummaryPreferencesFit();
    IntroducedRoundTrip(SummaryIntro + "\n\n", SummaryPreferences, "\n\n" + ThankYou, parse);
  }

  // ---------------------------------------------------------------------------
  // Speech

  const MockAudioMarker := "MOCK" + "_" + "MP3:/audio/duck_sound.mp3"

  /** `generateSpeech`: nothing for blank text, the marker otherwise. */
  function GenerateSpeech(text: string): (audio: Option<string>)
    ensures audio.None? <==> IsBlank(text)
    ensures audio.Some? ==> audio.value == MockAudioMarker
  {
    if IsBlank(text) then None else Some(MockAudioMarker)
  }

  /** The marker is not base64 audio, so the audio utilities cannot play it
      (their decode rejects the `_` and `:`); only a player that recognises
      the marker can. */
  lemma SpeechIsNotPlayable(text: string)
    ensures GenerateSpeech(text).Some? ==> !AudioUtils.Playable(GenerateSpeech(text).value)
  {
    assert MockAudioMarker == "MOCK" + ['_'] + "MP3:/audio/duck_sound.mp3";
    Base64.ForeignCharRejected("MOCK", '_', "MP3:/audio/duck_sound.mp3");
  }

  // ---------------------------------------------------------------------------
  // `split(',')` and data URLs

  predicate NoComma(s: string)
  {
    forall k :: 0 <= k < |s| ==> s[k] != ','
  }

  /** `s.split(',')`: the pieces between commas, always at least one. */
  function Split(s: string): (r: seq<string>)
    ensures |r| >= 1
    decreases |s|
  {
    if s == [] then [""]
    else if s[0] == ',' then [""] + Split(s[1..])
    else var t := Split(s[1..]); [[s[0]] + t[0]] + t[1..]
  }

  /** `fields.join(',')`. */
  function Join(fields: seq<string>): (s: string)
    requires |fields| >= 1
    decreases |fields|
  {
    if |fields| == 1 then fields[0] else fields[0] + "," + Join(fields[1..])
  }

  lemma {:induction false} SplitLeading(a: string, rest: Option<string>)
    requires NoComma(a)
    ensures rest.None? ==> Split(a) == [a]
    ensures rest.Some? ==> Split(a + "," + rest.value) == [a] + Split(rest.value)
    decreases |a|
  {
    if a == [] {
      if rest.Some? {
        assert a + "," + rest.value == "," + rest.value;
        assert ("," + rest.value)[1..] == rest.value;
      }
    } else {
      SplitLeading(a[1..], rest);
      if rest.Some? {
        var s := a + "," + rest.value;
        assert s[0] == a[0] && s[1..] == a[1..] + "," + rest.value;
      }
      assert [a[0]] + a[1..] == a;
    }
  }

  /** Splitting undoes joining when no field holds a comma. */
  lemma {:induction false} SplitJoin(fields: seq<string>)
    requires |fields| >= 1
    requires forall i :: 0 <= i < |fields| ==> NoComma(fields[i])
    ensures Split(Join(fields)) == fields
    decreases |fields|
  {
    if |fields| == 1 {
      SplitLeading(fields[0], None);
    } else {
      SplitJoin(fields[1..]);
      SplitLeading(fields[0], Some(Join(fields[1..])));
      assert [fields[0]] + fields[1..] == fields;
    }
  }

  /** `s.split(',')[1]`, with None for `undefined` (no comma). */
  function SecondField(s: string): (r: Option<string>)
    ensures r.Some? <==> |Split(s)| > 1
  {
    var fields := Split(s);
    if |fields| > 1 then Some(fields[1]) else None
  }

  /** What `readAsDataURL` produces: a header such as
      `data:image/png;base64`, a comma, and the base64 payload. */
  datatype DataUrl = DataUrl(header: string, payload: string)

  function DataUrlText(d: DataUrl): string
  {
    d.header + "," + d.payload
  }

  /** The second field of a data URL is its payload. */
  lemma DataUrlField(d: DataUrl)
    requires NoComma(d.header) && NoComma(d.payload)
    ensures SecondField(DataUrlText(d)) == Some(d.payload)
  {
    SplitJoin([d.header, d.payload]);
    assert Join([d.header, d.payload]) == DataUrlText(d) by {
      assert [d.header, d.payload][1..] == [d.payload];
    }
  }

  /** Text holding a comma splits into at least two fields. */
  lemma {:induction false} SplitAtComma(a: string, b: string)
    ensures |Split(a + "," + b)| > 1
    decreases |a|
  {
    var s := a + "," + b;
    if a == [] {
      assert s[0] == ',' && s[1..] == b;
    } else if a[0] != ',' {
      assert s[1..] == a[1..] + "," + b;
      SplitAtComma(a[1..], b);
    }
  }

  /** A data URL always has a second field, whatever its header holds. */
  lemma DataUrlHasSecondField(d: DataUrl)
    ensures SecondField(DataUrlText(d)).Some?
  {
    SplitAtComma(d.header, d.payload);
  }

  // ---------------------------------------------------------------------------
  // Reading a file as base64

  /** `fileToBase64` as written: a failed fetch is caught and gives "", but
      the reader's promise is returned without being awaited, so a reader
      error rejects the caller's promise instead of reaching the catch. */
  function FileToBase64(fetched: Call<()>, read: Call<DataUrl>): (r: Call<string>)
    ensures fetched.Threw? ==> r == Returned("")
    ensures fetched.Returned? && read.Threw? ==> r == Threw(read.message)
    ensures fetched.Returned? && read.Returned? ==>
      r.Returned? && Some(r.value) == SecondField(DataUrlText(read.value))
    ensures fetched.Returned? && read.Returned? && NoComma(read.value.header) && NoComma(read.value.payload) ==>
      r == Returned(read.value.payload)
  {
    match fetched
    case Threw(_) => Returned("")
    case Returned(_) =>
      match read
      case Threw(message) =>
        Threw(message)
      case Returned(d) =>
        DataUrlHasSecondField(d);
        if NoComma(d.header) && NoComma(d.payload) then DataUrlField(d); Returned(SecondField(DataUrlText(d)).value)
        else Returned(SecondField(DataUrlText(d)).value)
  }

  /** An input that shows the escape: the file is fetched, then the reader
      fails, and the helper throws although its catch was meant to turn
      every failure into "". */
  lemma ReaderErrorEscapes()
    ensures FileToBase64(Returned(()), Threw(Some("NotReadableError"))).Threw?
  {
  }

  /** `split(',')[1]` takes the second field of the whole text: when the
      header itself holds a comma, the result is a piece of the header and
      not the payload. */
  lemma CommaInHeaderSplitsHeader()
    ensures FileToBase64(Returned(()), Returned(DataUrl("data:a,b;base64", "QQ=="))) == Returned("b;base64")
  {
    var fields := ["data:a", "b;base64", "QQ=="];
    assert fields[1..][1..] == ["QQ=="];
    assert Join(fields) == DataUrlText(DataUrl("data:a,b;base64", "QQ=="));
    SplitJoin(fields);
  }

  /** `fileToBase64` with the reader awaited inside the try: every failure
      gives "", and a read file gives the second field of its data URL,
      which is the payload whenever the header holds no comma. */
  function FileToBase64Caught(fetched: Call<()>, read: Call<DataUrl>): (r: string)
    ensures fetched.Threw? || read.Threw? ==> r == ""
    ensures fetched.Returned? && read.Returned? ==> Some(r) == SecondField(DataUrlText(read.value))
    ensures fetched.Returned? && read.Returned? && NoComma(read.value.header) && NoComma(read.value.payload) ==>
      r == read.value.payload
  {
    if fetched.Returned? && read.Returned? then
      DataUrlHasSecondField(read.value);
      if NoComma(read.value.header) && NoComma(read.value.payload) then
        DataUrlField(read.value); SecondField(DataUrlText(read.value)).value
      else SecondField(DataUrlText(read.value)).value
    else ""
  }

  /** The corrected helper agrees with the original wherever the original
      returns, and returns where the original throws. */
  lemma CaughtAgrees(fetched: Call<()>, read: Call<DataUrl>)
    ensures FileToBase64(fetched, read).Returned? ==>
      FileToBase64Caught(fetched, read) == FileToBase64(fetched, read).value
    ensures FileToBase64(fetched, read).Threw? ==> FileToBase64Caught(fetched, read) == ""
  {
  }

  // ---------------------------------------------------------------------------
  // Images and videos

  const PurpleGreenVideo := "/videos/cp_pg_video.mp4"
  const SunlightVideo := "/videos/cp_sunlight_video.mp4"

  /** The video for an image: its mapped video when that is truthy, the
      sunlight video otherwise. Never empty. */
  function VideoFor(imageToVideoMap: map<string, string>, base64Image: string): (url: string)
    ensures base64Image in imageToVideoMap && imageToVideoMap[base64Image] != "" ==> url == imageToVideoMap[base64Image]
    ensures !(base64Image in imageToVideoMap && imageToVideoMap[base64Image] != "") ==> url == SunlightVideo
    ensures url != ""
  {
    var videoUrl := if base64Image in imageToVideoMap then Some(imageToVideoMap[base64Image]) else None;
    if Truthy(videoUrl) then videoUrl.value else SunlightVideo
  }

  /** After the two images are registered, each selects its own video; if
      both reads produced the same text (both failed and gave "", say) the
      later registration wins; every other image keeps its video. */
  lemma RegisteredVideos(m: map<string, string>, image1: string, image2: string, other: string)
    ensures var m' := m[image1 := PurpleGreenVideo][image2 := SunlightVideo];
      VideoFor(m', image2) == SunlightVideo &&
      VideoFor(m', image1) == (if image1 == image2 then SunlightVideo else PurpleGreenVideo) &&
      (other != image1 && other != image2 ==> VideoFor(m', other) == VideoFor(m, other))
  {
  }

  /** The module-level state: the reply index and the image-to-video map. */
  class MockService {
    var responseIndex: nat
    var imageToVideoMap: map<string, string>

    predicate Valid()
      reads this
    {
      responseIndex < |MockResponses|
    }

    constructor ()
      ensures Valid() && responseIndex == 0 && imageToVideoMap == map[]
    {
      responseIndex := 0;
      imageToVideoMap := map[];
    }

    /** `sendMessageToBot`: the entry at the index (whose text,
        `CannedText(response)`, is the reply), after which the index moves
        on. */
    method SendMessage(message: string) returns (response: Canned)
      requires Valid()
      modifies this
      ensures Valid()
      ensures response == Replies(old(responseIndex), 1)[0]
      ensures responseIndex == NextIndex(old(responseIndex))
      ensures imageToVideoMap == old(imageToVideoMap)
    {
      response := MockResponses[responseIndex];
      responseIndex := NextIndex(responseIndex);
    }

    /** `generateOnsenImage`: each image is read with the as-written
        `fileToBase64` (a failed fetch gives "", a reader error rejects).
        When a read rejects, the call rejects with that error before either
        image is registered; otherwise both images are registered with their
        videos and returned in order. */
    method GenerateOnsenImage(fetched1: Call<()>, read1: Call<DataUrl>, fetched2: Call<()>, read2: Call<DataUrl>)
      returns (images: Call<seq<string>>)
      requires Valid()
      modifies this
      ensures Valid() && responseIndex == old(responseIndex)
      ensures var r1 := FileToBase64(fetched1, read1);
        r1.Threw? ==> images == Threw(r1.message) && imageToVideoMap == old(imageToVideoMap)
      ensures var r1 := FileToBase64(fetched1, read1); var r2 := FileToBase64(fetched2, read2);
        r1.Returned? && r2.Threw? ==> images == Threw(r2.message) && imageToVideoMap == old(imageToVideoMap)
      ensures var r1 := FileToBase64(fetched1, read1); var r2 := FileToBase64(fetched2, read2);
        r1.Returned? && r2.Returned? ==>
          imageToVideoMap == old(imageToVideoMap)[r1.value := PurpleGreenVideo][r2.value := SunlightVideo] &&
          images == Returned([r1.value, r2.value])
    {
      var image1 := FileToBase64(fetched1, read1);
      if image1.Threw? {
        return Threw(image1.message);
      }
      var image2 := FileToBase64(fetched2, read2);
      if image2.Threw? {
        return Threw(image2.message);
      }
      imageToVideoMap := imageToVideoMap[image1.value := PurpleGreenVideo];
      imageToVideoMap := imageToVideoMap[image2.value := SunlightVideo];
      images := Returned([image1.value, image2.value]);
    }

    /** `generateLoopingVideo`: the mapped video, or the fallback. */
    method GenerateLoopingVideo(base64Image: string, mimeType: string) returns (url: string)
      ensures url == VideoFor(imageToVideoMap, base64Image)
    {
      var videoUrl := if base64Image in imageToVideoMap then Some(imageToVideoMap[base64Image]) else None;
      if Truthy(videoUrl) {
        return videoUrl.value;
      }
      return SunlightVideo;
    }
  }
}
