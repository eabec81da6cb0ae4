/** Speech playback: base64 text to bytes (`decode`), 16-bit little-endian
    PCM bytes to a Web Audio buffer of normalised samples (`decodeAudioData`),
    and the refs `stopAudio` and `playAudio` keep: the shared AudioContext, the
    shared GainNode and the source currently playing. */
module AudioUtils {
  import opened Common
  import opened Base64

  /** The sample rate of the speech audio and of the shared AudioContext. */
  const SpeechSampleRate: nat := 24000

  // ---------------------------------------------------------------------------
  // decode

  /** `decode`: the bytes of a base64 string, copied out of the binary string
      `atob` returns one character code at a time. None where `atob` throws. */
  method Decode(base64: string) returns (r: Option<array<byte>>)
    ensures r.None? <==> DecodeBase64(base64).None?
    ensures r.Some? ==> fresh(r.value) && r.value[..] == DecodeBase64(base64).value
  {
    var binary := Atob(base64);
    if binary.None? {
      return None;
    }
    var binaryString := binary.value;
    var len := |binaryString|;
    var bytes := new byte[len];
    for i := 0 to len
      invariant bytes[..i] == DecodeBase64(base64).value[..i]
    {
      bytes[i] := (binaryString[i] as int % 256) as byte;
    }
    return Some(bytes);
  }

  // ---------------------------------------------------------------------------
  // decodeAudioData

  /** The part of a Web Audio `AudioBuffer` the player uses: one row of
      samples per channel, zero-filled when created. */
  class AudioBuffer {
    const numberOfChannels: nat
    const length: nat
    const sampleRate: nat
    const channelData: array2<real>

    constructor (numberOfChannels: nat, length: nat, sampleRate: nat)
      ensures this.numberOfChannels == numberOfChannels && this.length == length
      ensures this.sampleRate == sampleRate
      ensures fresh(channelData)
      ensures channelData.Length0 == numberOfChannels && channelData.Length1 == length
    {
      this.numberOfChannels := numberOfChannels;
      this.length := length;
      this.sampleRate := sampleRate;
      channelData := new real[numberOfChannels, length]((c, i) => 0.0);
    }
  }

  /** Sample `k` of an `Int16Array` view of the bytes: two bytes, least
      significant first, read as a two's-complement 16-bit integer. */
  function Int16At(bytes: seq<byte>, k: nat): (v: int)
    requires 2 * k + 1 < |bytes|
    ensures -32768 <= v < 32768
    ensures v % 65536 == (bytes[2 * k] as int + 256 * bytes[2 * k + 1] as int) % 65536
  {
    var u := bytes[2 * k] as int + 256 * bytes[2 * k + 1] as int;
    if u >= 32768 then u - 65536 else u
  }

  /** The `Int16Array` view of an even number of bytes. */
  function Int16View(bytes: seq<byte>): (r: seq<int>)
    requires |bytes| % 2 == 0
    ensures |r| == |bytes| / 2
    ensures forall k :: 0 <= k < |r| ==> r[k] == Int16At(bytes, k)
  {
    seq(|bytes| / 2, k requires 0 <= k < |bytes| / 2 => Int16At(bytes, k))
  }

  /** A 16-bit sample scaled to the range of an audio buffer. */
  function Normalize(v: int): real
  {
    v as real / 32768.0
  }

  /** Every normalised sample lies in [-1, 1). */
  lemma NormalizeInRange(v: int)
    requires -32768 <= v < 32768
    ensures -1.0 <= Normalize(v) < 1.0
  {
  }

  /** Normalising loses nothing: distinct samples stay distinct. */
  lemma NormalizeInjective(v: int, w: int)
    ensures Normalize(v) == Normalize(w) ==> v == w
  {
  }

  /** The number of frames: samples per channel, rounded down. */
  function FrameCount(byteLength: nat, numChannels: nat): nat
    requires numChannels > 0
  {
    byteLength / 2 / numChannels
  }

  /** Whether `decodeAudioData` produces a buffer: the `Int16Array` view
      needs an even byte length, and `createBuffer` needs at least one channel
      and at least one frame. */
  predicate DecodesPcm(byteLength: nat, numChannels: nat)
  {
    byteLength % 2 == 0 && numChannels > 0 && FrameCount(byteLength, numChannels) > 0
  }

  /** Frame `i` of channel `c` of interleaved samples lies inside the data. */
  lemma InterleavedIndex(i: nat, c: nat, numChannels: nat, total: nat)
    requires c < numChannels && i < total / numChannels
    ensures i * numChannels + c < total
  {
    var q := total / numChannels;
    assert q * numChannels <= total;
    assert (i + 1) * numChannels <= q * numChannels by {
      MultiplyMonotone(i + 1, q, numChannels);
    }
  }

  lemma MultiplyMonotone(a: nat, b: nat, n: nat)
    requires a <= b
    ensures a * n <= b * n
  {
  }

  /** The sample `decodeAudioData` writes at frame `i` of channel `c`. */
  function ChannelSample(bytes: seq<byte>, numChannels: nat, c: nat, i: nat): real
    requires |bytes| % 2 == 0 && c < numChannels && i < FrameCount(|bytes|, numChannels)
  {
    InterleavedIndex(i, c, numChannels, |bytes| / 2);
    Normalize(Int16At(bytes, i * numChannels + c))
  }

  /** Every sample of the data lands somewhere: sample `k` is frame `k / n`
      of channel `k % n`. */
  lemma SampleLands(bytes: seq<byte>, numChannels: nat, k: nat)
    requires |bytes| % 2 == 0 && numChannels > 0
    requires k < FrameCount(|bytes|, numChannels) * numChannels
    ensures k / numChannels < FrameCount(|bytes|, numChannels)
    ensures ChannelSample(bytes, numChannels, k % numChannels, k / numChannels) == Normalize(Int16At(bytes, k))
  {
    DivBelow(k, FrameCount(|bytes|, numChannels), numChannels);
    assert k / numChannels * numChannels + k % numChannels == k;
  }

  /** ... and in one place only: two (channel, frame) positions read the same
      interleaved sample only if they are the same position. */
  lemma DeinterleaveInjective(numChannels: nat, c1: nat, i1: nat, c2: nat, i2: nat)
    requires c1 < numChannels && c2 < numChannels
    requires i1 * numChannels + c1 == i2 * numChannels + c2
    ensures c1 == c2 && i1 == i2
  {
    var k := i1 * numChannels + c1;
    DivModUnique(k, numChannels, i1, c1);
    DivModUnique(k, numChannels, i2, c2);
  }

  lemma DivBelow(k: nat, f: nat, n: nat)
    requires n > 0 && k < f * n
    ensures k / n < f
  {
    if k / n >= f {
      MultiplyMonotone(f, k / n, n);
    }
  }

  lemma DivModUnique(k: nat, n: nat, q: nat, r: nat)
    requires r < n && q * n + r == k
    ensures q == k / n && r == k % n
  {
    var q0, r0 := k / n, k % n;
    assert q0 * n + r0 == k;
    if q > q0 {
      MultiplyMonotone(q0 + 1, q, n);
    } else if q < q0 {
      MultiplyMonotone(q + 1, q0, n);
    }
  }

  /** `decodeAudioData`: None where the `Int16Array` view or `createBuffer`
      throws. Otherwise a fresh buffer of `numChannels` rows of
      `FrameCount` samples, frame `i` of channel `c` holding interleaved sample
      `i * numChannels + c` scaled by 1/32768. Where the byte count does not
      split evenly into channels the source's frame count is fractional;
      `createBuffer` truncates it and the writes past the end of a channel
      are dropped by the typed array, which is what `FrameCount` gives. */
  method DecodeAudioData(data: array<byte>, sampleRate: nat, numChannels: nat) returns (r: Option<AudioBuffer>)
    ensures r.None? <==> !DecodesPcm(data.Length, numChannels)
    ensures r.Some? ==> fresh(r.value) && fresh(r.value.channelData)
    ensures r.Some? ==> r.value.numberOfChannels == numChannels && r.value.sampleRate == sampleRate
    ensures r.Some? ==> r.value.length == FrameCount(data.Length, numChannels)
    ensures r.Some? ==> r.value.channelData.Length0 == numChannels &&
                        r.value.channelData.Length1 == r.value.length
    ensures r.Some? ==> forall c, i :: 0 <= c < numChannels && 0 <= i < r.value.length ==>
      r.value.channelData[c, i] == ChannelSample(data[..], numChannels, c, i)
  {
    if data.Length % 2 == 1 {
      return None;
    }
    var bytes := data[..];
    var dataInt16 := Int16View(bytes);
    if numChannels == 0 {
      return None;
    }
    var frameCount := |dataInt16| / numChannels;
    if frameCount == 0 {
      return None;
    }
    var buffer := new AudioBuffer(numChannels, frameCount, sampleRate);
    var channelData := buffer.channelData;
    for channel := 0 to numChannels
      invariant forall c, i :: 0 <= c < channel && 0 <= i < frameCount ==>
        channelData[c, i] == ChannelSample(bytes, numChannels, c, i)
    {
      for i := 0 to frameCount
        invariant forall c, j :: 0 <= c < channel && 0 <= j < frameCount ==>
          channelData[c, j] == ChannelSample(bytes, numChannels, c, j)
        invariant forall j :: 0 <= j < i ==> channelData[channel, j] == ChannelSample(bytes, numChannels, channel, j)
      {
        InterleavedIndex(i, channel, numChannels, |dataInt16|);
        channelData[channel, i] := dataInt16[i * numChannels + channel] as real / 32768.0;
      }
    }
    return Some(buffer);
  }

  /** The speech audio in `base64` plays: it decodes, and its bytes make a
      mono buffer at the speech sample rate. */
  predicate Playable(base64: string)
  {
    DecodeBase64(base64).Some? && DecodesPcm(|DecodeBase64(base64).value|, 1)
  }

  /** Audio that is not valid base64 never plays; the encoding of an even,
      non-zero number of bytes always does. */
  lemma PlayableEncoding(bytes: seq<byte>)
    ensures Playable(Encode(bytes)) <==> |bytes| % 2 == 0 && |bytes| >= 2
  {
    DecodeEncode(bytes);
  }

  /** The `try` block of `playAudio` up to the start of the source: decode
      the text to bytes and the bytes to a mono buffer at the speech sample
      rate. False where either step throws. */
  method DecodeSpeech(base64Audio: string) returns (started: bool)
    ensures started == Playable(base64Audio)
  {
    var decodedData := Decode(base64Audio);
    if decodedData.None? {
      return false;
    }
    var audioBuffer := DecodeAudioData(decodedData.value, SpeechSampleRate, 1);
    return audioBuffer.Some?;
  }

  // ---------------------------------------------------------------------------
  // stopAudio and playAudio

  /** What the refs and the browser hold for playback. Calls to `playAudio`
      are numbered in order; the source a call starts carries its number. */
  datatype Playback = Playback(
    context: Option<nat>,      // audioCtxRef.current, as its sample rate
    contextsCreated: nat,
    gain: Option<real>,        // gainNodeRef.current, as its gain value
    gainNodesCreated: nat,
    current: Option<nat>,      // audioSourceRef.current
    playing: set<nat>,         // sources started, neither stopped nor finished
    awaitingEnd: set<nat>,     // sources whose `ended` event has not fired yet
    endedCalls: set<nat>,      // calls whose `onEnded` has run
    nextCall: nat)

  const NoPlayback := Playback(None, 0, None, 0, None, {}, {}, {}, 0)

  /** What playback always satisfies: at most one source is audible and it is
      the one the ref holds; the context and the gain node are made at most
      once; and every call so far either waits for the `ended` event of its
      source or has run `onEnded`, never both. */
  predicate PlaybackValid(p: Playback)
  {
    (p.current.None? ==> p.playing == {}) &&
    (p.current.Some? ==> p.playing == {p.current.value}) &&
    p.playing <= p.awaitingEnd &&
    p.awaitingEnd !! p.endedCalls &&
    (forall c :: c in p.awaitingEnd + p.endedCalls ==> c < p.nextCall) &&
    (forall c :: 0 <= c < p.nextCall ==> c in p.awaitingEnd + p.endedCalls) &&
    p.contextsCreated == (if p.context.Some? then 1 else 0) &&
    p.gainNodesCreated == (if p.gain.Some? then 1 else 0) &&
    (p.context.Some? ==> p.context.value == SpeechSampleRate) &&
    (p.gain.Some? ==> p.context.Some?)
  }

  /** `stopAudio`: stops and forgets the source the ref holds, if any. Its
      `ended` event still fires later. */
  function StopSpec(p: Playback): Playback
  {
    match p.current
    case Some(s) => p.(current := None, playing := p.playing - {s})
    case None => p
  }

  /** `playAudio` before its `try`: stop the current source, make the context
      and the gain node if they are missing, set the gain from the mute
      state. */
  function PrepareSpec(p: Playback, isMuted: bool): Playback
  {
    var s := StopSpec(p);
    var withContext :=
      if s.context.None? then s.(context := Some(SpeechSampleRate), contextsCreated := s.contextsCreated + 1) else s;
    var withGain :=
      if withContext.gain.None? then withContext.(gain := Some(1.0), gainNodesCreated := withContext.gainNodesCreated + 1)
      else withContext;
    withGain.(gain := Some(if isMuted then 0.0 else 1.0))
  }

  /** `playAudio`: after the preparation, playable audio starts a source that
      the ref then holds; audio that fails to decode runs `onEnded` at once. */
  function PlaySpec(p: Playback, isMuted: bool, playable: bool): Playback
  {
    var s := PrepareSpec(p, isMuted);
    var call := s.nextCall;
    if playable then
      s.(current := Some(call), playing := s.playing + {call}, awaitingEnd := s.awaitingEnd + {call}, nextCall := call + 1)
    else
      s.(endedCalls := s.endedCalls + {call}, nextCall := call + 1)
  }

  /** The `onended` handler: it clears the ref only when the ref still holds
      this source, then always runs `onEnded`. */
  function EndedSpec(p: Playback, call: nat): Playback
  {
    p.(current := if p.current == Some(call) then None else p.current,
       playing := p.playing - {call},
       awaitingEnd := p.awaitingEnd - {call},
       endedCalls := p.endedCalls + {call})
  }

  lemma NoPlaybackValid()
    ensures PlaybackValid(NoPlayback)
  {
  }

  /** After `stopAudio` nothing is audible and the ref is empty; with an empty
      ref it changes nothing, so a second call is a no-op. */
  lemma StopPreserves(p: Playback)
    requires PlaybackValid(p)
    ensures PlaybackValid(StopSpec(p))
    ensures StopSpec(p).current == None && StopSpec(p).playing == {}
    ensures p.current.None? ==> StopSpec(p) == p
    ensures StopSpec(StopSpec(p)) == StopSpec(p)
    ensures StopSpec(p).endedCalls == p.endedCalls && StopSpec(p).awaitingEnd == p.awaitingEnd
  {
  }

  /** `playAudio` silences the previous source before anything else, reuses
      an existing context and gain node, and sets the gain to 0 when muted and
      1 otherwise. Playable audio becomes the one audible source, held by the
      ref, awaiting its `ended` event; unplayable audio runs `onEnded` once
      and leaves nothing playing. */
  lemma PlayPreserves(p: Playback, isMuted: bool, playable: bool)
    requires PlaybackValid(p)
    ensures var q := PlaySpec(p, isMuted, playable);
      var call := p.nextCall;
      PlaybackValid(q) && q.nextCall == call + 1 &&
      q.gain == Some(if isMuted then 0.0 else 1.0) &&
      (p.context.Some? ==> q.context == p.context && q.contextsCreated == p.contextsCreated) &&
      (p.gain.Some? ==> q.gainNodesCreated == p.gainNodesCreated) &&
      (p.current.Some? ==> p.current.value !in q.playing) &&
      (playable ==> q.current == Some(call) && q.playing == {call} && call in q.awaitingEnd) &&
      (!playable ==> q.current == None && q.playing == {} && call in q.endedCalls) &&
      q.endedCalls - {call} == p.endedCalls
  {
    StopPreserves(p);
    var s := PrepareSpec(p, isMuted);
    assert PlaybackValid(s);
    assert p.nextCall !in s.awaitingEnd + s.endedCalls;
  }

  /** The `ended` event of a source runs `onEnded` for its call, once: the call
      had not ended before. The ref is cleared only if it held this source. */
  lemma EndedPreserves(p: Playback, call: nat)
    requires PlaybackValid(p) && call in p.awaitingEnd
    ensures var q := EndedSpec(p, call);
      PlaybackValid(q) && call !in p.endedCalls && call in q.endedCalls &&
      (p.current != Some(call) ==> q.current == p.current && q.playing == p.playing) &&
      (p.current == Some(call) ==> q.current == None && q.playing == {})
  {
  }

  /** The refs `playAudio` and `stopAudio` work on, together with what the
      browser holds for them. */
  class AudioPlayer {
    var context: Option<nat>
    var contextsCreated: nat
    var gain: Option<real>
    var gainNodesCreated: nat
    var current: Option<nat>
    var playing: set<nat>
    var awaitingEnd: set<nat>
    var endedCalls: set<nat>
    var nextCall: nat

    function State(): Playback
      reads this
    {
      Playback(context, contextsCreated, gain, gainNodesCreated, current, playing,
               awaitingEnd, endedCalls, nextCall)
    }

    predicate Valid()
      reads this
    {
      PlaybackValid(State())
    }

    constructor ()
      ensures State() == NoPlayback && Valid()
    {
      context, contextsCreated, gain, gainNodesCreated := None, 0, None, 0;
      current, playing, awaitingEnd, endedCalls, nextCall := None, {}, {}, {}, 0;
    }

    /** `stopAudio(audioSourceRef)` */
    method StopAudio()
      requires Valid()
      modifies this
      ensures State() == StopSpec(old(State())) && Valid()
    {
      StopPreserves(State());
      if current.Some? {
        playing := playing - {current.value};
        current := None;
      }
    }

    /** `playAudio(base64Audio, ..., isMuted, onEnded)`; returns the number of
        the call. */
    method PlayAudio(base64Audio: string, isMuted: bool) returns (call: nat)
      requires Valid()
      modifies this
      ensures State() == PlaySpec(old(State()), isMuted, Playable(base64Audio)) && Valid()
      ensures call == old(nextCall)
    {
      PlayPreserves(State(), isMuted, Playable(base64Audio));
      ghost var prepared := PrepareSpec(State(), isMuted);
      // stopAudio(audioSourceRef)
      var stillPlaying := if current.Some? then playing - {current.value} else playing;
      var newContext, newContexts := context, contextsCreated;
      if context.None? {
        newContext, newContexts := Some(SpeechSampleRate), contextsCreated + 1;
      }
      var newGainNodes := if gain.None? then gainNodesCreated + 1 else gainNodesCreated;
      var newGain := Some(if isMuted then 0.0 else 1.0);
      assert prepared == Playback(newContext, newContexts, newGain, newGainNodes, None, stillPlaying,
                                  awaitingEnd, endedCalls, nextCall);
      call := nextCall;
      var started := DecodeSpeech(base64Audio);
      if started {
        context, contextsCreated, gain, gainNodesCreated, current, playing, awaitingEnd, nextCall :=
          newContext, newContexts, newGain, newGainNodes, Some(call), stillPlaying + {call}, awaitingEnd + {call}, call + 1;
      } else {
        context, contextsCreated, gain, gainNodesCreated, current, playing, endedCalls, nextCall :=
          newContext, newContexts, newGain, newGainNodes, None, stillPlaying, endedCalls + {call}, call + 1;
      }
    }

    /** The `onended` handler of the source started by `call`. */
    method SourceEnded(call: nat)
      requires Valid() && call in awaitingEnd
      modifies this
      ensures State() == EndedSpec(old(State()), call) && Valid()
    {
      EndedPreserves(State(), call);
      if current == Some(call) {
        current := None;
      }
      playing, awaitingEnd, endedCalls := playing - {call}, awaitingEnd - {call}, endedCalls + {call};
    }
  }
}
