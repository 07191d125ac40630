/** The Synthesizer: the `TextToSpeechService` of src/services/tts_service.py.
    The Edge TTS backend (`edge_tts.Communicate(text, voice).stream()`) is
    injected as a total function from text and backend voice to the finite
    stream of tagged chunks it delivers, possibly ending in a failure. */
module TtsService {
  import opened Python

  const DefaultVoice: string := "en-US-AriaNeural"
  const MaxTextLength: nat := 5000
  const FailurePrefix: string := "Text-to-speech conversion failed: "

  /** Frontend voice id to Edge TTS voice. */
  const VoiceMapping: map<string, string> := map[
    "default" := "en-US-AriaNeural",
    "en-US_EmilyV3Voice" := "en-US-AriaNeural",
    "en-US_MichaelV3Voice" := "en-US-GuyNeural",
    "en-GB_JamesV3Voice" := "en-GB-RyanNeural",
    "en-US_AllisonV3Voice" := "en-US-JennyNeural"
  ]

  /** The backend voices the mapping can produce. */
  const BackendVoices: set<string> :=
    {"en-US-AriaNeural", "en-US-GuyNeural", "en-GB-RyanNeural", "en-US-JennyNeural"}

  /** `VOICE_MAPPING.get(voice, 'en-US-AriaNeural')` for a string selector:
      total, and never empty. */
  function ResolveVoice(voice: string): (r: string)
    ensures voice in VoiceMapping ==> r == VoiceMapping[voice]
    ensures voice !in VoiceMapping ==> r == DefaultVoice
    ensures r in BackendVoices && r != ""
  {
    if voice in VoiceMapping then VoiceMapping[voice] else DefaultVoice
  }

  /** The unset selector `""` and the key `'default'` both give Aria. */
  lemma DefaultSelectorsResolveToAria()
    ensures ResolveVoice("") == "en-US-AriaNeural"
    ensures ResolveVoice("default") == "en-US-AriaNeural"
  {
    assert "" !in VoiceMapping;
  }

  /** `VOICE_MAPPING.get(voice, ...)` for any Python value: a list or a dict
      is unhashable and raises TypeError; any other non-string misses every
      key and gets the default. */
  function LookupVoice(voice: Value): (r: Result<string>)
    ensures voice.PyStr? ==> r == Ok(ResolveVoice(voice.s))
    ensures Hashable(voice) && !voice.PyStr? ==> r == Ok(DefaultVoice)
    ensures !Hashable(voice) <==> r.Raise?
    ensures r.Raise? ==> r.exc.TypeError?
    ensures r.Ok? ==> r.value in BackendVoices
  {
    if voice.PyStr? then Ok(ResolveVoice(voice.s))
    else if Hashable(voice) then Ok(DefaultVoice)
    else Raise(TypeError("unhashable type: '" + TypeName(voice) + "'"))
  }

  /** One item of the backend stream: `chunk["type"]` and, for audio, `chunk["data"]`. */
  datatype Chunk = Chunk(kind: string, data: seq<byte>)

  /** How the stream ended: exhausted, or by raising. */
  datatype StreamEnd = Finished | Failed(exc: Exc)

  /** The chunks delivered, in order, and how the stream ended. */
  datatype Stream = Stream(chunks: seq<Chunk>, end: StreamEnd)

  predicate IsAudio(c: Chunk)
  {
    c.kind == "audio"
  }

  /** What `audio_data` holds after the loop has seen `chunks`. */
  function AudioOf(chunks: seq<Chunk>): (r: seq<byte>)
    // A stream without audio chunks leaves `audio_data` empty ...
    ensures (forall i :: 0 <= i < |chunks| ==> !IsAudio(chunks[i])) ==> r == []
    // ... and no audio payload is dropped.
    ensures forall i :: 0 <= i < |chunks| && IsAudio(chunks[i]) ==> |chunks[i].data| <= |r|
  {
    if chunks == [] then []
    else
      var last := chunks[|chunks| - 1];
      AudioOf(chunks[..|chunks| - 1]) + (if IsAudio(last) then last.data else [])
  }

  /** Reference definition: keep the audio chunks, in order ... */
  function AudioChunks(chunks: seq<Chunk>): (r: seq<Chunk>)
    ensures forall i :: 0 <= i < |r| ==> IsAudio(r[i])
    ensures |r| <= |chunks|
    // Nothing is added, and no audio chunk is dropped.
    ensures forall c :: c in r ==> c in chunks
    ensures forall c :: c in chunks && IsAudio(c) ==> c in r
  {
    if chunks == [] then []
    else if IsAudio(chunks[0]) then [chunks[0]] + AudioChunks(chunks[1..])
    else AudioChunks(chunks[1..])
  }

  /** ... and concatenate their payloads. */
  function Payloads(chunks: seq<Chunk>): seq<byte>
  {
    if chunks == [] then [] else chunks[0].data + Payloads(chunks[1..])
  }

  /** Sum of the payload lengths of the audio chunks, in delivery order. */
  function AudioLength(chunks: seq<Chunk>): nat
  {
    if chunks == [] then 0
    else (if IsAudio(chunks[0]) then |chunks[0].data| else 0) + AudioLength(chunks[1..])
  }

  /** The loop's result over a split stream is the results over both parts, in order. */
  lemma {:induction false} AudioOfAppend(a: seq<Chunk>, b: seq<Chunk>)
    ensures AudioOf(a + b) == AudioOf(a) + AudioOf(b)
    decreases |b|
  {
    if b == [] {
      assert a + b == a;
    } else {
      var b' := b[..|b| - 1];
      assert (a + b)[..|a + b| - 1] == a + b';
      assert (a + b)[|a + b| - 1] == b[|b| - 1];
      AudioOfAppend(a, b');
      var tail := if IsAudio(b[|b| - 1]) then b[|b| - 1].data else [];
      assert AudioOf(a + b) == AudioOf(a + b') + tail;
      assert AudioOf(b) == AudioOf(b') + tail;
    }
  }

  /** Only audio chunks count, in delivery order: the assembled audio is the
      concatenation of the payloads of the audio chunks. */
  lemma {:induction false} AudioOfIsFilteredConcat(chunks: seq<Chunk>)
    ensures AudioOf(chunks) == Payloads(AudioChunks(chunks))
    decreases |chunks|
  {
    if chunks != [] {
      var rest := chunks[1..];
      assert chunks == [chunks[0]] + rest;
      AudioOfAppend([chunks[0]], rest);
      assert [chunks[0]][..0] == [];
      assert AudioOf([chunks[0]]) == (if IsAudio(chunks[0]) then chunks[0].data else []);
      AudioOfIsFilteredConcat(rest);
      if IsAudio(chunks[0]) {
        assert ([chunks[0]] + AudioChunks(rest))[1..] == AudioChunks(rest);
      }
    }
  }

  /** The output length is the sum of the audio chunk lengths. */
  lemma {:induction false} AudioOfLength(chunks: seq<Chunk>)
    ensures |AudioOf(chunks)| == AudioLength(chunks)
    decreases |chunks|
  {
    if chunks != [] {
      var rest := chunks[1..];
      assert chunks == [chunks[0]] + rest;
      AudioOfAppend([chunks[0]], rest);
      assert [chunks[0]][..0] == [];
      AudioOfLength(rest);
    }
  }

  /** The loop of `generate_audio`: append the payload of every audio chunk,
      then let the stream's failure, if any, escape; the partial
      accumulator is dropped with the exception. */
  method GenerateAudio(stream: Stream) returns (r: Result<seq<byte>>)
    ensures stream.end.Finished? ==> r == Ok(AudioOf(stream.chunks))
    ensures stream.end.Failed? ==> r == Raise(stream.end.exc)
  {
    var chunks := stream.chunks;
    var audioData: seq<byte> := [];
    var i := 0;
    while i < |chunks|
      invariant 0 <= i <= |chunks|
      invariant audioData == AudioOf(chunks[..i])
    {
      assert chunks[..i + 1][..i] == chunks[..i];
      if chunks[i].kind == "audio" {
        audioData := audioData + chunks[i].data;
      }
      i := i + 1;
    }
    assert chunks[..i] == chunks;
    if stream.end.Failed? {
      return Raise(stream.end.exc);
    }
    r := Ok(audioData);
  }

  /** Whether `text_to_speech` accepts `text` (lines 40-44). */
  predicate ValidText(text: Value)
    // `if not text or not isinstance(text, str)`, then the length limit.
    ensures ValidText(text) <==> Truthy(text) && text.PyStr? && |text.s| <= MaxTextLength
  {
    text.PyStr? && text.s != "" && |text.s| <= MaxTextLength
  }

  datatype TextToSpeechService = TextToSpeechService(communicate: (string, string) -> Stream)
  {
    /** What `text_to_speech(text, voice)` returns or raises. */
    function Synthesize(text: Value, voice: Value): (r: Result<seq<byte>>)
      // Validation happens first and raises ValueError with the source's messages.
      ensures !(text.PyStr? && text.s != "") ==> r == Raise(ValueError("Text must be a non-empty string"))
      ensures text.PyStr? && |text.s| > MaxTextLength ==> r == Raise(ValueError("Text too long: maximum 5000 characters"))
      ensures (r.Raise? && r.exc.ValueError?) <==> !ValidText(text)
      // Every failure after validation is wrapped, and nothing partial is returned.
      ensures ValidText(text) && r.Raise? ==>
                r.exc.Exception? && StartsWith(r.exc.msg, FailurePrefix)
      // Success comes exactly from valid text, a resolvable voice and a
      // stream that finishes; the audio is then the in-order concatenation
      // of the audio chunks.
      ensures r.Ok? <==>
                ValidText(text) && LookupVoice(voice).Ok? &&
                communicate(text.s, LookupVoice(voice).value).end.Finished?
      ensures r.Ok? ==>
                r.value == Payloads(AudioChunks(communicate(text.s, LookupVoice(voice).value).chunks))
    {
      if !(text.PyStr? && text.s != "") then Raise(ValueError("Text must be a non-empty string"))
      else if |text.s| > MaxTextLength then Raise(ValueError("Text too long: maximum 5000 characters"))
      else
        match LookupVoice(voice)
        case Raise(e) => Raise(Exception(FailurePrefix + e.msg))
        case Ok(selected) =>
          var stream := communicate(text.s, selected);
          match stream.end
          case Failed(e) => Raise(Exception(FailurePrefix + e.msg))
          case Finished =>
            AudioOfIsFilteredConcat(stream.chunks);
            Ok(AudioOf(stream.chunks))
    }

    /** `text_to_speech(text, voice)`: validate, resolve the voice, run the
        chunk loop and wrap any failure. */
    method TextToSpeech(text: Value, voice: Value) returns (r: Result<seq<byte>>)
      ensures r == Synthesize(text, voice)
    {
      if !text.PyStr? || text.s == "" {
        return Raise(ValueError("Text must be a non-empty string"));
      }
      if |text.s| > MaxTextLength {
        return Raise(ValueError("Text too long: maximum 5000 characters"));
      }
      var selected := LookupVoice(voice);
      if selected.Raise? {
        return Raise(Exception(FailurePrefix + selected.exc.msg));
      }
      var audio := GenerateAudio(communicate(text.s, selected.value));
      match audio {
        case Raise(e) =>
          r := Raise(Exception(FailurePrefix + e.msg));
        case Ok(bytes) =>
          r := Ok(bytes);
      }
    }
  }

  /** The voice argument matters only through its lookup. */
  lemma SameVoiceSameOutcome(svc: TextToSpeechService, text: Value, v1: Value, v2: Value)
    requires LookupVoice(v1) == LookupVoice(v2)
    ensures svc.Synthesize(text, v1) == svc.Synthesize(text, v2)
  {
  }

  /** Validation failures do not depend on the backend: they are decided
      before any call to it. */
  lemma ValidationBeforeBackend(s1: TextToSpeechService, s2: TextToSpeechService, text: Value, voice: Value)
    requires !ValidText(text)
    ensures s1.Synthesize(text, voice) == s2.Synthesize(text, voice)
    ensures s1.Synthesize(text, voice).Raise? && s1.Synthesize(text, voice).exc.ValueError?
  {
  }

  /** `if not text` rejects only the empty string: a text of blanks passes
      validation and goes to the backend. */
  lemma BlankTextReachesBackend(svc: TextToSpeechService, voice: Value)
    ensures ValidText(PyStr("   "))
    ensures !(svc.Synthesize(PyStr("   "), voice).Raise? && svc.Synthesize(PyStr("   "), voice).exc.ValueError?)
  {
  }

  /** Exactly 5000 characters is accepted; 5001 is rejected. */
  lemma LengthBoundary(svc: TextToSpeechService, text: string, voice: Value)
    requires |text| == MaxTextLength || |text| == MaxTextLength + 1
    ensures svc.Synthesize(PyStr(text), voice).Raise? && svc.Synthesize(PyStr(text), voice).exc.ValueError?
            <==> |text| == MaxTextLength + 1
  {
  }

  /** A backend delivering [A, meta, B, C] gives A + B + C. */
  lemma ChunkOrderExample(a: seq<byte>, b: seq<byte>, c: seq<byte>, meta: Chunk)
    requires !IsAudio(meta)
    ensures AudioOf([Chunk("audio", a), meta, Chunk("audio", b), Chunk("audio", c)]) == a + b + c
  {
    var cs := [Chunk("audio", a), meta, Chunk("audio", b), Chunk("audio", c)];
    assert cs[..3][..2][..1][..0] == [];
    assert cs[..3][..2][..1] == [Chunk("audio", a)];
    assert cs[..3][..2] == [Chunk("audio", a), meta];
    assert cs[..3] == [Chunk("audio", a), meta, Chunk("audio", b)];
    assert AudioOf(cs[..3][..2][..1]) == a;
    assert AudioOf(cs[..3][..2]) == a;
    assert AudioOf(cs[..3]) == a + b;
  }
}
