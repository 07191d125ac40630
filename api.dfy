/** The Flask routes of src/routes/api.py: speech-to-text and process-message. The
    module-level service handles that `init_services` rebinds are the fields
    of `Routes`; each route is its `try` body (a response, or an exception)
    followed by the two `except` clauses (`Translate`). */
module Api {
  import opened Python
  import opened LineCleaning
  import Base64
  import TtsService
  import AiService
  import SpeechService

  /** A JSON response: status code and a flat string-to-string object. */
  datatype Response = Response(status: int, body: map<string, string>)

  function ErrorResponse(status: int, message: string): Response
  {
    Response(status, map["error" := message])
  }

  const AudioFailure: string := "Failed to process audio"
  const MessageFailure: string := "Failed to process message"

  /** `except ValueError as e` gives 400 with `str(e)`; `except Exception`
      gives 500 with the route's fixed text. */
  function Translate(outcome: Result<Response>, fixedMessage: string): (resp: Response)
    ensures outcome.Ok? ==> resp == outcome.value
    ensures outcome.Raise? && outcome.exc.ValueError? ==> resp == ErrorResponse(400, outcome.exc.msg)
    ensures outcome.Raise? && !outcome.exc.ValueError? ==> resp == ErrorResponse(500, fixedMessage)
  {
    match outcome
    case Ok(r) => r
    case Raise(ValueError(m)) => ErrorResponse(400, m)
    case Raise(_) => ErrorResponse(500, fixedMessage)
  }

  /** Calling a method on a handle `init_services` has not set. */
  function Unset(method_: string): (e: Exc)
    ensures e.AttributeError? && StartsWith(e.msg, "'NoneType' object has no attribute")
  {
    AttributeError("'NoneType' object has no attribute '" + method_ + "'")
  }

  /** The `try` body of `speech_to_text_route`. */
  function TranscribeBody(svc: Option<SpeechService.SpeechRecognitionService>, audio: seq<byte>): (r: Result<Response>)
    // The route's own 400 is exactly the empty-audio check.
    ensures r == Ok(ErrorResponse(400, "No audio data provided")) <==> audio == []
    // Past it, the outcome is the transcriber's: its text as `{"text": …}`, or its exception.
    ensures audio != [] && r.Ok? ==>
              svc.Some? && svc.value.SpeechToText(audio).Ok? &&
              r.value == Response(200, map["text" := svc.value.SpeechToText(audio).value])
    ensures audio != [] && svc.Some? && svc.value.SpeechToText(audio).Ok? ==>
              r == Ok(Response(200, map["text" := svc.value.SpeechToText(audio).value]))
    ensures audio != [] && svc.Some? && svc.value.SpeechToText(audio).Raise? ==>
              r == Raise(svc.value.SpeechToText(audio).exc)
    // With no service set, non-empty audio hits the None handle.
    ensures audio != [] && svc.None? ==> r.Raise? && r.exc.AttributeError?
  {
    if audio == [] then Ok(ErrorResponse(400, "No audio data provided"))
    else if svc.None? then Raise(Unset("speech_to_text"))
    else
      match svc.value.SpeechToText(audio)
      case Ok(text) => Ok(Response(200, map["text" := text]))
      case Raise(e) => Raise(e)
  }

  /** `request.json.get('userMessage')` */
  function UserMessage(body: map<string, Value>): (v: Value)
    ensures "userMessage" in body ==> v == body["userMessage"]
    ensures "userMessage" !in body ==> v == PyNone
  {
    Get(body, "userMessage", PyNone)
  }

  /** `request.json.get('voice', '')` */
  function Voice(body: map<string, Value>): (v: Value)
    ensures "voice" in body ==> v == body["voice"]
    ensures "voice" !in body ==> v == PyStr("")
  {
    Get(body, "voice", PyStr(""))
  }

  /** The JSON object of a successful converse call. */
  function ReplyResponse(text: string, audio: seq<byte>): (resp: Response)
    ensures resp.status == 200
    ensures resp.body.Keys == {"openaiResponseText", "openaiResponseSpeech"}
    ensures resp.body["openaiResponseText"] == text
    ensures |resp.body["openaiResponseSpeech"]| == 4 * ((|audio| + 2) / 3)
    // The speech field is the base 64 text of the audio (`Base64.DecodeEncode`
    // shows it decodes back).
    ensures resp.body["openaiResponseSpeech"] == Base64.Encode(audio)
  {
    Response(200, map["openaiResponseText" := text, "openaiResponseSpeech" := Base64.Encode(audio)])
  }

  /** The `try` body of `process_message_route`. Before the AI call, the log
      line of api.py:95 slices `user_message[:50]`, which raises TypeError
      for a truthy message that is neither a string nor a list. */
  function ConverseBody(ai: Option<AiService.AIService>, tts: Option<TtsService.TextToSpeechService>,
                        p: Platform, body: Value): (r: Result<Response>)
    // The try body answers 400 itself only for its two presence checks;
    // every other 400 is a service's ValueError.
    ensures r.Ok? ==>
              r.value.status == 200 ||
              r.value == ErrorResponse(400, "No JSON body provided") ||
              r.value == ErrorResponse(400, "userMessage is required")
    // A 200 needs both services set.
    ensures r.Ok? && r.value.status == 200 ==> ai.Some? && tts.Some?
  {
    if !Truthy(body) then Ok(ErrorResponse(400, "No JSON body provided"))
    else if !body.PyDict? then Raise(AttributeError("'" + TypeName(body) + "' object has no attribute 'get'"))
    else
      var userMessage := UserMessage(body.entries);
      if !Truthy(userMessage) then Ok(ErrorResponse(400, "userMessage is required"))
      else if !Sliceable(userMessage) then Raise(TypeError("'" + TypeName(userMessage) + "' object is not subscriptable"))
      else if ai.None? then Raise(Unset("process_message"))
      else
        match ai.value.ProcessMessage(userMessage)
        case Raise(e) => Raise(e)
        case Ok(reply) =>
          var text := CleanLines(p, reply);
          if tts.None? then Raise(Unset("text_to_speech"))
          else
            match tts.value.Synthesize(PyStr(text), Voice(body.entries))
            case Raise(e) => Raise(e)
            case Ok(audio) => Ok(ReplyResponse(text, audio))
  }

  /** The response of `process_message_route` for a request body. */
  function Converse(ai: Option<AiService.AIService>, tts: Option<TtsService.TextToSpeechService>,
                    p: Platform, body: Value): (resp: Response)
    ensures resp.status == 200 || resp.status == 400 || resp.status == 500
    ensures !Truthy(body) ==> resp == ErrorResponse(400, "No JSON body provided")
    ensures body.PyDict? && Truthy(body) && !Truthy(UserMessage(body.entries)) ==>
              resp == ErrorResponse(400, "userMessage is required")
    ensures resp.status == 400 ==> resp.body.Keys == {"error"}
    ensures resp.status == 500 ==> resp == ErrorResponse(500, MessageFailure)
    ensures resp.status == 200 ==> resp.body.Keys == {"openaiResponseText", "openaiResponseSpeech"}
  {
    Translate(ConverseBody(ai, tts, p, body), MessageFailure)
  }

  class Routes {
    var speechService: Option<SpeechService.SpeechRecognitionService>
    var aiService: Option<AiService.AIService>
    var ttsService: Option<TtsService.TextToSpeechService>
    /** The host's `os.linesep`. */
    const platform: Platform

    /** The module as imported: no service set yet. */
    constructor (platform: Platform)
      ensures speechService == None && aiService == None && ttsService == None
      ensures this.platform == platform
    {
      speechService, aiService, ttsService := None, None, None;
      this.platform := platform;
    }

    /** `init_services(speech_svc, ai_svc, tts_svc)` rebinds the three handles. */
    method InitServices(speechSvc: SpeechService.SpeechRecognitionService, aiSvc: AiService.AIService,
                        ttsSvc: TtsService.TextToSpeechService)
      modifies this
      ensures speechService == Some(speechSvc) && aiService == Some(aiSvc) && ttsService == Some(ttsSvc)
    {
      speechService, aiService, ttsService := Some(speechSvc), Some(aiSvc), Some(ttsSvc);
    }

    /** `POST /speech-to-text` with `audio` as the raw request body. */
    function SpeechToTextRoute(audio: seq<byte>): (resp: Response)
      reads this
      ensures resp.status == 200 || resp.status == 400 || resp.status == 500
      ensures audio == [] ==> resp == ErrorResponse(400, "No audio data provided")
      // The route's own presence check is the only source of a 400: the
      // transcriber's ValueError for empty audio cannot be reached from here.
      ensures resp.status == 400 <==> audio == []
      ensures resp.status == 200 <==>
                audio != [] && speechService.Some? && speechService.value.recognizer(audio).Transcribed?
      ensures resp.status == 200 ==> resp.body == map["text" := speechService.value.recognizer(audio).text]
      // Unintelligible audio is a plain Exception in the transcriber, so it is reported as 500.
      ensures resp.status == 500 ==> resp == ErrorResponse(500, AudioFailure)
    {
      Translate(TranscribeBody(speechService, audio), AudioFailure)
    }

    /** `POST /process-message` with the parsed JSON `body`. */
    method ProcessMessageRoute(body: Value) returns (resp: Response)
      ensures resp == Converse(aiService, ttsService, platform, body)
    {
      var outcome: Result<Response>;
      if !Truthy(body) {
        outcome := Ok(ErrorResponse(400, "No JSON body provided"));
      } else if !body.PyDict? {
        outcome := Raise(AttributeError("'" + TypeName(body) + "' object has no attribute 'get'"));
      } else {
        var userMessage := UserMessage(body.entries);
        var voice := Voice(body.entries);
        if !Truthy(userMessage) {
          outcome := Ok(ErrorResponse(400, "userMessage is required"));
        } else if !Sliceable(userMessage) {
          outcome := Raise(TypeError("'" + TypeName(userMessage) + "' object is not subscriptable"));
        } else if aiService.None? {
          outcome := Raise(Unset("process_message"));
        } else {
          var reply := aiService.value.ProcessMessage(userMessage);
          if reply.Raise? {
            outcome := Raise(reply.exc);
          } else {
            var text := CleanLines(platform, reply.value);
            if ttsService.None? {
              outcome := Raise(Unset("text_to_speech"));
            } else {
              var speech := ttsService.value.TextToSpeech(PyStr(text), voice);
              if speech.Raise? {
                outcome := Raise(speech.exc);
              } else {
                outcome := Ok(ReplyResponse(text, speech.value));
              }
            }
          }
        }
      }
      resp := Translate(outcome, MessageFailure);
    }
  }

  /** A request that passes validation, with the AI's reply and the
      synthesizer's audio for it. */
  predicate Delivers(ai: AiService.AIService, tts: TtsService.TextToSpeechService, p: Platform,
                     body: map<string, Value>, reply: string, audio: seq<byte>)
  {
    && UserMessage(body).PyStr?
    && AiService.ValidMessage(UserMessage(body))
    && ai.ProcessMessage(UserMessage(body)) == Ok(reply)
    && tts.Synthesize(PyStr(CleanLines(p, reply)), Voice(body)) == Ok(audio)
  }

  /** Once the AI has replied, the response is decided by the synthesizer's
      outcome for the cleaned reply. */
  lemma ConverseAfterReply(ai: AiService.AIService, tts: TtsService.TextToSpeechService, p: Platform,
                           body: map<string, Value>, reply: string)
    requires AiService.ValidMessage(UserMessage(body)) && ai.ProcessMessage(UserMessage(body)) == Ok(reply)
    ensures var speech := tts.Synthesize(PyStr(CleanLines(p, reply)), Voice(body));
            Converse(Some(ai), Some(tts), p, PyDict(body)) ==
              if speech.Ok? then ReplyResponse(CleanLines(p, reply), speech.value)
              else Translate(Raise(speech.exc), MessageFailure)
  {
    assert "userMessage" in body;
  }

  /** On success the reply text is the cleaned AI reply, that same text went
      to the synthesizer, and the speech field is the base 64 encoding of its
      audio, which decodes back to the audio. */
  lemma ConverseSuccess(ai: AiService.AIService, tts: TtsService.TextToSpeechService, p: Platform,
                        body: map<string, Value>, reply: string, audio: seq<byte>)
    requires Delivers(ai, tts, p, body, reply, audio)
    ensures Converse(Some(ai), Some(tts), p, PyDict(body)) == ReplyResponse(CleanLines(p, reply), audio)
    ensures Base64.Decode(Converse(Some(ai), Some(tts), p, PyDict(body)).body["openaiResponseSpeech"]) == audio
  {
    ConverseAfterReply(ai, tts, p, body, reply);
    Base64.DecodeEncode(audio);
  }

  /** A 200 happens only that way: both services are set, the message is a
      valid string, and the reply and audio are what the stages produced. */
  lemma ConverseOkOnlyWhenDelivered(ai: Option<AiService.AIService>, tts: Option<TtsService.TextToSpeechService>,
                                    p: Platform, body: Value)
    requires Converse(ai, tts, p, body).status == 200
    ensures ai.Some? && tts.Some? && body.PyDict?
    ensures var reply := ai.value.ProcessMessage(UserMessage(body.entries));
            reply.Ok? &&
            var audio := tts.value.Synthesize(PyStr(CleanLines(p, reply.value)), Voice(body.entries));
            audio.Ok? &&
            Delivers(ai.value, tts.value, p, body.entries, reply.value, audio.value) &&
            Converse(ai, tts, p, body) == ReplyResponse(CleanLines(p, reply.value), audio.value)
  {
  }

  /** A missing or falsy userMessage is rejected with 400 whatever the
      services are: neither the AI nor the synthesizer is consulted. */
  lemma ConverseUserMessageRequired(ai1: Option<AiService.AIService>, tts1: Option<TtsService.TextToSpeechService>,
                                    ai2: Option<AiService.AIService>, tts2: Option<TtsService.TextToSpeechService>,
                                    p: Platform, body: map<string, Value>)
    requires body != map[] && !Truthy(UserMessage(body))
    ensures Converse(ai1, tts1, p, PyDict(body)) == ErrorResponse(400, "userMessage is required")
    ensures Converse(ai1, tts1, p, PyDict(body)) == Converse(ai2, tts2, p, PyDict(body))
  {
  }

  /** Bodies that are truthy but not JSON objects fail on `.get` and give 500. */
  lemma ConverseNonObjectBody(ai: Option<AiService.AIService>, tts: Option<TtsService.TextToSpeechService>,
                              p: Platform, body: Value)
    requires Truthy(body) && !body.PyDict?
    ensures Converse(ai, tts, p, body) == ErrorResponse(500, MessageFailure)
  {
  }

  /** A truthy non-string userMessage: a list reaches the AI and is rejected
      with its ValueError (400); any other kind fails in the log line's
      slice and gives 500. */
  lemma ConverseNonStringMessage(ai: AiService.AIService, tts: Option<TtsService.TextToSpeechService>,
                                 p: Platform, body: map<string, Value>)
    requires Truthy(UserMessage(body)) && !UserMessage(body).PyStr?
    ensures UserMessage(body).PyList? ==>
              Converse(Some(ai), tts, p, PyDict(body)) == ErrorResponse(400, "Invalid message: must be a non-empty string")
    ensures !UserMessage(body).PyList? ==>
              Converse(Some(ai), tts, p, PyDict(body)) == ErrorResponse(500, MessageFailure)
  {
    assert "userMessage" in body;
  }

  /** An over-long message is rejected by the AI's validation with 400. */
  lemma ConverseMessageTooLong(ai: AiService.AIService, tts: Option<TtsService.TextToSpeechService>,
                               p: Platform, body: map<string, Value>)
    requires UserMessage(body).PyStr? && |UserMessage(body).s| > AiService.MaxMessageLength
    ensures Converse(Some(ai), tts, p, PyDict(body)) == ErrorResponse(400, "Message too long: maximum 5000 characters")
  {
    assert "userMessage" in body;
  }

  /** A reply with no non-empty line cleans to "" and the synthesizer's
      ValueError comes back as 400; so does a cleaned reply over 5000
      characters. */
  lemma ConverseReplyRejectedBySynthesizer(ai: AiService.AIService, tts: TtsService.TextToSpeechService,
                                           p: Platform, body: map<string, Value>, reply: string)
    requires AiService.ValidMessage(UserMessage(body)) && ai.ProcessMessage(UserMessage(body)) == Ok(reply)
    ensures NonEmpty(SplitLines(reply)) == [] ==>
              Converse(Some(ai), Some(tts), p, PyDict(body)) == ErrorResponse(400, "Text must be a non-empty string")
    ensures |CleanLines(p, reply)| > TtsService.MaxTextLength ==>
              Converse(Some(ai), Some(tts), p, PyDict(body)) == ErrorResponse(400, "Text too long: maximum 5000 characters")
  {
    ConverseAfterReply(ai, tts, p, body, reply);
  }

  /** The try body reads `voice` only through the synthesizer's voice lookup. */
  lemma ConverseBodySameVoice(ai: Option<AiService.AIService>, tts: Option<TtsService.TextToSpeechService>,
                              p: Platform, b1: map<string, Value>, b2: map<string, Value>)
    requires b1 != map[] && b2 != map[] && UserMessage(b1) == UserMessage(b2)
    requires TtsService.LookupVoice(Voice(b1)) == TtsService.LookupVoice(Voice(b2))
    ensures ConverseBody(ai, tts, p, PyDict(b1)) == ConverseBody(ai, tts, p, PyDict(b2))
  {
    var userMessage := UserMessage(b1);
    if Truthy(userMessage) && Sliceable(userMessage) && ai.Some? && tts.Some? {
      var reply := ai.value.ProcessMessage(userMessage);
      if reply.Ok? {
        TtsService.SameVoiceSameOutcome(tts.value, PyStr(CleanLines(p, reply.value)), Voice(b1), Voice(b2));
      }
    }
  }

  /** Leaving out `voice` is the same request as sending the selector
      'default', whatever the services do. An empty body is the one
      exception: adding the key would make it truthy. */
  lemma ConverseMissingVoiceIsDefault(ai: Option<AiService.AIService>, tts: Option<TtsService.TextToSpeechService>,
                                      p: Platform, body: map<string, Value>)
    requires "voice" !in body && body != map[]
    ensures Converse(ai, tts, p, PyDict(body)) == Converse(ai, tts, p, PyDict(body["voice" := PyStr("default")]))
  {
    var body' := body["voice" := PyStr("default")];
    assert "voice" in body';
    assert UserMessage(body') == UserMessage(body);
    assert Voice(body) == PyStr("") && Voice(body') == PyStr("default");
    TtsService.DefaultSelectorsResolveToAria();
    ConverseBodySameVoice(ai, tts, p, body, body');
  }

  /** Without a `voice` key the synthesizer is driven with the default
      backend voice, exactly as for the selector 'default'. */
  lemma ConverseDefaultVoice(ai: AiService.AIService, tts: TtsService.TextToSpeechService, p: Platform,
                             body: map<string, Value>, reply: string)
    requires "voice" !in body
    requires AiService.ValidMessage(UserMessage(body)) && ai.ProcessMessage(UserMessage(body)) == Ok(reply)
    requires TtsService.ValidText(PyStr(CleanLines(p, reply)))
    requires tts.communicate(CleanLines(p, reply), TtsService.DefaultVoice).end.Finished?
    ensures Converse(Some(ai), Some(tts), p, PyDict(body)) ==
            ReplyResponse(CleanLines(p, reply),
                          TtsService.AudioOf(tts.communicate(CleanLines(p, reply), "en-US-AriaNeural").chunks))
    ensures Converse(Some(ai), Some(tts), p, PyDict(body)) ==
            Converse(Some(ai), Some(tts), p, PyDict(body["voice" := PyStr("default")]))
  {
    TtsService.DefaultSelectorsResolveToAria();
    var body' := body["voice" := PyStr("default")];
    assert UserMessage(body') == UserMessage(body);
    assert Voice(body) == PyStr("");
    assert Voice(body') == PyStr("default");
    ConverseAfterReply(ai, tts, p, body, reply);
    ConverseAfterReply(ai, tts, p, body', reply);
    var text := CleanLines(p, reply);
    TtsService.AudioOfIsFilteredConcat(tts.communicate(text, TtsService.DefaultVoice).chunks);
    ConverseMissingVoiceIsDefault(Some(ai), Some(tts), p, body);
  }

  /** When the Responder's backend fails, the route answers 500 with its
      fixed text. */
  lemma ConverseResponderFailure(ai: AiService.AIService, tts: Option<TtsService.TextToSpeechService>,
                                 p: Platform, body: map<string, Value>)
    requires AiService.ValidMessage(UserMessage(body))
    requires ai.model(AiService.BuildPrompt(UserMessage(body).s)).GenerationFailed?
    ensures Converse(Some(ai), tts, p, PyDict(body)) == ErrorResponse(500, MessageFailure)
  {
    assert "userMessage" in body;
  }

  /** When the synthesizer fails after validation (an unhashable voice, or a
      stream that raises), the route answers 500 with its fixed text. */
  lemma ConverseSynthesizerFailure(ai: AiService.AIService, tts: TtsService.TextToSpeechService, p: Platform,
                                   body: map<string, Value>, reply: string)
    requires AiService.ValidMessage(UserMessage(body)) && ai.ProcessMessage(UserMessage(body)) == Ok(reply)
    requires TtsService.ValidText(PyStr(CleanLines(p, reply)))
    requires var voice := TtsService.LookupVoice(Voice(body));
             !(voice.Ok? && tts.communicate(CleanLines(p, reply), voice.value).end.Finished?)
    ensures Converse(Some(ai), Some(tts), p, PyDict(body)) == ErrorResponse(500, MessageFailure)
  {
    ConverseAfterReply(ai, tts, p, body, reply);
  }

  /** Before `init_services` a request that reaches a service call is a 500:
      the handle is still None. */
  lemma ConverseBeforeInit(p: Platform, body: map<string, Value>)
    requires Truthy(UserMessage(body)) && Sliceable(UserMessage(body))
    ensures Converse(None, None, p, PyDict(body)) == ErrorResponse(500, MessageFailure)
  {
    assert "userMessage" in body;
  }

  /** `userMessage="What is 2+2?"`, no voice, the AI answers "4" and the
      synthesizer delivers the bytes 01 02: the response carries "4" and "AQI=". */
  lemma ConverseExample(ai: AiService.AIService, tts: TtsService.TextToSpeechService, p: Platform)
    requires ai.model(AiService.BuildPrompt("What is 2+2?")) == AiService.Generated("4")
    requires tts.communicate("4", "en-US-AriaNeural") ==
             TtsService.Stream([TtsService.Chunk("audio", [1, 2])], TtsService.Finished)
    ensures Converse(Some(ai), Some(tts), p, PyDict(map["userMessage" := PyStr("What is 2+2?")])) ==
            Response(200, map["openaiResponseText" := "4", "openaiResponseSpeech" := "AQI="])
  {
    var body := map["userMessage" := PyStr("What is 2+2?")];
    assert UserMessage(body) == PyStr("What is 2+2?");
    assert AiService.ValidMessage(PyStr("What is 2+2?"));
    assert SplitLines("4") == ["4"] by {
      SplitSingleLine("4");
    }
    assert NonEmpty(["4"]) == ["4"];
    assert CleanLines(p, "4") == "4";
    TtsService.DefaultSelectorsResolveToAria();
    var chunks := [TtsService.Chunk("audio", [1, 2])];
    assert chunks[..0] == [];
    assert TtsService.AudioOf(chunks) == [1, 2];
    assert ai.ProcessMessage(UserMessage(body)) == Ok("4");
    ConverseAfterReply(ai, tts, p, body, "4");
    Base64.EncodeExample();
  }

  /** Audio the recognizer hears as "hello" gives `{"text": "hello"}`. */
  lemma TranscribeExample(routes: Routes, audio: seq<byte>)
    requires audio != [] && routes.speechService.Some?
    requires routes.speechService.value.recognizer(audio) == SpeechService.Transcribed("hello")
    ensures routes.SpeechToTextRoute(audio) == Response(200, map["text" := "hello"])
  {
  }

  /** Audio the recognizer cannot understand is reported as 500 with the
      fixed message, not as a client error. */
  lemma TranscribeUnintelligible(routes: Routes, audio: seq<byte>)
    requires audio != [] && routes.speechService.Some?
    requires routes.speechService.value.recognizer(audio) == SpeechService.UnknownValue
    ensures routes.SpeechToTextRoute(audio) == ErrorResponse(500, "Failed to process audio")
  {
  }
}
