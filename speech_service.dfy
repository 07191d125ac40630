/** The Transcriber: the `SpeechRecognitionService` of
    src/services/speech_service.py. The body of its `try` (reading the bytes
    as an audio file with `recognizer.record`, then `recognize_google`) is
    injected as one total function from the audio bytes to its outcome. */
module SpeechService {
  import opened Python

  const UnavailablePrefix: string := "Speech Recognition service unavailable: "
  const FailurePrefix: string := "Speech recognition failed: "

  /** What the recognizer does with the audio: a transcript, the
      `sr.UnknownValueError` of unintelligible audio, an `sr.RequestError`,
      or any other exception (a decoding ValueError among them). */
  datatype Recognition =
    | Transcribed(text: string)
    | UnknownValue
    | RequestFailed(detail: string)
    | Failed(exc: Exc)

  datatype SpeechRecognitionService = SpeechRecognitionService(recognizer: seq<byte> -> Recognition)
  {
    /** What `speech_to_text(audio_binary)` returns or raises. */
    function SpeechToText(audio: seq<byte>): (r: Result<string>)
      // The empty-audio check is the only ValueError that escapes.
      ensures audio == [] ==> r == Raise(ValueError("Audio data is required"))
      ensures (r.Raise? && r.exc.ValueError?) <==> audio == []
      ensures audio != [] && recognizer(audio) == UnknownValue ==>
                r == Raise(Exception("Could not understand audio"))
      ensures audio != [] && recognizer(audio).RequestFailed? ==>
                r.Raise? && r.exc.Exception? && StartsWith(r.exc.msg, UnavailablePrefix)
      ensures audio != [] && recognizer(audio).Failed? ==>
                r == Raise(Exception(FailurePrefix + recognizer(audio).exc.msg))
      // On success the transcript is returned unchanged.
      ensures r.Ok? <==> audio != [] && recognizer(audio).Transcribed?
      ensures r.Ok? ==> r.value == recognizer(audio).text
    {
      if audio == [] then Raise(ValueError("Audio data is required"))
      else
        match recognizer(audio)
        case Transcribed(text) => Ok(text)
        case UnknownValue => Raise(Exception("Could not understand audio"))
        case RequestFailed(detail) => Raise(Exception(UnavailablePrefix + detail))
        case Failed(e) => Raise(Exception(FailurePrefix + e.msg))
    }
  }

  /** Empty audio is rejected whatever the recognizer would have done. */
  lemma EmptyAudioBeforeBackend(s1: SpeechRecognitionService, s2: SpeechRecognitionService)
    ensures s1.SpeechToText([]) == s2.SpeechToText([])
  {
  }
}
