# Voice assistant pipeline: a Dafny model

This project models the decision layer of a small voice assistant. It has a
Flask back end with two routes and a browser front end. The browser records
speech and posts it as a WAVE file to `/speech-to-text`. That route runs the
speech recognizer (the Transcriber) and returns `{"text": …}`. The user's
message then goes to `/process-message`, which works in five steps:

1. It has the Gemini-backed Responder answer the message.
2. It removes empty lines from the reply.
3. It has the Edge TTS Synthesizer speak the cleaned text.
4. It returns the text together with the audio in base 64.
5. If anything fails, it maps the exception to a 400 or 500 JSON error.

The model consists of these modules:

- `Python`: the values a JSON body can hold, Python truthiness, the exception classes the code tells apart, and a "returns or raises" `Result`.
- `TtsService`, `AiService`, `SpeechService`: the three services. Each one validates its input before calling its backend, and maps the backend's failures to exceptions. The backends are network clients, so each is a total function handed to the service. The Edge TTS backend, for example, maps a text and a voice to a finite stream of tagged chunks.
- `LineCleaning`: `os.linesep.join([s for s in text.splitlines() if s])`. `os.linesep` is a platform parameter.
- `Base64`: the encoder of section 4 of RFC 4648, with a decoder that exists only to prove the round trip.
- `Api`: the two routes.
  - The request flow is the spec function `Converse`, and the method `Routes.ProcessMessageRoute` is proved to compute it.
  - The module-level service handles that `init_services` rebinds are the fields of the class `Routes`.
- `ClientAudio`: the browser's `flattenArray`, `writeString`, `setUint16`, `setUint32`, `setInt16`, `floatTo16BitPCM` and `encodeWAV`.
  - These are imperative methods over arrays.
  - Each is proved to leave its array equal to a spec function: `Splice` of the bytes it writes, `WavBytes` of the samples, or the concatenation of the buffers.
- `ClientHtml`: the browser's `escapeHtml`.

Where the code's behaviour is easy to misread, the model follows the code:

- **Unintelligible audio is a 500, not a 400.** The Transcriber raises a plain `Exception("Could not understand audio")` for it, and the route sends every non-`ValueError` to 500 (`Api.TranscribeUnintelligible`).
- **A non-string message is not always a 400.** The route's log line slices `user_message[:50]` before the Responder validates the message. A truthy `userMessage` that is an integer or a boolean therefore fails with a `TypeError` and gives 500. So does an object up to Python 3.11. From Python 3.12 on, slices are hashable and `dict[:50]` raises `KeyError` instead, which also gives 500. Only the class of the exception matters to the route, so the model's `TypeError` stands for both. A list can be sliced, so it reaches the Responder and is rejected with 400 (`Api.ConverseNonStringMessage`).
- **A truthy JSON body that is not an object fails on `.get` and gives 500** (`Api.ConverseNonObjectBody`).
- **A request that reaches a service call before `init_services` is a 500.** A service handle that is still `None` raises `AttributeError`, which the route reports as 500 (`Api.ConverseBeforeInit`). The presence checks come first, so a falsy body or a missing `userMessage` is still a 400.
- **A message or reply made only of blanks is accepted.** `if not x` rejects only the empty string, so "   " passes the Responder's and the Synthesizer's validation and reaches the backend (`AiService.BlankMessageReachesModel`, `TtsService.BlankTextReachesBackend`).
- **A list or dict `voice` is a 500.** It is unhashable, so the voice lookup raises `TypeError`. The Synthesizer wraps that error as its failure `Exception`, and the route reports it as 500 (`TtsService.LookupVoice`).

## Model

| member | source | states |
|---|---|---|
| TtsService.ResolveVoice | src/services/tts_service.py:9-15 | a selector in the voice mapping gets its mapped voice and any other string gets en-US-AriaNeural; the result is always one of the four backend voices and never empty |
| TtsService.DefaultSelectorsResolveToAria | src/services/tts_service.py:25-48 | the default argument "" and the key 'default' both resolve to en-US-AriaNeural |
| TtsService.LookupVoice | src/services/tts_service.py:48 | `VOICE_MAPPING.get` on any Python value: strings resolve as above, other hashable values get the default, and exactly the unhashable ones (list, dict) raise TypeError |
| TtsService.AudioOf | src/services/tts_service.py:53-57 | `audio_data` after the loop: empty for a stream without audio chunks, and at least as long as every audio payload |
| TtsService.IsAudio | src/services/tts_service.py:55 | the loop's test `chunk["type"] == "audio"` |
| TtsService.AudioChunks | src/services/tts_service.py:55 | the reference filter returns only chunks of type "audio", each taken from the input, and keeps every audio chunk of the input |
| TtsService.AudioOfAppend | src/services/tts_service.py:53-57 | the accumulated audio of a stream split in two is the audio of the first part followed by that of the second |
| TtsService.AudioOfIsFilteredConcat | src/services/tts_service.py:53-57 | the bytes the loop assembles are the payloads of the chunks of type "audio", concatenated in delivery order, other chunks contributing nothing |
| TtsService.AudioOfLength | src/services/tts_service.py:53-57 | the assembled audio is as long as the sum of the audio chunks' payload lengths |
| TtsService.GenerateAudio | src/services/tts_service.py:51-57 | the `async for` loop: for a stream that finishes, the accumulated audio of all its chunks; for a stream that raises, that exception and no partial audio |
| TtsService.ValidText | src/services/tts_service.py:40-44 | text is accepted exactly when it is truthy, a string, and at most 5000 characters long |
| TtsService.TextToSpeechService.Synthesize | src/services/tts_service.py:40-67 | empty or non-string text raises ValueError("Text must be a non-empty string"), text over 5000 characters raises ValueError("Text too long: maximum 5000 characters"), and a ValueError comes out exactly when the text is invalid; every later failure is an Exception starting "Text-to-speech conversion failed: "; the result is audio exactly when the text is valid, the voice resolves and the stream finishes, and that audio is the audio chunks' payloads in order |
| TtsService.TextToSpeechService.TextToSpeech | src/services/tts_service.py:40-67 | the method's outcome is exactly `Synthesize`'s for every text and voice |
| TtsService.ValidationBeforeBackend | src/services/tts_service.py:40-44 | for invalid text all backends give the same ValueError: no backend call is made |
| TtsService.LengthBoundary | src/services/tts_service.py:43-44 | 5000 characters pass validation; 5001 are rejected with ValueError |
| TtsService.SameVoiceSameOutcome | src/services/tts_service.py:48 | two voice arguments with the same lookup give the same outcome |
| TtsService.BlankTextReachesBackend | src/services/tts_service.py:40-41 | a text of blanks passes validation: the outcome is not a ValueError |
| TtsService.ChunkOrderExample | src/services/tts_service.py:54-56 | a stream [A, non-audio, B, C] yields A+B+C |
| AiService.BuildPrompt | src/services/ai_service.py:48-54 | the prompt starts with the fixed persona text and "\n\nUser: " and ends with the user message verbatim |
| AiService.BuildPromptInjective | src/services/ai_service.py:54 | distinct messages give distinct prompts |
| AiService.ValidMessage | src/services/ai_service.py:39-43 | a message is accepted exactly when it is truthy, a string, and at most 5000 characters long |
| AiService.AIService.ProcessMessage | src/services/ai_service.py:39-63 | a missing, empty or non-string message raises ValueError("Invalid message: must be a non-empty string"); over 5000 characters raises ValueError("Message too long: maximum 5000 characters"); a ValueError comes out exactly when validation fails; a backend failure becomes Exception("Failed to process message: " + its message); on success the backend's text is returned unmodified, for the prompt of that message |
| AiService.NewAIService | src/services/ai_service.py:11-22 | construction fails exactly for a falsy key (None, ""), with ValueError("GEMINI_API_KEY is required"); otherwise the service holds the given model |
| AiService.ValidationBeforeBackend | src/services/ai_service.py:39-43 | an invalid message gets the same outcome whatever the model: no backend call |
| AiService.LengthBoundary | src/services/ai_service.py:42-43 | 5000 characters pass; 5001 raise ValueError |
| AiService.BlankMessageReachesModel | src/services/ai_service.py:39-40 | a message of blanks passes validation, and the outcome is a reply exactly when the model generates one |
| SpeechService.SpeechRecognitionService.SpeechToText | src/services/speech_service.py:30-59 | empty audio raises ValueError("Audio data is required"), the only ValueError that escapes; unintelligible audio raises Exception("Could not understand audio"); a request error raises an Exception starting "Speech Recognition service unavailable: "; any other failure becomes Exception("Speech recognition failed: " + its message); success is exactly a transcript, returned unchanged |
| SpeechService.EmptyAudioBeforeBackend | src/services/speech_service.py:30-31 | the rejection of empty audio does not depend on the recognizer |
| LineCleaning.IsLineBoundary | src/routes/api.py:102 | the boundary set of `str.splitlines`: line feed and carriage return split lines, while tab and printable ASCII never do |
| LineCleaning.LineSep | src/routes/api.py:101 | `os.linesep` is "\n" or "\r\n" |
| LineCleaning.FirstBoundary | src/routes/api.py:102 | the position of the first `splitlines` boundary character, with no boundary before it |
| LineCleaning.BoundaryWidth | src/routes/api.py:102 | a boundary is one character, or two for "\r\n", and stays inside the text |
| LineCleaning.SplitLines | src/routes/api.py:102 | `str.splitlines` yields lines that contain no boundary character; SplitLinesCons, SplitLinesCRLF and SplitSingleLine pin it as the text between consecutive boundaries, in order |
| LineCleaning.SplitLinesCons | src/routes/api.py:102 | a line, possibly empty, ended by a one-character boundary (not a '\r' followed by '\n') is the first line, followed by the split of the rest |
| LineCleaning.SplitLinesCRLF | src/routes/api.py:102 | a line, possibly empty, ended by "\r\n" is the first line, followed by the split of the rest: the pair is one boundary |
| LineCleaning.NonEmpty | src/routes/api.py:101-103 | the comprehension's filter keeps no empty line |
| LineCleaning.SplitJoin | src/routes/api.py:101-103 | splitting a join of non-empty boundary-free lines with the platform separator gives back those lines |
| LineCleaning.SplitJoinHead | src/routes/api.py:101-103 | splitting a join of two or more non-empty lines yields the first line, then the split of the join of the others |
| LineCleaning.LinesOfCleaned | src/routes/api.py:101-103 | re-splitting the cleaned reply gives `NonEmpty` of the input's lines, none of them empty; NonEmptySingle and NonEmptyAppend pin `NonEmpty` as the order-preserving filter, so these are the input's non-empty lines in their original order |
| LineCleaning.CleanIdempotent | src/routes/api.py:101-103 | cleaning twice equals cleaning once |
| LineCleaning.CleanedEnds | src/routes/api.py:101-103 | the cleaned reply neither starts nor ends with a line boundary: no separator is added at either end |
| LineCleaning.CleanLines | src/routes/api.py:101-103 | the cleaned reply is empty exactly when the filter of the input's lines is empty; by NonEmptyMembers, that is when the input has no non-empty line |
| LineCleaning.Join | src/routes/api.py:101 | `sep.join` of a non-empty list is as long as its lines together plus one separator between each two; of no lines, empty |
| LineCleaning.JoinSingle | src/routes/api.py:101 | joining one line gives that line, with no separator |
| LineCleaning.JoinAppend | src/routes/api.py:101 | joining two non-empty runs of lines is the join of the first, then `sep` (`os.linesep`), then the join of the second: `sep` is exactly the text placed between consecutive lines |
| LineCleaning.NonEmptySingle | src/routes/api.py:103 | the filter keeps a single line exactly when it is non-empty |
| LineCleaning.NonEmptyAppend | src/routes/api.py:103 | the filter distributes over concatenation, so together with NonEmptySingle it is the order-preserving filter of the non-empty lines |
| LineCleaning.NonEmptyMembers | src/routes/api.py:103 | a line is kept exactly when it is a non-empty line of the input |
| LineCleaning.NonEmptyIdempotent | src/routes/api.py:101-103 | filtering the empty lines twice equals filtering once |
| LineCleaning.NonEmptyKeepsLines | src/routes/api.py:101-103 | filtering the lines of a split leaves only non-empty boundary-free lines |
| LineCleaning.SplitSingleLine | src/routes/api.py:102 | a non-empty text with no boundary is one line |
| LineCleaning.FirstBoundaryAppend | src/routes/api.py:102 | the first boundary of l + t for boundary-free l lies past l |
| LineCleaning.JoinHead | src/routes/api.py:101 | a join of non-empty lines starts with the first line's first character |
| LineCleaning.JoinLast | src/routes/api.py:101 | a join of non-empty lines ends with the last line's last character |
| Base64.EncodeGroup | src/routes/api.py:109 | three bytes encode as four characters |
| Base64.Encode | src/routes/api.py:109 | the base 64 text of n bytes has 4·⌈n/3⌉ characters |
| Base64.CharOf | src/routes/api.py:109 | an alphabet character is never the pad '=' |
| Base64.ValueOf | src/routes/api.py:109 | every character maps to a six-bit value |
| Base64.ValueOfCharOf | src/routes/api.py:109 | the alphabet is one-to-one on the 64 six-bit values |
| Base64.GroupRoundTrip | src/routes/api.py:109 | the four six-bit values of a group recombine into its three bytes |
| Base64.DecodeGroup | src/routes/api.py:109 | a full encoded group decodes to its three bytes, then the rest |
| Base64.DecodeOne | src/routes/api.py:109 | a one-byte tail, padded "==", decodes to that byte |
| Base64.DecodeTwo | src/routes/api.py:109 | a two-byte tail, padded "=", decodes to those bytes |
| Base64.DecodeShort | src/routes/api.py:109 | the padded encoding of one or two bytes decodes to those bytes |
| Base64.EncodeFullGroup | src/routes/api.py:109 | three or more bytes encode as one full group followed by the encoding of the rest |
| Base64.DecodeEncode | src/routes/api.py:109 | decoding the encoding gives back the bytes, so the audio field loses nothing |
| Base64.EncodeAlphabet | src/routes/api.py:109 | the encoding uses only the 64 alphabet characters, with '=' only in the last two places |
| Base64.CanonicalGroup | src/routes/api.py:109 | a full group placed before a canonical encoding keeps it canonical |
| Base64.PadBitsZeroOne | src/routes/api.py:109 | the padded encoding of one byte has four zero pad bits before "==" |
| Base64.PadBitsZeroTwo | src/routes/api.py:109 | the padded encoding of two bytes has two zero pad bits before "=" |
| Base64.PadBitsZeroShort | src/routes/api.py:109 | the padded encodings of one and two bytes have zero pad bits |
| Base64.PadBitsZeroGroup | src/routes/api.py:109 | a full group in front of an encoding keeps its pad bits zero |
| Base64.EncodeZeroPadBits | src/routes/api.py:109 | every encoding has zero pad bits (section 3.5 of RFC 4648): the character before "==" has its low four bits clear, the one before a single "=" its low two |
| Base64.EncodeExample | src/routes/api.py:109 | the bytes 01 02 encode as "AQI=" |
| Api.TranscribeBody | src/routes/api.py:38-50 | the `try` body answers 400 exactly for empty audio; past that, it is 200 `{"text": t}` exactly when the transcriber returns t, the transcriber's exception when it raises, and AttributeError when no service is set |
| Api.ConverseBody | src/routes/api.py:80-117 | the `try` body answers 400 itself only for its two presence checks, so every other 400 is a service's ValueError; a 200 needs both services set |
| Api.Unset | src/routes/api.py:12-14 | a call through a handle still `None` raises AttributeError "'NoneType' object has no attribute …" |
| Api.UserMessage | src/routes/api.py:87 | `request.json.get('userMessage')`: the value under the key, or None when the key is missing |
| Api.Voice | src/routes/api.py:93 | `request.json.get('voice', '')`: the value under the key, or "" when the key is missing |
| Api.ReplyResponse | src/routes/api.py:109-117 | the 200 response holds exactly the keys openaiResponseText (the text) and openaiResponseSpeech (exactly `Base64.Encode` of the audio, of length 4·⌈n/3⌉) |
| Api.Translate | src/routes/api.py:52-58 | a response from the `try` goes out as is; a ValueError becomes 400 with its message; every other exception becomes 500 with the route's fixed text |
| Api.Converse | src/routes/api.py:80-125 | the status is 200, 400 or 500; a falsy body (None, {}, "", 0, false, []) gives 400 "No JSON body provided"; an object without a truthy userMessage gives 400 "userMessage is required"; a 400 carries only an error; every 500 is "Failed to process message"; a 200 carries exactly the two reply fields |
| Api.Routes.InitServices | src/routes/api.py:17-22 | the three service handles are set to the given services |
| Api.Routes.constructor | src/routes/api.py:12-14 | before initialisation all three service handles are None |
| Api.Routes.SpeechToTextRoute | src/routes/api.py:25-58 | empty audio gives 400 "No audio data provided" without consulting the transcriber and is the only 400; 200 happens exactly when the service is set and the recognizer returns a transcript, with body `{"text": transcript}`; every other case is 500 "Failed to process audio" |
| Api.Routes.ProcessMessageRoute | src/routes/api.py:61-125 | the route's response is `Converse` of the current services, platform and body |
| Api.ConverseAfterReply | src/routes/api.py:98-125 | once the AI has replied, the response is the reply and the audio if the synthesizer succeeds for the cleaned reply, and otherwise the translation of its exception |
| Api.ConverseSuccess | src/routes/api.py:98-117 | when both services deliver, the response carries the cleaned reply, the same text the synthesizer was given, and its audio in base 64, which decodes back to the audio |
| Api.ConverseOkOnlyWhenDelivered | src/routes/api.py:80-125 | a 200 means both services are set and both returned, and the response is the cleaned reply with the synthesizer's audio for it |
| Api.ConverseUserMessageRequired | src/routes/api.py:87-90 | a missing or falsy userMessage gives 400 "userMessage is required" whatever the services are |
| Api.ConverseNonObjectBody | src/routes/api.py:82-87 | a truthy body that is not an object gives 500 |
| Api.ConverseNonStringMessage | src/routes/api.py:95-98 | a truthy list message is rejected by the Responder with 400; any other non-string kind fails in the log line's slice with 500 |
| Api.ConverseMessageTooLong | src/routes/api.py:98 | a message over 5000 characters gives 400 "Message too long: maximum 5000 characters" |
| Api.ConverseReplyRejectedBySynthesizer | src/routes/api.py:101-106 | a reply with no non-empty line gives 400 "Text must be a non-empty string"; a cleaned reply over 5000 characters gives 400 "Text too long: maximum 5000 characters" |
| Api.ConverseBodySameVoice | src/routes/api.py:93-106 | two bodies with the same message and voices with the same lookup give the same outcome |
| Api.ConverseMissingVoiceIsDefault | src/routes/api.py:93 | for any services and any outcome, a non-empty body without a voice key gets the same response as with voice 'default' |
| Api.ConverseDefaultVoice | src/routes/api.py:93 | without a voice key, and when the synthesizer succeeds, the reply is spoken with en-US-AriaNeural, the same response as for voice 'default' |
| Api.ConverseResponderFailure | src/routes/api.py:98-125 | when the Responder's backend fails on a valid message, the response is 500 "Failed to process message" |
| Api.ConverseSynthesizerFailure | src/routes/api.py:106-125 | when the synthesizer fails after validation (unhashable voice or a stream that raises), the response is 500 "Failed to process message" |
| Api.ConverseBeforeInit | src/routes/api.py:12-14 | before the services are set, any truthy string or list message reaches the None handle and gives 500 |
| Api.ConverseExample | src/routes/api.py:61-117 | "What is 2+2?" answered "4" and spoken as bytes 01 02 gives 200 with "4" and "AQI=" |
| Api.TranscribeExample | src/routes/api.py:47-50 | a transcript "hello" gives 200 `{"text": "hello"}` |
| Api.TranscribeUnintelligible | src/routes/api.py:56-58 | audio the recognizer cannot understand gives 500 "Failed to process audio" |
| ClientAudio.Splice | static/js/script.js:176-180 | a write keeps the length of the buffer |
| ClientAudio.SpliceAt | static/js/script.js:176-180 | after a write the bytes inside the span are the written ones and every other byte is unchanged |
| ClientAudio.SpliceSplice | static/js/script.js:188-212 | two adjacent writes equal one write of both |
| ClientAudio.SplicePointwise | static/js/script.js:176-180 | a buffer that holds the written bytes inside the span and the old bytes elsewhere is the result of the write |
| ClientAudio.SpliceWhole | static/js/script.js:184-214 | a write over the whole buffer replaces it |
| ClientAudio.Uint16LE | static/js/script.js:198 | a 16-bit field is two bytes |
| ClientAudio.Uint32LE | static/js/script.js:190 | a 32-bit field is four bytes |
| ClientAudio.Int16LE | static/js/script.js:223 | a 16-bit sample is two bytes |
| ClientAudio.CharCode | static/js/script.js:178 | a character code below 256 is stored unchanged |
| ClientAudio.CharCodes | static/js/script.js:176-180 | byte i of a written string is the code of character i |
| ClientAudio.ReadUint16LEOf | static/js/script.js:198 | a 16-bit little-endian field reads back as the value modulo 2^16 |
| ClientAudio.ReadUint32LEOf | static/js/script.js:190 | a 32-bit little-endian field reads back as the value modulo 2^32 |
| ClientAudio.ReadInt16LEOf | static/js/script.js:223 | a 16-bit signed sample reads back as itself |
| ClientAudio.WavHeader | static/js/script.js:187-212 | the header is 44 bytes |
| ClientAudio.RiffDescriptor | static/js/script.js:187-192 | the RIFF descriptor is 12 bytes |
| ClientAudio.FmtChunk | static/js/script.js:193-208 | the fmt chunk is 24 bytes |
| ClientAudio.DataChunkHeader | static/js/script.js:209-212 | the data chunk header is 8 bytes |
| ClientAudio.WavBytes | static/js/script.js:183-217 | the file `encodeWAV` builds is 44+2n bytes: the 44-byte header, then the samples' PCM bytes |
| ClientAudio.PcmBytes | static/js/script.js:220-225 | n samples are 2n bytes |
| ClientAudio.PcmBytesAt | static/js/script.js:220-225 | sample i occupies bytes 2i and 2i+1 of the sample data |
| ClientAudio.HeaderLayout | static/js/script.js:187-212 | "RIFF" at 0, the RIFF length at 4, "WAVE" at 8, "fmt " at 12, 16 at 16, 1 at 20 and 22, the rate at 24, twice the rate at 28, 2 at 32, 16 at 34, "data" at 36, the data length at 40 |
| ClientAudio.ReadUint16At | static/js/script.js:198 | a 16-bit field written at an offset reads back there as the value modulo 2^16 |
| ClientAudio.ReadUint32At | static/js/script.js:190 | a 32-bit field written at an offset reads back there as the value modulo 2^32 |
| ClientAudio.HeaderSizeFields | static/js/script.js:189-190 | the RIFF length at offset 4 reads back as 36+2n and the data length at offset 40 as 2n, each modulo 2^32 |
| ClientAudio.HeaderFormatFields | static/js/script.js:195-208 | the fmt chunk reads back as length 16, format 1 (PCM), 1 channel, block align 2 and 16 bits per sample |
| ClientAudio.HeaderRateFields | static/js/script.js:201-204 | the fmt chunk reads back the sample rate at 24 and twice the sample rate at 28, modulo 2^32 |
| ClientAudio.SampleLayout | static/js/script.js:214-223 | sample i reads back from bytes 44+2i and 45+2i of the file, past the header |
| ClientAudio.WavLayout | static/js/script.js:183-225 | the file of n samples is 44+2n bytes; the RIFF size is the length minus 8 and the data size the length minus 44; the fmt fields say PCM, mono, the rate, twice the rate, block align 2, 16 bits; every sample reads back at 44+2i |
| ClientAudio.WriteString | static/js/script.js:176-180 | byte offset+i becomes the code of character i, and no other byte changes |
| ClientAudio.SetUint16 | static/js/script.js:198 | the two bytes at the offset become the value little-endian, and nothing else changes |
| ClientAudio.SetUint32 | static/js/script.js:190 | the four bytes at the offset become the value little-endian, and nothing else changes |
| ClientAudio.SetInt16 | static/js/script.js:223 | the two bytes at the offset become the sample in two's complement, little-endian, and nothing else changes |
| ClientAudio.FloatTo16BitPCM | static/js/script.js:220-225 | sample i goes to bytes offset+2i and offset+2i+1, in order, and no other byte changes |
| ClientAudio.WriteRiffDescriptor | static/js/script.js:187-192 | bytes 0-11 become "RIFF", 36+2n and "WAVE", and nothing else changes |
| ClientAudio.WriteFmtChunk | static/js/script.js:193-208 | bytes 12-35 become the fmt chunk, and nothing else changes |
| ClientAudio.WriteDataChunkHeader | static/js/script.js:209-212 | bytes 36-43 become "data" and 2n, and nothing else changes |
| ClientAudio.EncodeWav | static/js/script.js:183-217 | the buffer is exactly `WavBytes` of the samples: the 44-byte header followed by the samples as 16-bit little-endian PCM |
| ClientAudio.TotalLength | static/js/script.js:134-137 | every buffer fits within the recording's total length |
| ClientAudio.Concat | static/js/script.js:134-137 | the concatenation is as long as the buffers' total length |
| ClientAudio.Zeros | static/js/script.js:165 | a new Float32Array is filled with zeros |
| ClientAudio.TotalLengthPrefix | static/js/script.js:134-137 | the first i buffers are never longer than all of them |
| ClientAudio.PrefixStep | static/js/script.js:167-171 | one more buffer adds its length to the running offset and its samples to the end of the copied prefix |
| ClientAudio.SpliceZeros | static/js/script.js:165-169 | copying into the front of a zero-filled array leaves zeros after the copied samples |
| ClientAudio.SetFrom | static/js/script.js:169 | `result.set(buffer, offset)` writes the buffer at the offset and changes nothing else |
| ClientAudio.FlattenArray | static/js/script.js:164-173 | the result is the buffers one after another, followed by zeros up to `recordingLength` |
| ClientAudio.EncodeRecording | static/js/script.js:133-144 | with `recordingLength` the sum of the buffer lengths, the WAVE file holds exactly the concatenated buffers |
| ClientHtml.EntityOf | static/js/script.js:459-465 | each of & < > " ' becomes an entity from '&' to ';', and every other character stands for itself |
| ClientHtml.EscapeSingle | static/js/script.js:466 | escaping one character gives its entity, or the character itself when it is not special |
| ClientHtml.EscapeConcat | static/js/script.js:466 | escaping distributes over concatenation |
| ClientHtml.EscapeNoMarkup | static/js/script.js:458-466 | the output contains no <, >, " or ' |
| ClientHtml.UnescapeEntity | static/js/script.js:459-465 | each entity reads back as its character |
| ClientHtml.UnescapeEscape | static/js/script.js:458-466 | unescaping the output gives back the input |
| ClientHtml.EscapeInjective | static/js/script.js:458-466 | distinct texts escape to distinct outputs |
| ClientHtml.EscapeIdentity | static/js/script.js:458-466 | a text is left unchanged exactly when it contains none of & < > " ' |
| ClientHtml.EscapeHtml | static/js/script.js:458-466 | escaping never shortens a text, and is empty exactly for the empty text |
| ClientHtml.EscapeExample | static/js/script.js:458-466 | "<b>" becomes "&lt;b&gt;" |

## Left out

- The network backends: `edge_tts.Communicate(...).stream()`, `genai.GenerativeModel(...).generate_content`, and `sr.Recognizer.record`/`recognize_google`. Each is a total function supplied with the service. `genai.configure` and the choice of model at construction are not modelled.
- The `asyncio.run`/`async for` bridging of the Synthesizer. The stream is a finite sequence of chunks that ends normally or with an exception, and the loop consumes it in order.
- Flask itself: request parsing, `jsonify`, blueprints and CORS. The process-message route receives the parsed JSON value, and the speech-to-text route receives the raw body's bytes. A `request.json` that fails to parse is not modelled.
- JSON numbers are integers in the model; floats are left out. Truthiness and the log line's slice treat them as their integer counterparts.
- Logging. The one exception is the slice `user_message[:50]` of api.py:95, because it can raise. The messages of the internal `TypeError`/`AttributeError` texts are illustrative; only their class decides the response.
- The application bootstrap, the health and page routes, configuration loading and the logger set-up. The 5000-character limits are constants in the services, as in the code.
- The DOM, microphone capture, `fetch`, playback, the theme switch and the UI flags of the browser script.
- `FloatTo16BitPCM`: the clamping and scaling of each float sample is floating point. It is an uninterpreted map `convert` from the sample's 32-bit pattern to a 16-bit integer.
- `WriteString`: `charCodeAt` returns UTF-16 code units, while the model takes the low eight bits of each character. This only matters for non-ASCII text, and `encodeWAV` writes only the ASCII tags.
- `FlattenArray`, `WriteString`, `SetUint16`, `SetUint32`, `SetInt16`, `FloatTo16BitPCM`, `SetFrom`: a write past the end of a `DataView` or `Float32Array` throws `RangeError` in the browser. Here it is excluded by a precondition. `stopRecording` never triggers it, because it passes the exact total length (`EncodeRecording`).
- Lone surrogates: a JSON string may hold an unpaired surrogate such as `"\ud800"`, which Python keeps in a `str` and counts in `len`. A Dafny `char` is a Unicode scalar value and cannot hold one, so such a message or text cannot be expressed in the model.
- `EncodeWav`: the engine's `ArrayBuffer` size limit is not modelled.
- `EncodeWav`, `WavHeader`, `FmtChunk`: `audioContext.sampleRate` is a JavaScript number that `setUint32` converts with ToUint32. The model takes an integral rate (`nat`), so a fractional rate's truncation is not modelled.
- Base 64 decoding in the browser (`atob`). `Base64.Decode` is only the partner of the encoder.
- `Api.Routes.SpeechToTextRoute` is a function reading the service fields rather than a method. It has no state of its own to change.
