/** The Responder: the `AIService` of src/services/ai_service.py. The Gemini
    model (`genai.GenerativeModel('gemini-pro').generate_content(prompt).text`)
    is injected as a total function from the prompt to a completion or the
    exception the call raised. */
module AiService {
  import opened Python

  const MaxMessageLength: nat := 5000
  const FailurePrefix: string := "Failed to process message: "

  /** The fixed persona directive placed before every user message. */
  const SystemPrompt: string :=
    "Act like a personal assistant. You can respond to questions, "
    + "translate sentences, summarize news, and give recommendations. "
    + "Keep responses concise and helpful."

  /** What comes between the persona text and the user message. */
  const UserMarker: string := "\n\nUser: "

  /** The outcome of `generate_content(prompt).text`. */
  datatype Generation = Generated(text: string) | GenerationFailed(exc: Exc)

  /** The combined prompt: persona, marker, then the user message verbatim. */
  function BuildPrompt(userMessage: string): (p: string)
    ensures StartsWith(p, SystemPrompt + UserMarker)
    ensures |p| == |SystemPrompt + UserMarker| + |userMessage|
    ensures p[|SystemPrompt + UserMarker|..] == userMessage
  {
    SystemPrompt + UserMarker + userMessage
  }

  /** The prompt determines the user message: distinct messages are never
      sent as the same prompt. */
  lemma BuildPromptInjective(m1: string, m2: string)
    requires BuildPrompt(m1) == BuildPrompt(m2)
    ensures m1 == m2
  {
    assert m1 == BuildPrompt(m1)[|SystemPrompt + UserMarker|..];
  }

  /** Whether `process_message` accepts `userMessage` (lines 39-43). */
  predicate ValidMessage(userMessage: Value)
    // `if not user_message or not isinstance(user_message, str)`, then the length limit.
    ensures ValidMessage(userMessage) <==> Truthy(userMessage) && userMessage.PyStr? && |userMessage.s| <= MaxMessageLength
  {
    userMessage.PyStr? && userMessage.s != "" && |userMessage.s| <= MaxMessageLength
  }

  datatype AIService = AIService(model: string -> Generation)
  {
    /** What `process_message(user_message)` returns or raises. */
    function ProcessMessage(userMessage: Value): (r: Result<string>)
      ensures !(userMessage.PyStr? && userMessage.s != "") ==>
                r == Raise(ValueError("Invalid message: must be a non-empty string"))
      ensures userMessage.PyStr? && |userMessage.s| > MaxMessageLength ==>
                r == Raise(ValueError("Message too long: maximum 5000 characters"))
      // Validation is outside the try: only it raises ValueError.
      ensures (r.Raise? && r.exc.ValueError?) <==> !ValidMessage(userMessage)
      // A backend failure becomes a plain Exception carrying its message.
      ensures ValidMessage(userMessage) && r.Raise? ==>
                model(BuildPrompt(userMessage.s)).GenerationFailed? &&
                r.exc == Exception(FailurePrefix + model(BuildPrompt(userMessage.s)).exc.msg)
      // On success the completion text is returned unmodified.
      ensures r.Ok? ==>
                ValidMessage(userMessage) && model(BuildPrompt(userMessage.s)) == Generated(r.value)
    {
      if !(userMessage.PyStr? && userMessage.s != "") then
        Raise(ValueError("Invalid message: must be a non-empty string"))
      else if |userMessage.s| > MaxMessageLength then
        Raise(ValueError("Message too long: maximum 5000 characters"))
      else
        match model(BuildPrompt(userMessage.s))
        case Generated(text) => Ok(text)
        case GenerationFailed(e) => Raise(Exception(FailurePrefix + e.msg))
    }
  }

  /** `if not user_message` rejects only the empty string: a message of
      blanks passes validation and its outcome is the model's. */
  lemma BlankMessageReachesModel(svc: AIService)
    ensures ValidMessage(PyStr("   "))
    ensures svc.ProcessMessage(PyStr("   ")).Ok? <==> svc.model(BuildPrompt("   ")).Generated?
  {
  }

  /** `AIService(api_key)`: a missing (None) or empty key, or any other
      falsy value, is a configuration error. */
  function NewAIService(apiKey: Value, model: string -> Generation): (r: Result<AIService>)
    ensures r.Raise? <==> !Truthy(apiKey)
    ensures r.Raise? ==> r.exc == ValueError("GEMINI_API_KEY is required")
    ensures r.Ok? ==> r.value.model == model
  {
    if !Truthy(apiKey) then Raise(ValueError("GEMINI_API_KEY is required"))
    else Ok(AIService(model))
  }

  /** Validation failures do not depend on the model: no call is made. */
  lemma ValidationBeforeBackend(s1: AIService, s2: AIService, userMessage: Value)
    requires !ValidMessage(userMessage)
    ensures s1.ProcessMessage(userMessage) == s2.ProcessMessage(userMessage)
  {
  }

  /** Exactly 5000 characters is accepted; 5001 is rejected. */
  lemma LengthBoundary(svc: AIService, message: string)
    requires |message| == MaxMessageLength || |message| == MaxMessageLength + 1
    ensures svc.ProcessMessage(PyStr(message)).Raise? && svc.ProcessMessage(PyStr(message)).exc.ValueError?
            <==> |message| == MaxMessageLength + 1
  {
  }
}
