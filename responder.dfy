/**
 * The drafted-reply step of the email assistant (`_get_ai_response`). The HTTP
 * call to the text-generation service is not modelled: what the service did
 * is given as an `HttpOutcome`, and the model decides, as the code does,
 * between the text the service produced and the fixed fallback reply.
 */
module Responder {
  import opened Wrappers

  /** The reply used whenever anything about the generation call goes wrong. */
  const Fallback: string := "Thank you for reaching out. We have received your request and will get back to you shortly."

  /** The fixed system instruction sent with every request. */
  const Persona: string := "You are a friendly and helpful customer support representative. Generate a concise, professional response to the customer's email."

  const PromptLead: string := "Draft a response to the following email from "
  const PromptMiddle: string := " regarding '"
  const PromptEnd: string := "':"

  /** What is sent to the service: the prompt and the context as two parts, the
      system instruction, and whether search grounding is requested. */
  datatype Request = Request(prompt: string, context: string, systemInstruction: string, searchGrounding: bool)

  /** The part of the service's JSON reply the code reads:
      `candidates[0].content.parts[0].text`. A missing key is `None`. */
  datatype Part = Part(text: Option<string>)
  datatype Content = Content(parts: Option<seq<Part>>)
  datatype Candidate = Candidate(content: Option<Content>)
  datatype Reply = Reply(candidates: Option<seq<Candidate>>)

  /** What one call to the service gave back: no answer at all (connection or
      transport error), or an HTTP status with a body that did or did not
      decode as JSON. */
  datatype HttpOutcome =
    | ConnectionFailed
    | HttpResponse(status: int, json: Option<Reply>)

  /** `raise_for_status` raises for the client and server error codes 400..599. */
  predicate ErrorStatus(status: int)
  {
    400 <= status < 600
  }

  /** The prompt built for one email: it names the sender and quotes the subject. */
  function Prompt(sender: string, subject: string): (r: string)
    ensures |r| == |PromptLead| + |sender| + |PromptMiddle| + |subject| + |PromptEnd|
    ensures r[..|PromptLead|] == PromptLead
    ensures r[|PromptLead|..|PromptLead| + |sender|] == sender
    ensures r[|PromptLead| + |sender|..|PromptLead| + |sender| + |PromptMiddle|] == PromptMiddle
    ensures r[|r| - |PromptEnd| - |subject|..|r| - |PromptEnd|] == subject
    ensures r[|r| - |PromptEnd|..] == PromptEnd
  {
    PromptLead + sender + PromptMiddle + subject + PromptEnd
  }

  /** The request `_get_ai_response(prompt, context)` sends. */
  function RequestFor(prompt: string, context: string): (r: Request)
    ensures r.prompt == prompt && r.context == context
    ensures r.systemInstruction == Persona && r.searchGrounding
  {
    Request(prompt, context, Persona, true)
  }

  /** `candidates[0].content.parts[0].text`, or `None` where a key is missing or a list is empty. */
  function FirstCandidateText(reply: Reply): (r: Option<string>)
    ensures r.Some? <==>
              reply.candidates.Some? && |reply.candidates.value| > 0
              && reply.candidates.value[0].content.Some?
              && reply.candidates.value[0].content.value.parts.Some?
              && |reply.candidates.value[0].content.value.parts.value| > 0
              && reply.candidates.value[0].content.value.parts.value[0].text.Some?
    ensures r.Some? ==> r.value == reply.candidates.value[0].content.value.parts.value[0].text.value
  {
    match reply.candidates
    case None => None
    case Some(candidates) =>
      if |candidates| == 0 then None
      else
        match candidates[0].content
        case None => None
        case Some(content) =>
          match content.parts
          case None => None
          case Some(parts) => if |parts| == 0 then None else parts[0].text
  }

  /** The generated text, when the call, the status check, the JSON decoding and
      the extraction all succeed; `None` on any failure. */
  function GeneratedText(outcome: HttpOutcome): Option<string>
  {
    match outcome
    case ConnectionFailed => None
    case HttpResponse(status, json) =>
      if ErrorStatus(status) then None
      else
        match json
        case None => None
        case Some(reply) => FirstCandidateText(reply)
  }

  /** The reply `_get_ai_response` returns for what the service did: any failure
      gives exactly the fallback text, success gives the extracted text. */
  function ResponseFor(outcome: HttpOutcome): (r: string)
    ensures outcome.ConnectionFailed? ==> r == Fallback
    ensures outcome.HttpResponse? && ErrorStatus(outcome.status) ==> r == Fallback
    ensures outcome.HttpResponse? && outcome.json.None? ==> r == Fallback
    ensures outcome.HttpResponse? && outcome.json.Some? && FirstCandidateText(outcome.json.value).None? ==> r == Fallback
    ensures outcome.HttpResponse? && !ErrorStatus(outcome.status) && outcome.json.Some?
            && FirstCandidateText(outcome.json.value).Some?
            ==> r == FirstCandidateText(outcome.json.value).value
  {
    match GeneratedText(outcome)
    case None => Fallback
    case Some(text) => text
  }

  /** Whatever the service does, the reply is the fallback or the text of the
      first part of the first candidate of a reply that passed the status check. */
  lemma ResponseIsFallbackOrGenerated(outcome: HttpOutcome)
    ensures var r := ResponseFor(outcome);
            r == Fallback
            || (outcome.HttpResponse? && !ErrorStatus(outcome.status) && outcome.json.Some?
                && outcome.json.value.candidates.Some?
                && |outcome.json.value.candidates.value| > 0
                && outcome.json.value.candidates.value[0].content.Some?
                && outcome.json.value.candidates.value[0].content.value.parts.Some?
                && |outcome.json.value.candidates.value[0].content.value.parts.value| > 0
                && outcome.json.value.candidates.value[0].content.value.parts.value[0].text == Some(r))
  {
  }

  /** The reply is empty only if the service itself produced an empty text:
      the fallback is never empty. */
  lemma EmptyReplyComesFromService(outcome: HttpOutcome)
    ensures ResponseFor(outcome) == [] ==> GeneratedText(outcome) == Some([])
  {
    assert |Fallback| > 0;
  }
}
