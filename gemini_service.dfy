/** `generateCareerAnalysis`: check the API key, send the prompt, clean and parse
    the reply, sanitize it, and turn every failure into one error message. The
    model call and `JSON.parse` are parameters; instead of throwing, the result is
    a `Result`, together with the prompts sent (so that "no call was made" can be
    stated). */
module GeminiService {
  import opened Wrappers
  import opened Strings
  import opened JsonValues
  import opened AnalysisTypes
  import opened CleanJson
  import opened Sanitizer
  import opened PromptAssembly

  /** What the model call gives back: a response whose `text` may be missing, or a
      thrown error whose `message` may be missing. */
  datatype ServiceReply = Reply(text: Option<string>) | Fault(message: Option<string>)

  /** The ways the analysis can fail. */
  datatype Failure =
    | MissingApiKey
    | EmptyResponse
    | MalformedResponse
    | ServiceError(message: Option<string>)

  const MissingKeyMessage := "API Key is missing. " + "Please check your environment configuration."
  const EmptyResponseMessage := "Empty response from AI"
  const MalformedMessage := "Failed to parse analysis results. " + "The AI response was malformed."
  const GenericMessage := "Failed to generate analysis. " + "Please try again later."

  /** The message of the error the caller finally receives. Errors raised inside the
      outer `try` are rethrown as `error.message || <generic message>`; the key check
      sits before it. */
  function Message(f: Failure): (m: string)
    ensures m != ""
    ensures f == MissingApiKey ==> m == MissingKeyMessage
    ensures f == EmptyResponse ==> m == EmptyResponseMessage
    ensures f == MalformedResponse ==> m == MalformedMessage
    ensures f.ServiceError? && f.message.Some? && f.message.value != "" ==> m == f.message.value
    ensures f.ServiceError? && (f.message.None? || f.message.value == "") ==> m == GenericMessage
  {
    match f
    case MissingApiKey => MissingKeyMessage
    case EmptyResponse => EmptyResponseMessage
    case MalformedResponse => MalformedMessage
    case ServiceError(m) => if m.Some? && m.value != "" then m.value else GenericMessage
  }

  /** `!process.env.API_KEY` is false: the key is set and not empty. */
  function HasApiKey(apiKey: Option<string>): (present: bool)
    ensures apiKey.None? ==> !present
    ensures apiKey == Some("") ==> !present
    ensures apiKey.Some? && apiKey.value != "" ==> present
  {
    apiKey.Some? && apiKey.value != ""
  }

  /** The outcome of one call, and the prompts sent to the model on the way. */
  datatype Run = Run(outcome: Result<CareerAnalysis, Failure>, requests: seq<string>)

  /** Handles one reply of the model: `if (!text)`, then clean, parse and sanitize. */
  function HandleReply(reply: ServiceReply, parse: string -> Option<Json>): (r: Result<CareerAnalysis, Failure>)
    ensures r.Success? <==> reply.Reply? && reply.text.Some? && reply.text.value != ""
                            && parse(CleanJsonString(reply.text.value)).Some?
    ensures r.Success? ==> r.value == Sanitize(parse(CleanJsonString(reply.text.value)).value) && WellFormed(r.value)
    ensures reply.Fault? ==> r == Failure(ServiceError(reply.message))
    ensures reply.Reply? && (reply.text.None? || reply.text.value == "") ==> r == Failure(EmptyResponse)
    ensures (reply.Reply? && reply.text.Some? && reply.text.value != ""
             && parse(CleanJsonString(reply.text.value)).None?) ==> r == Failure(MalformedResponse)
    ensures r != Failure(MissingApiKey)
  {
    match reply
    case Fault(m) => Failure(ServiceError(m))
    case Reply(text) =>
      if text.None? || text.value == "" then Failure(EmptyResponse)
      else
        var parsed := parse(CleanJsonString(text.value));
        if parsed.None? then Failure(MalformedResponse)
        else Success(Sanitize(parsed.value))
  }

  /** `generateCareerAnalysis(userContext)`, with the environment's key, the model
      call, `JSON.parse` and the stage question table passed in. */
  function GenerateCareerAnalysis(
    apiKey: Option<string>,
    ctx: UserContext,
    table: Stage -> seq<StageQuestion>,
    service: string -> ServiceReply,
    parse: string -> Option<Json>): (run: Run)
    ensures !HasApiKey(apiKey) ==> run == Run(Failure(MissingApiKey), [])
    ensures HasApiKey(apiKey) ==> run.requests == [BuildPrompt(ctx, table)]
    ensures HasApiKey(apiKey) ==> run.outcome == HandleReply(service(BuildPrompt(ctx, table)), parse)
    ensures run.outcome.Success? ==> WellFormed(run.outcome.value)
    ensures run.outcome == Failure(MissingApiKey) <==> !HasApiKey(apiKey)
  {
    if !HasApiKey(apiKey) then Run(Failure(MissingApiKey), [])
    else
      var prompt := BuildPrompt(ctx, table);
      Run(HandleReply(service(prompt), parse), [prompt])
  }

  /** A reply wrapped in a Markdown fence is accepted exactly when its payload parses,
      and then gives the sanitized payload. */
  lemma FencedReply(payload: string, parse: string -> Option<Json>)
    requires IsTrimmed(payload)
    ensures parse(payload).Some? ==>
      HandleReply(Reply(Some(Fence + "json" + "\n" + payload + "\n" + Fence)), parse)
        == Success(Sanitize(parse(payload).value))
    ensures parse(payload).None? ==>
      HandleReply(Reply(Some(Fence + "json" + "\n" + payload + "\n" + Fence)), parse)
        == Failure(MalformedResponse)
  {
    FencedPayload("json", "\n", payload, "\n");
    assert Fence + "json" + "\n" + payload + "\n" + Fence != "";
  }
}
