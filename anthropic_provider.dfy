/**
  The Anthropic provider. Each operation checks the key itself (with its
  own message), fetches through `fetchWithTimeout`, reads `content[0].text`
  with optional chaining, and cuts the reply down with the throwing
  extractor before `JSON.parse`, which is a parameter here.
*/
module AnthropicProvider {
  import opened Wrappers
  import opened JsString
  import opened JsError
  import opened Http
  import opened ExtractJson
  import opened PromptText
  import opened Prompts

  const NAME: string := "Anthropic Claude"
  const VENDOR: string := "Anthropic"
  const KEY_MISSING_ANALYZE: string := "Anthropic API key not configured. Go to Settings to add it."
  const KEY_MISSING_SCRIPT: string := "Anthropic API key not configured."

  /** Appended to both prompts. */
  const JSON_ONLY: string := "\n\nRespond with only the JSON object, no other text."

  /** What a delivered reply becomes: the extracted JSON text, parsed, or
      the extractor's error. */
  function ParseReply<T>(text: string, parse: string -> Result<T, Thrown>): (r: Result<T, Thrown>)
    ensures ExtractAnthropic(text).Success? ==> r == parse(ExtractAnthropic(text).value)
    ensures ExtractAnthropic(text).Failure? ==> r == Failure(NewError(ANTHROPIC_EXTRACT_ERROR))
  {
    match ExtractAnthropic(text)
    case Success(jsonStr) => parse(jsonStr)
    case Failure(err) => Failure(err)
  }

  /** The steps after the key check, shared by both operations: fetch, the
      status check, the text check. */
  method Exchange(request: Request, outcome: FetchOutcome) returns (r: Result<string, Thrown>)
    ensures r == Receive(VENDOR, true, outcome)
  {
    var fetched := FetchWithTimeout(outcome);
    if fetched.Failure? {
      return Failure(fetched.error);
    }
    var response := fetched.value;
    if !response.ok {
      return Failure(NewError(ApiErrorMessage(VENDOR, response.status, response.bodyText)));
    }
    var content: Option<string>;
    match response.reply {
      case Unparsable(err) =>
        return Failure(err);
      case NoList =>
        content := None;
      case Listed(text) =>
        content := text;
    }
    if !Truthy(content) {
      return Failure(NewError(NoResponseMessage(VENDOR)));
    }
    r := Success(content.value);
  }

  method AnalyzeBill<T>(apiKey: Option<string>, imageBase64: string, outcome: FetchOutcome,
                        parse: string -> Result<T, Thrown>)
    returns (r: Result<T, Thrown>, sent: Option<Request>)
    ensures sent == (if Truthy(apiKey) then Some(Request(BILL_ANALYSIS_PROMPT + JSON_ONLY, Some(imageBase64))) else None)
    ensures !Truthy(apiKey) ==> r == Failure(NewError(KEY_MISSING_ANALYZE))
    ensures Truthy(apiKey) && !Delivers(outcome) ==> r == Failure(Receive(VENDOR, true, outcome).error)
    ensures Truthy(apiKey) && Delivers(outcome) ==> r == ParseReply(DeliveredText(outcome), parse)
  {
    if !Truthy(apiKey) {
      return Failure(NewError(KEY_MISSING_ANALYZE)), None;
    }
    var request := Request(BILL_ANALYSIS_PROMPT + JSON_ONLY, Some(imageBase64));
    sent := Some(request);
    var content := Exchange(request, outcome);
    if content.Failure? {
      return Failure(content.error), sent;
    }
    r := ParseReply(content.value, parse);
  }

  method GenerateScript<T>(apiKey: Option<string>, provider: string, findingsJson: string,
                           savingsText: string, outcome: FetchOutcome,
                           parse: string -> Result<T, Thrown>)
    returns (r: Result<T, Thrown>, sent: Option<Request>)
    ensures sent == (if Truthy(apiKey) then Some(Request(ScriptPromptAsWritten(provider, findingsJson, savingsText) + JSON_ONLY, None)) else None)
    ensures !Truthy(apiKey) ==> r == Failure(NewError(KEY_MISSING_SCRIPT))
    ensures Truthy(apiKey) && !Delivers(outcome) ==> r == Failure(Receive(VENDOR, true, outcome).error)
    ensures Truthy(apiKey) && Delivers(outcome) ==> r == ParseReply(DeliveredText(outcome), parse)
  {
    if !Truthy(apiKey) {
      return Failure(NewError(KEY_MISSING_SCRIPT)), None;
    }
    var prompt := ScriptPromptAsWritten(provider, findingsJson, savingsText);
    var request := Request(prompt + JSON_ONLY, None);
    sent := Some(request);
    var content := Exchange(request, outcome);
    if content.Failure? {
      return Failure(content.error), sent;
    }
    r := ParseReply(content.value, parse);
  }

  /** A delivered reply with neither a fence nor a brace span is never
      handed to `JSON.parse`: the operation fails with the extractor's
      error. */
  lemma RawTextNeverParsed<T>(text: string, parse: string -> Result<T, Thrown>)
    requires FenceAnthropic(text).None? && BraceSpan(text).None?
    ensures ParseReply(text, parse) == Failure(NewError(ANTHROPIC_EXTRACT_ERROR))
  {
  }
}
