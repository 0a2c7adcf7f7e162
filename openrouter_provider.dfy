/**
  The OpenRouter provider: one private `callAPI` that checks the key,
  fetches and extracts the reply text, and the two operations built on it.
  The reply is cut down to JSON with the pass-through extractor and handed
  to `JSON.parse`, which is a parameter here.
*/
module OpenRouterProvider {
  import opened Wrappers
  import opened JsString
  import opened JsError
  import opened Http
  import opened ExtractJson
  import opened PromptText
  import opened Prompts

  const NAME: string := "OpenRouter"
  const VENDOR: string := "OpenRouter"
  const KEY_MISSING: string := "OpenRouter API key not configured. Go to Settings to add it."

  /** The key check comes first: without a key nothing is sent. With one the
      request goes out and the outcome is decided by `Receive`, with the
      optional-chaining path to the text. */
  method CallAPI(apiKey: Option<string>, request: Request, outcome: FetchOutcome)
    returns (r: Result<string, Thrown>, sent: Option<Request>)
    ensures sent == (if Truthy(apiKey) then Some(request) else None)
    ensures !Truthy(apiKey) ==> r == Failure(NewError(KEY_MISSING))
    ensures Truthy(apiKey) ==> r == Receive(VENDOR, true, outcome)
  {
    if !Truthy(apiKey) {
      return Failure(NewError(KEY_MISSING)), None;
    }
    sent := Some(request);
    var fetched := FetchWithTimeout(outcome);
    if fetched.Failure? {
      return Failure(fetched.error), sent;
    }
    var response := fetched.value;
    if !response.ok {
      return Failure(NewError(ApiErrorMessage(VENDOR, response.status, response.bodyText))), sent;
    }
    var content: Option<string>;
    match response.reply {
      case Unparsable(err) =>
        return Failure(err), sent;
      case NoList =>
        content := None;
      case Listed(text) =>
        content := text;
    }
    if !Truthy(content) {
      return Failure(NewError(NoResponseMessage(VENDOR))), sent;
    }
    r := Success(content.value);
  }

  /** Sends the bill-analysis prompt with the image; a delivered reply is
      extracted and parsed, any other outcome fails as `callAPI` does. */
  method AnalyzeBill<T>(apiKey: Option<string>, imageBase64: string, outcome: FetchOutcome,
                        parse: string -> Result<T, Thrown>)
    returns (r: Result<T, Thrown>, sent: Option<Request>)
    ensures sent == (if Truthy(apiKey) then Some(Request(BILL_ANALYSIS_PROMPT, Some(imageBase64))) else None)
    ensures !Truthy(apiKey) ==> r == Failure(NewError(KEY_MISSING))
    ensures Truthy(apiKey) && !Delivers(outcome) ==> r == Failure(Receive(VENDOR, true, outcome).error)
    ensures Truthy(apiKey) && Delivers(outcome) ==> r == parse(ExtractOpenRouter(DeliveredText(outcome)))
  {
    var content;
    content, sent := CallAPI(apiKey, Request(BILL_ANALYSIS_PROMPT, Some(imageBase64)), outcome);
    if content.Failure? {
      return Failure(content.error), sent;
    }
    var jsonStr := ExtractOpenRouter(content.value);
    r := parse(jsonStr);
  }

  /** Fills the negotiation template and sends it as text only; the reply
      is treated as in `AnalyzeBill`. `findingsJson` stands for
      `JSON.stringify(findings, null, 2)` and `savingsText` for the
      formatted dollar amount. */
  method GenerateScript<T>(apiKey: Option<string>, provider: string, findingsJson: string,
                           savingsText: string, outcome: FetchOutcome,
                           parse: string -> Result<T, Thrown>)
    returns (r: Result<T, Thrown>, sent: Option<Request>)
    ensures sent == (if Truthy(apiKey) then Some(Request(ScriptPromptAsWritten(provider, findingsJson, savingsText), None)) else None)
    ensures !Truthy(apiKey) ==> r == Failure(NewError(KEY_MISSING))
    ensures Truthy(apiKey) && !Delivers(outcome) ==> r == Failure(Receive(VENDOR, true, outcome).error)
    ensures Truthy(apiKey) && Delivers(outcome) ==> r == parse(ExtractOpenRouter(DeliveredText(outcome)))
  {
    var prompt := ScriptPromptAsWritten(provider, findingsJson, savingsText);
    var content;
    content, sent := CallAPI(apiKey, Request(prompt, None), outcome);
    if content.Failure? {
      return Failure(content.error), sent;
    }
    var jsonStr := ExtractOpenRouter(content.value);
    r := parse(jsonStr);
  }
}
