/**
  The OpenAI provider. It asks for a JSON-object response and parses the
  reply text as it comes, with no extraction step. Its path to the text,
  `data.choices[0]?.message?.content`, indexes `choices` directly, so a
  body without that array fails with a TypeError rather than with
  "No response from OpenAI".
*/
module OpenAIProvider {
  import opened Wrappers
  import opened JsString
  import opened JsError
  import opened Http
  import opened PromptText
  import opened Prompts

  const NAME: string := "OpenAI GPT-4o"
  const VENDOR: string := "OpenAI"
  const KEY_MISSING_ANALYZE: string := "OpenAI API key not configured. Go to Settings to add it."
  const KEY_MISSING_SCRIPT: string := "OpenAI API key not configured."

  /** The steps after the key check, shared by both operations. */
  method Exchange(request: Request, outcome: FetchOutcome) returns (r: Result<string, Thrown>)
    ensures r == Receive(VENDOR, false, outcome)
  {
    var fetched := FetchWithTimeout(outcome);
    if fetched.Failure? {
      return Failure(fetched.error);
    }
    var response := fetched.value;
    if !response.ok {
      return Failure(NewError(ApiErrorMessage(VENDOR, response.status, response.bodyText)));
    }
    var content: Option<string>;
    match response.reply {
      case Unparsable(err) =>
        return Failure(err);
      case NoList =>
        return Failure(MISSING_LIST_ERROR);
      case Listed(text) =>
        content := text;
    }
    if !Truthy(content) {
      return Failure(NewError(NoResponseMessage(VENDOR)));
    }
    r := Success(content.value);
  }

  method AnalyzeBill<T>(apiKey: Option<string>, imageBase64: string, outcome: FetchOutcome,
                        parse: string -> Result<T, Thrown>)
    returns (r: Result<T, Thrown>, sent: Option<Request>)
    ensures sent == (if Truthy(apiKey) then Some(Request(BILL_ANALYSIS_PROMPT, Some(imageBase64))) else None)
    ensures !Truthy(apiKey) ==> r == Failure(NewError(KEY_MISSING_ANALYZE))
    ensures Truthy(apiKey) && !Delivers(outcome) ==> r == Failure(Receive(VENDOR, false, outcome).error)
    ensures Truthy(apiKey) && Delivers(outcome) ==> r == parse(DeliveredText(outcome))
  {
    if !Truthy(apiKey) {
      return Failure(NewError(KEY_MISSING_ANALYZE)), None;
    }
    var request := Request(BILL_ANALYSIS_PROMPT, Some(imageBase64));
    sent := Some(request);
    var content := Exchange(request, outcome);
    if content.Failure? {
      return Failure(content.error), sent;
    }
    r := parse(content.value);
  }

  method GenerateScript<T>(apiKey: Option<string>, provider: string, findingsJson: string,
                           savingsText: string, outcome: FetchOutcome,
                           parse: string -> Result<T, Thrown>)
    returns (r: Result<T, Thrown>, sent: Option<Request>)
    ensures sent == (if Truthy(apiKey) then Some(Request(ScriptPromptAsWritten(provider, findingsJson, savingsText), None)) else None)
    ensures !Truthy(apiKey) ==> r == Failure(NewError(KEY_MISSING_SCRIPT))
    ensures Truthy(apiKey) && !Delivers(outcome) ==> r == Failure(Receive(VENDOR, false, outcome).error)
    ensures Truthy(apiKey) && Delivers(outcome) ==> r == parse(DeliveredText(outcome))
  {
    if !Truthy(apiKey) {
      return Failure(NewError(KEY_MISSING_SCRIPT)), None;
    }
    var prompt := ScriptPromptAsWritten(provider, findingsJson, savingsText);
    var request := Request(prompt, None);
    sent := Some(request);
    var content := Exchange(request, outcome);
    if content.Failure? {
      return Failure(content.error), sent;
    }
    r := parse(content.value);
  }
}
