/**
  The part of a chat-completion call that all three providers share: what
  the network can hand back, the timeout mapping done around `fetch`, and
  the decision that turns a response into the reply text or an error.
  The network itself is not modelled; a call's outcome is an input.
*/
module Http {
  import opened Wrappers
  import opened JsString
  import opened JsError

  /** What `response.json()` yields, read along the path to the reply text
      (`choices[0].message.content` or `content[0].text`). */
  datatype Reply =
    | Unparsable(err: Thrown)        // the body is not JSON: `json()` rejects
    | NoList                         // the top-level `choices`/`content` array is absent
    | Listed(text: Option<string>)   // the array exists; the first entry's text, if any

  datatype HttpResponse = HttpResponse(ok: bool, status: nat, bodyText: string, reply: Reply)

  /** How a `fetch` ends: it rejects with a thrown value, or it resolves. */
  datatype FetchOutcome = Threw(err: Thrown) | Responded(response: HttpResponse)

  /** What a provider puts on the wire, reduced to the prompt and the image. */
  datatype Request = Request(prompt: string, image: Option<string>)

  const TIMEOUT_MESSAGE: string := "Request timed out. Please try again."

  /** The error `data.choices[0]` raises when `choices` is absent. The text
      is the JavaScript engine's; only its kind matters here. */
  const MISSING_LIST_ERROR: Thrown :=
    Error("TypeError", "Cannot read properties of undefined (reading '0')")

  /** `fetch` wrapped in an abort timer: an abort becomes the timeout error,
      any other rejection passes through unchanged, and a response is
      returned as it is. */
  method FetchWithTimeout(outcome: FetchOutcome) returns (r: Result<HttpResponse, Thrown>)
    ensures outcome.Responded? ==> r == Success(outcome.response)
    ensures outcome.Threw? && IsAbort(outcome.err) ==> r == Failure(NewError(TIMEOUT_MESSAGE))
    ensures outcome.Threw? && !IsAbort(outcome.err) ==> r == Failure(outcome.err)
  {
    match outcome {
      case Responded(response) =>
        r := Success(response);
      case Threw(err) =>
        if IsAbort(err) {
          r := Failure(NewError(TIMEOUT_MESSAGE));
        } else {
          r := Failure(err);
        }
    }
  }

  /** `<vendor> API error (<status>): <body>`. */
  function ApiErrorMessage(vendor: string, status: nat, body: string): string {
    vendor + " API error (" + NatToString(status) + "): " + body
  }

  function NoResponseMessage(vendor: string): string {
    "No response from " + vendor
  }

  /** The reply text a provider goes on with: the response resolved, its
      status is OK and the text at the end of the path is a non-empty
      string. */
  predicate Delivers(outcome: FetchOutcome) {
    && outcome.Responded?
    && outcome.response.ok
    && outcome.response.reply.Listed?
    && Truthy(outcome.response.reply.text)
  }

  function DeliveredText(outcome: FetchOutcome): string
    requires Delivers(outcome)
  {
    outcome.response.reply.text.value
  }

  /** The decision every provider takes after its key check. `guarded`
      tells whether the path to the text starts with `?.` (so a missing
      array reads as no text) or indexes the array directly (so a missing
      array is a TypeError). */
  function Receive(vendor: string, guarded: bool, outcome: FetchOutcome): (r: Result<string, Thrown>)
    ensures r.Success? <==> Delivers(outcome)
    ensures r.Success? ==> r.value == DeliveredText(outcome) && r.value != ""
    ensures outcome.Threw? && IsAbort(outcome.err) ==> r == Failure(NewError(TIMEOUT_MESSAGE))
    ensures outcome.Threw? && !IsAbort(outcome.err) ==> r == Failure(outcome.err)
    ensures outcome.Responded? && !outcome.response.ok ==>
      r == Failure(NewError(ApiErrorMessage(vendor, outcome.response.status, outcome.response.bodyText)))
    ensures outcome.Responded? && outcome.response.ok && outcome.response.reply.Unparsable? ==>
      r == Failure(outcome.response.reply.err)
    ensures outcome.Responded? && outcome.response.ok && outcome.response.reply.NoList? ==>
      r == Failure(if guarded then NewError(NoResponseMessage(vendor)) else MISSING_LIST_ERROR)
    ensures outcome.Responded? && outcome.response.ok && outcome.response.reply.Listed?
              && !Truthy(outcome.response.reply.text) ==>
      r == Failure(NewError(NoResponseMessage(vendor)))
  {
    match outcome
    case Threw(err) => Failure(if IsAbort(err) then NewError(TIMEOUT_MESSAGE) else err)
    case Responded(response) =>
      if !response.ok then
        Failure(NewError(ApiErrorMessage(vendor, response.status, response.bodyText)))
      else
        match response.reply
        case Unparsable(err) => Failure(err)
        case NoList => Failure(if guarded then NewError(NoResponseMessage(vendor)) else MISSING_LIST_ERROR)
        case Listed(text) =>
          if Truthy(text) then Success(text.value) else Failure(NewError(NoResponseMessage(vendor)))
  }

  /** An API error message determines its status and its body: two calls
      that fail this way with the same message failed with the same status
      and the same response text. */
  lemma ApiErrorMessageInjective(vendor: string, s1: nat, b1: string, s2: nat, b2: string)
    requires ApiErrorMessage(vendor, s1, b1) == ApiErrorMessage(vendor, s2, b2)
    ensures s1 == s2 && b1 == b2
  {
    var head := vendor + " API error (";
    var d1, d2 := NatToString(s1), NatToString(s2);
    var m := ApiErrorMessage(vendor, s1, b1);
    assert m == head + (d1 + ("): " + b1));
    assert m == head + (d2 + ("): " + b2));
    var t := m[|head|..];
    assert t == d1 + ("): " + b1);
    assert t == d2 + ("): " + b2);
    NumberThenTextUnique(s1, s2, ')', "): " + b1, "): " + b2);
    assert b1 == ("): " + b1)[3..];
    assert b2 == ("): " + b2)[3..];
  }
}
