/**
  The settings screen's key checks. Each sends one small authenticated
  request and classifies how it went; none of them throws.
*/
module KeyValidator {
  import opened Wrappers
  import opened JsString
  import opened JsError
  import opened Http

  datatype KeyTestResult = KeyTestResult(ok: bool, message: string)

  const VALID: string := "Key is valid"
  const INVALID_KEY: string := "Invalid key"
  const TIMED_OUT: string := "Timed out"
  const CONNECTION_FAILED: string := "Connection failed"

  function StatusMessage(status: nat): string {
    "Error " + NatToString(status)
  }

  /** The classification shared by the three checks. `invalidOn401` is set
      for the Anthropic check, which names a 401 an invalid key. */
  function Classify(outcome: FetchOutcome, invalidOn401: bool): (r: KeyTestResult)
    ensures r.ok <==> outcome.Responded? && outcome.response.ok
    ensures r.ok ==> r.message == VALID
    ensures outcome.Responded? && !outcome.response.ok ==>
      r.message == (if invalidOn401 && outcome.response.status == 401 then INVALID_KEY
                    else StatusMessage(outcome.response.status))
    ensures outcome.Threw? && IsAbort(outcome.err) ==> r.message == TIMED_OUT
    ensures outcome.Threw? && !IsAbort(outcome.err) ==> r.message == CONNECTION_FAILED
  {
    match outcome
    case Threw(err) =>
      if IsAbort(err) then KeyTestResult(false, TIMED_OUT) else KeyTestResult(false, CONNECTION_FAILED)
    case Responded(response) =>
      if response.ok then KeyTestResult(true, VALID)
      else if invalidOn401 && response.status == 401 then KeyTestResult(false, INVALID_KEY)
      else KeyTestResult(false, StatusMessage(response.status))
  }

  /** `testOpenRouterKey`: every refused request, a 401 included, is reported
      by its status, and the check classifies every outcome as the OpenAI
      check does. */
  function TestOpenRouterKey(outcome: FetchOutcome): (r: KeyTestResult)
    ensures outcome.Responded? && !outcome.response.ok ==>
      r == KeyTestResult(false, StatusMessage(outcome.response.status))
    ensures r == TestOpenAIKey(outcome)
  {
    Classify(outcome, false)
  }

  /** `testOpenAIKey`: valid exactly for an OK response; a refused request
      is reported by its status. */
  function TestOpenAIKey(outcome: FetchOutcome): (r: KeyTestResult)
    ensures r.ok <==> outcome.Responded? && outcome.response.ok
    ensures outcome.Responded? && !outcome.response.ok ==>
      r == KeyTestResult(false, StatusMessage(outcome.response.status))
  {
    Classify(outcome, false)
  }

  /** `testAnthropicKey`: a refused 401 reads "Invalid key", and that is the
      only outcome it reports differently from the other two checks. */
  function TestAnthropicKey(outcome: FetchOutcome): (r: KeyTestResult)
    ensures outcome.Responded? && !outcome.response.ok && outcome.response.status == 401 ==>
      r == KeyTestResult(false, INVALID_KEY)
    ensures r != TestOpenRouterKey(outcome) <==>
      outcome.Responded? && !outcome.response.ok && outcome.response.status == 401
  {
    StatusMessageNamesStatus(401, 401);
    Classify(outcome, true)
  }

  /** A status message names its status: different statuses give
      different messages, and none of them reads like one of the fixed
      messages. */
  lemma StatusMessageNamesStatus(s1: nat, s2: nat)
    ensures StatusMessage(s1) == StatusMessage(s2) ==> s1 == s2
    ensures StatusMessage(s1) !in {VALID, INVALID_KEY, TIMED_OUT, CONNECTION_FAILED}
  {
    NatToStringDecimal(s1);
    NatToStringDecimal(s2);
    var m1, m2 := StatusMessage(s1), StatusMessage(s2);
    assert m1[6..] == NatToString(s1);
    assert m2[6..] == NatToString(s2);
    assert m1[0] == 'E' && m1[1] == 'r' && m1[6] == NatToString(s1)[0];
    assert IsDigit(m1[6]);
  }

  /** A message tells which way the check went: the same message from two
      outcomes means both succeeded, both timed out, both failed to
      connect, or both were refused with the same status (or, for the
      Anthropic check, both were 401s). */
  lemma MessageTellsOutcome(o1: FetchOutcome, o2: FetchOutcome, invalidOn401: bool)
    requires Classify(o1, invalidOn401).message == Classify(o2, invalidOn401).message
    ensures Classify(o1, invalidOn401) == Classify(o2, invalidOn401)
    ensures o1.Threw? <==> o2.Threw?
    ensures o1.Threw? ==> (IsAbort(o1.err) <==> IsAbort(o2.err))
    ensures o1.Responded? ==> o1.response.ok == o2.response.ok
    ensures o1.Responded? && !o1.response.ok ==> o1.response.status == o2.response.status
  {
    var st1 := if o1.Responded? then o1.response.status else 0;
    var st2 := if o2.Responded? then o2.response.status else 0;
    StatusMessageNamesStatus(st1, st2);
    StatusMessageNamesStatus(st2, st1);
    if invalidOn401 {
      StatusMessageNamesStatus(st1, 401);
      StatusMessageNamesStatus(st2, 401);
    }
  }
}
