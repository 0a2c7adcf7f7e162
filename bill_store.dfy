/**
  The current-scan store: where the scan flow stands and what it has
  produced so far. Every action overwrites some of its fields.
*/
module BillStore {
  import opened Wrappers
  import opened Models

  datatype ScanStatus = Idle | Reviewing | Analyzing | Done | Errored

  /** The store's fields as one value. */
  datatype BillState = BillState(
    status: ScanStatus,
    imageUri: Option<string>,
    currentBill: Option<Bill>,
    currentAnalysis: Option<AnalysisResult>,
    currentScript: Option<NegotiationScript>,
    error: Option<string>)

  const INITIAL_STATE: BillState := BillState(Idle, None, None, None, None, None)

  class Store {
    var status: ScanStatus
    var imageUri: Option<string>
    var currentBill: Option<Bill>
    var currentAnalysis: Option<AnalysisResult>
    var currentScript: Option<NegotiationScript>
    var error: Option<string>

    function State(): BillState
      reads this
    {
      BillState(status, imageUri, currentBill, currentAnalysis, currentScript, error)
    }

    constructor ()
      ensures State() == INITIAL_STATE
    {
      status, imageUri, currentBill, currentAnalysis, currentScript, error :=
        Idle, None, None, None, None, None;
    }

    /** A picked photo moves the flow to review. */
    method SetImageUri(uri: string)
      modifies this
      ensures State() == old(State()).(imageUri := Some(uri), status := Reviewing)
    {
      imageUri, status := Some(uri), Reviewing;
    }

    method SetStatus(s: ScanStatus)
      modifies this
      ensures State() == old(State()).(status := s)
    {
      status := s;
    }

    method SetCurrentBill(bill: Bill)
      modifies this
      ensures State() == old(State()).(currentBill := Some(bill))
    {
      currentBill := Some(bill);
    }

    /** An analysis arriving finishes the flow. */
    method SetCurrentAnalysis(analysis: AnalysisResult)
      modifies this
      ensures State() == old(State()).(currentAnalysis := Some(analysis), status := Done)
    {
      currentAnalysis, status := Some(analysis), Done;
    }

    method SetCurrentScript(script: NegotiationScript)
      modifies this
      ensures State() == old(State()).(currentScript := Some(script))
    {
      currentScript := Some(script);
    }

    /** An error ends the flow in the error state, keeping whatever it had
        produced. */
    method SetError(message: string)
      modifies this
      ensures State() == old(State()).(error := Some(message), status := Errored)
    {
      error, status := Some(message), Errored;
    }

    /** Back to the initial state from any state; doing it twice is doing
        it once. */
    method Reset()
      modifies this
      ensures State() == INITIAL_STATE
    {
      status, imageUri, currentBill, currentAnalysis, currentScript, error :=
        Idle, None, None, None, None, None;
    }
  }
}
