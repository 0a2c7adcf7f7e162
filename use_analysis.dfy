/**
  The scan orchestrator: `analyze` runs a photo through the selected
  provider and files the result in every store; `generateScript` asks for a
  negotiation script for the current analysis. What the outside world
  hands back (the stored key, the prepared image, the provider's answer,
  the database runs, the new id and the clock) comes in as inputs. Each
  method also returns the trace of the effects it performed, in order.
*/
module UseAnalysis {
  import opened Wrappers
  import opened JsString
  import opened JsError
  import opened Models
  import opened AiService
  import opened BillRepository
  import opened BillStore
  import SettingsStore
  import HistoryStore
  import SavingsStore

  const ANALYSIS_FAILED: string := "Analysis failed. Please try again."
  const SCRIPT_FAILED: string := "Script generation failed"

  /** The effects, in the order the orchestrator performs them. */
  datatype Effect =
    | StatusSet(status: ScanStatus)
    | ImagePrepared(uri: string)
    | BillAnalysisRequested(provider: ProviderClass, imageBase64: string)
    | CurrentBillSet(bill: Bill)
    | CurrentAnalysisSet(analysis: AnalysisResult)
    | HistoryAdded(bill: Bill, analysis: AnalysisResult)
    | SavingsAdded(amount: int)
    | ScanCounted
    | ErrorSet(message: string)
    | ScriptRequested(provider: ProviderClass, billProvider: string, findings: seq<Finding>, totalSavings: int)
    | CurrentScriptSet(script: NegotiationScript)
    | ScriptSaved(script: NegotiationScript)

  /** The message shown for a thrown value: an `Error`'s own message, or the
      fallback for anything else. */
  function MessageOf(err: Thrown, fallback: string): (m: string)
    ensures err.Error? ==> m == err.message
    ensures err.NonError? ==> m == fallback
  {
    match err
    case Error(_, message) => message
    case NonError => fallback
  }

  function NewBill(billId: string, imageUri: string, now: string, r: BillAnalysisResponse): Bill {
    Bill(billId, imageUri, r.category, r.provider, r.totalAmount, r.billDate, now, r.lineItems)
  }

  function NewAnalysis(billId: string, now: string, r: BillAnalysisResponse): AnalysisResult {
    AnalysisResult(billId, r.summary, r.overallRiskScore, r.totalIdentifiedSavings, r.findings, now)
  }

  /** The bill and the analysis filed for one response share their id and
      their timestamp, and between them carry every field of the response. */
  lemma NewRecordsAgree(billId: string, imageUri: string, now: string, r: BillAnalysisResponse)
    ensures NewBill(billId, imageUri, now, r).id == NewAnalysis(billId, now, r).billId == billId
    ensures NewBill(billId, imageUri, now, r).createdAt == NewAnalysis(billId, now, r).createdAt == now
    ensures var b, a := NewBill(billId, imageUri, now, r), NewAnalysis(billId, now, r);
      r == BillAnalysisResponse(b.provider, b.category, b.totalAmount, b.billDate, b.lineItems,
        a.findings, a.summary, a.overallRiskScore, a.totalIdentifiedSavings)
  {
  }

  /** `analyze`. `keyFor` stands for the three key getters; `image` for
      `prepareImageForAI`; `response` for the selected provider's
      `analyzeBill`; `billRun` and `analysisRun` for the two saves. */
  method Analyze(bills: BillStore.Store, settings: SettingsStore.Store, history: HistoryStore.Store,
                 savings: SavingsStore.Store, db: Database,
                 keyFor: AIProviderType -> Option<string>, image: Result<string, Thrown>,
                 response: Result<BillAnalysisResponse, Thrown>,
                 billId: string, now: string, billRun: DbRun, analysisRun: DbRun)
    returns (trace: seq<Effect>)
    requires db.Valid()
    modifies bills, settings, history, savings, db
    ensures db.Valid()
    // Without a photo, or without a key for the selected provider, nothing happens.
    ensures !Truthy(old(bills.imageUri)) || !Truthy(keyFor(old(settings.aiProvider))) ==>
      && trace == []
      && bills.State() == old(bills.State()) && settings.Settings() == old(settings.Settings())
      && unchanged(history, savings, db)
    // Otherwise the status is set first, then the image is prepared, then the provider is asked.
    ensures Truthy(old(bills.imageUri)) && Truthy(keyFor(old(settings.aiProvider))) ==>
      var uri, cls := old(bills.imageUri).value, GetAIProvider(old(settings.aiProvider));
      && |trace| >= 3
      && trace[..2] == [StatusSet(Analyzing), ImagePrepared(uri)]
      && (image.Failure? ==>
            var message := MessageOf(image.error, ANALYSIS_FAILED);
            && trace == [StatusSet(Analyzing), ImagePrepared(uri), ErrorSet(message)]
            && bills.State() == old(bills.State()).(status := Errored, error := Some(message))
            && settings.Settings() == old(settings.Settings()) && unchanged(history, savings, db))
      && (image.Success? ==> trace[2] == BillAnalysisRequested(cls, image.value))
      && (image.Success? && response.Failure? ==>
            var message := MessageOf(response.error, ANALYSIS_FAILED);
            && trace == [StatusSet(Analyzing), ImagePrepared(uri), BillAnalysisRequested(cls, image.value),
                         ErrorSet(message)]
            && bills.State() == old(bills.State()).(status := Errored, error := Some(message))
            && settings.Settings() == old(settings.Settings()) && unchanged(history, savings, db))
    // With an answer, the bill and analysis are shown, then filed; on success the counters move.
    ensures Truthy(old(bills.imageUri)) && Truthy(keyFor(old(settings.aiProvider))) && image.Success? && response.Success? ==>
      var uri, cls := old(bills.imageUri).value, GetAIProvider(old(settings.aiProvider));
      var bill, analysis := NewBill(billId, uri, now, response.value), NewAnalysis(billId, now, response.value);
      var filed := Settle(billRun, 1).Pass? && Settle(analysisRun, 1).Pass?;
      var head := [StatusSet(Analyzing), ImagePrepared(uri), BillAnalysisRequested(cls, image.value),
                   CurrentBillSet(bill), CurrentAnalysisSet(analysis)];
      && db.bills == (if Settle(billRun, 1).Pass? then old(db.bills)[billId := BillToRow(db.codecs.lineItems, bill)] else old(db.bills))
      && db.analyses == (if filed then old(db.analyses)[billId := AnalysisToRow(db.codecs.findings, analysis)] else old(db.analyses))
      && db.scripts == old(db.scripts)
      && (filed ==>
            && trace == head + [HistoryAdded(bill, analysis), SavingsAdded(analysis.totalIdentifiedSavings), ScanCounted]
            && bills.State() == old(bills.State()).(status := Done, currentBill := Some(bill), currentAnalysis := Some(analysis))
            && history.bills == [bill] + old(history.bills)
            && savings.totalSavings == old(savings.totalSavings) + response.value.totalIdentifiedSavings
            && savings.billCount == old(savings.billCount) + 1
            && settings.Settings() == old(settings.Settings()).(scansUsed := old(settings.scansUsed) + 1))
      && (!filed ==>
            var err := if Settle(billRun, 1).Fail? then Settle(billRun, 1).error else Settle(analysisRun, 1).error;
            var message := MessageOf(err, ANALYSIS_FAILED);
            && trace == head + [ErrorSet(message)]
            && bills.State() == old(bills.State()).(status := Errored, error := Some(message),
                                                    currentBill := Some(bill), currentAnalysis := Some(analysis))
            && history.bills == old(history.bills)
            && unchanged(savings) && settings.Settings() == old(settings.Settings()))
    ensures history.loading == old(history.loading) && savings.loading == old(savings.loading)
  {
    var imageUri := bills.imageUri;
    var kind := settings.aiProvider;
    trace := [];
    if !Truthy(imageUri) {
      return;
    }
    var key := keyFor(kind);
    if !Truthy(key) {
      return;
    }
    bills.SetStatus(Analyzing);
    trace := trace + [StatusSet(Analyzing)];

    var provider := GetAIProvider(kind);
    trace := trace + [ImagePrepared(imageUri.value)];
    if image.Failure? {
      var message := MessageOf(image.error, ANALYSIS_FAILED);
      bills.SetError(message);
      trace := trace + [ErrorSet(message)];
      return;
    }
    trace := trace + [BillAnalysisRequested(provider, image.value)];
    if response.Failure? {
      var message := MessageOf(response.error, ANALYSIS_FAILED);
      bills.SetError(message);
      trace := trace + [ErrorSet(message)];
      return;
    }

    var bill := NewBill(billId, imageUri.value, now, response.value);
    var analysis := NewAnalysis(billId, now, response.value);
    bills.SetCurrentBill(bill);
    trace := trace + [CurrentBillSet(bill)];
    bills.SetCurrentAnalysis(analysis);
    trace := trace + [CurrentAnalysisSet(analysis)];

    var added := history.AddBill(db, bill, analysis, billRun, analysisRun);
    if added.Fail? {
      var message := MessageOf(added.error, ANALYSIS_FAILED);
      bills.SetError(message);
      trace := trace + [ErrorSet(message)];
      return;
    }
    trace := trace + [HistoryAdded(bill, analysis)];
    savings.AddSavings(analysis.totalIdentifiedSavings);
    trace := trace + [SavingsAdded(analysis.totalIdentifiedSavings)];
    settings.IncrementScansUsed();
    trace := trace + [ScanCounted];
  }

  /** `generateScript`. `response` stands for the selected provider's
      `generateScript`; `run` for the save. */
  method GenerateScript(bills: BillStore.Store, settings: SettingsStore.Store, db: Database,
                        response: Result<ScriptGenerationResponse, Thrown>, now: string, run: DbRun)
    returns (trace: seq<Effect>)
    requires db.Valid()
    modifies bills, db
    ensures db.Valid()
    ensures old(bills.currentBill).None? || old(bills.currentAnalysis).None? ==>
      trace == [] && bills.State() == old(bills.State()) && unchanged(db)
    ensures old(bills.currentBill).Some? && old(bills.currentAnalysis).Some? ==>
      var bill, analysis := old(bills.currentBill).value, old(bills.currentAnalysis).value;
      var ask := ScriptRequested(GetAIProvider(settings.aiProvider), bill.provider, analysis.findings,
                                 analysis.totalIdentifiedSavings);
      && (response.Failure? ==>
            var message := MessageOf(response.error, SCRIPT_FAILED);
            && trace == [ask, ErrorSet(message)]
            && bills.State() == old(bills.State()).(status := Errored, error := Some(message))
            && unchanged(db))
      && (response.Success? ==>
            var script := NegotiationScript(bill.id, PhoneScript, response.value.sections, response.value.keyPoints, now);
            && db.bills == old(db.bills) && db.analyses == old(db.analyses)
            && db.scripts == (if Settle(run, 1).Pass? then old(db.scripts)[bill.id := ScriptToRow(db.codecs, script)] else old(db.scripts))
            && (Settle(run, 1).Pass? ==>
                  && trace == [ask, CurrentScriptSet(script), ScriptSaved(script)]
                  && bills.State() == old(bills.State()).(currentScript := Some(script)))
            && (Settle(run, 1).Fail? ==>
                  var message := MessageOf(Settle(run, 1).error, SCRIPT_FAILED);
                  && trace == [ask, CurrentScriptSet(script), ErrorSet(message)]
                  && bills.State() == old(bills.State()).(currentScript := Some(script), status := Errored,
                                                          error := Some(message))))
  {
    var currentBill, currentAnalysis := bills.currentBill, bills.currentAnalysis;
    trace := [];
    if currentBill.None? || currentAnalysis.None? {
      return;
    }
    var bill, analysis := currentBill.value, currentAnalysis.value;
    var provider := GetAIProvider(settings.aiProvider);
    trace := trace + [ScriptRequested(provider, bill.provider, analysis.findings, analysis.totalIdentifiedSavings)];
    if response.Failure? {
      var message := MessageOf(response.error, SCRIPT_FAILED);
      bills.SetError(message);
      trace := trace + [ErrorSet(message)];
      return;
    }
    var script := NegotiationScript(bill.id, PhoneScript, response.value.sections, response.value.keyPoints, now);
    bills.SetCurrentScript(script);
    trace := trace + [CurrentScriptSet(script)];
    var saved := db.SaveScript(script, run);
    if saved.Fail? {
      var message := MessageOf(saved.error, SCRIPT_FAILED);
      bills.SetError(message);
      trace := trace + [ErrorSet(message)];
      return;
    }
    trace := trace + [ScriptSaved(script)];
  }
}
