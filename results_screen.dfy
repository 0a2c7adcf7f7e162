/**
  The display rules of the results screen: the risk gauge's label and
  colour, the colour of a finding's severity badge, the flagged-only view
  of the line items and the choice between the failure screen, the
  missing-data screen and the results themselves.
*/
module ResultsScreen {
  import opened Wrappers
  import opened JsString
  import opened Models
  import opened JsArray
  import opened Theme
  import opened BillStore

  const HIGH_RISK: string := "High Risk"
  const MEDIUM_RISK: string := "Medium Risk"
  const LOW_RISK: string := "Low Risk"

  /** `RiskGauge`'s label: each label names exactly its band of scores. */
  function GaugeLabel(score: int): (l: string)
    ensures l == HIGH_RISK <==> score >= 70
    ensures l == MEDIUM_RISK <==> 40 <= score < 70
    ensures l == LOW_RISK <==> score < 40
  {
    assert HIGH_RISK[0] != MEDIUM_RISK[0] && HIGH_RISK[0] != LOW_RISK[0] && MEDIUM_RISK[0] != LOW_RISK[0];
    if score >= 70 then HIGH_RISK else if score >= 40 then MEDIUM_RISK else LOW_RISK
  }

  /** `RiskGauge`'s arc and number colour: the theme's danger shade for a
      high risk, its success shade for a low one, and the amber hex between. */
  function GaugeColor(score: int): (c: Color)
    ensures c == Palette("danger", 500) <==> GaugeLabel(score) == HIGH_RISK
    ensures c == Palette("success", 500) <==> GaugeLabel(score) == LOW_RISK
    ensures c.Hex? <==> GaugeLabel(score) == MEDIUM_RISK
  {
    if score >= 70 then Palette("danger", 500) else if score >= 40 then Hex("#f59e0b") else Palette("success", 500)
  }

  /** The colour uses the same two thresholds as the label: two scores get
      the same colour exactly when they get the same label. */
  lemma GaugeColorFollowsLabel(s1: int, s2: int)
    ensures GaugeColor(s1) == GaugeColor(s2) <==> GaugeLabel(s1) == GaugeLabel(s2)
  {
  }

  /** A higher score never shows a lower risk. */
  lemma GaugeMonotone(s1: int, s2: int)
    requires s1 <= s2
    ensures GaugeLabel(s1) == HIGH_RISK ==> GaugeLabel(s2) == HIGH_RISK
    ensures GaugeLabel(s2) == LOW_RISK ==> GaugeLabel(s1) == LOW_RISK
  {
  }

  /** One entry of `severityColors`. */
  datatype SeverityStyle = SeverityStyle(bg: string, text: string, border: Color)

  const LOW_STYLE: SeverityStyle := SeverityStyle("#f3f4f6", "#4b5563", Palette("gray", 300))

  const SEVERITY_COLORS: map<string, SeverityStyle> := map[
    "low" := LOW_STYLE,
    "medium" := SeverityStyle("#fef3c7", "#92400e", Hex("#f59e0b")),
    "high" := SeverityStyle("#fee2e2", "#991b1b", Hex("#ef4444")),
    "critical" := SeverityStyle("#ef4444", "#ffffff", Hex("#dc2626"))]

  /** The text a finding's severity field holds. */
  function SeverityName(s: FindingSeverity): string {
    match s
    case Low => "low"
    case Medium => "medium"
    case High => "high"
    case Critical => "critical"
    case Unrecognized(raw) => raw
  }

  predicate Known(s: FindingSeverity) {
    !s.Unrecognized?
  }

  /** The badge style of a finding: the entry for its severity, or the `low`
      entry when the table has none. */
  function SeverityStyleOf(s: FindingSeverity): (r: SeverityStyle)
    ensures SeverityName(s) in SEVERITY_COLORS ==> r == SEVERITY_COLORS[SeverityName(s)]
    ensures SeverityName(s) !in SEVERITY_COLORS ==> r == LOW_STYLE
  {
    var name := SeverityName(s);
    if name in SEVERITY_COLORS then SEVERITY_COLORS[name] else SEVERITY_COLORS["low"]
  }

  /** Any severity text outside the four is drawn like `low`. */
  lemma UnknownSeverityLooksLow(raw: string)
    requires raw != "low" && raw != "medium" && raw != "high" && raw != "critical"
    ensures SeverityStyleOf(Unrecognized(raw)) == SeverityStyleOf(Low)
  {
  }

  /** The four severities the type names are told apart by their badges. */
  lemma KnownSeveritiesDistinct(a: FindingSeverity, b: FindingSeverity)
    requires Known(a) && Known(b) && a != b
    ensures SeverityStyleOf(a) != SeverityStyleOf(b)
  {
    assert SEVERITY_COLORS["low"].bg != SEVERITY_COLORS["medium"].bg;
    assert SEVERITY_COLORS["medium"].bg != SEVERITY_COLORS["high"].bg;
    assert SEVERITY_COLORS["high"].text != SEVERITY_COLORS["critical"].text;
  }

  function IsFlagged(item: LineItem): bool {
    item.flagged
  }

  /** `displayItems`: the flagged items when the toggle is on, otherwise all. */
  function DisplayItems(items: seq<LineItem>, flaggedOnly: bool): (r: seq<LineItem>)
    ensures !flaggedOnly ==> r == items
    ensures flaggedOnly ==> forall i :: 0 <= i < |r| ==> r[i].flagged && r[i] in items
    ensures flaggedOnly ==> forall i :: 0 <= i < |items| && items[i].flagged ==> items[i] in r
  {
    if flaggedOnly then Filter(items, IsFlagged) else items
  }

  /** The flagged-only view keeps the items' order: the view of two runs of
      items is the view of the first followed by the view of the second. */
  lemma DisplayItemsKeepOrder(front: seq<LineItem>, back: seq<LineItem>, flaggedOnly: bool)
    ensures DisplayItems(front + back, flaggedOnly) == DisplayItems(front, flaggedOnly) + DisplayItems(back, flaggedOnly)
  {
    if flaggedOnly {
      FilterConcat(front, back, IsFlagged);
    }
  }

  /** Turning the toggle on shows everything when every item is flagged. */
  lemma AllFlaggedShowsAll(items: seq<LineItem>)
    requires forall i :: 0 <= i < |items| ==> items[i].flagged
    ensures DisplayItems(items, true) == items
  {
    FilterAllOrNone(items, IsFlagged);
  }

  /** The toggle appears when some line item is flagged, that is exactly
      when the flagged-only view would not be empty. */
  predicate ShowsToggle(items: seq<LineItem>): (b: bool)
    ensures b <==> DisplayItems(items, true) != []
  {
    SomeIffFilterNonEmpty(items, IsFlagged);
    JsArray.Some(items, IsFlagged)
  }

  /** What the results screen draws. */
  datatype Screen =
    | FailedScreen(message: Option<string>)
    | NoDataScreen
    | ResultsView(bill: Bill, analysis: AnalysisResult)

  /** The screen's branches, in order: the failure screen when the status is
      `error` or an error text is set, then the missing-data screen, then the
      results. */
  function Branch(st: BillState): (s: Screen)
    ensures s.FailedScreen? <==> st.status == Errored || Truthy(st.error)
    ensures s.FailedScreen? ==> s.message == st.error
    ensures s.NoDataScreen? <==> !s.FailedScreen? && (st.currentBill.None? || st.currentAnalysis.None?)
    ensures s.ResultsView? ==> Some(s.bill) == st.currentBill && Some(s.analysis) == st.currentAnalysis
  {
    if st.status == Errored || Truthy(st.error) then FailedScreen(st.error)
    else if st.currentBill.None? || st.currentAnalysis.None? then NoDataScreen
    else ResultsView(st.currentBill.value, st.currentAnalysis.value)
  }

  /** After `setError`, the screen shows that message, whatever data the
      store still holds. */
  lemma ErrorShowsFailure(st: BillState, message: string)
    ensures Branch(st.(error := Some(message), status := Errored)) == FailedScreen(Some(message))
  {
  }

  /** After an analysis is filed (`setCurrentBill` then
      `setCurrentAnalysis`), the results are shown unless an earlier error
      text is still set: neither action clears it. */
  lemma FiledAnalysisShown(st: BillState, bill: Bill, analysis: AnalysisResult)
    ensures var after := st.(currentBill := Some(bill), currentAnalysis := Some(analysis), status := Done);
      Branch(after) == if Truthy(st.error) then FailedScreen(st.error) else ResultsView(bill, analysis)
  {
  }
}
