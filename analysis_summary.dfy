/**
  The summary card's display rules: the risk style chosen from the score
  and the issue-count line.
*/
module AnalysisSummary {
  import opened Wrappers
  import opened JsString
  import opened Theme
  import ResultsScreen

  /** What `getRiskColor` returns: a background class name, a text colour
      and a label (`riskLabel`: `label` is a reserved word here). */
  datatype RiskStyle = RiskStyle(bg: string, text: Color, riskLabel: string)

  /** `getRiskColor`: the card gives every score the label the results
      screen's gauge gives it, and draws the background and the text in the
      same theme colour family. */
  function GetRiskColor(score: int): (r: RiskStyle)
    ensures r.riskLabel == ResultsScreen.GaugeLabel(score)
    ensures r.text.Palette? && r.text.shade == 600 && r.bg == "bg-" + r.text.family + "-50"
  {
    if score >= 70 then RiskStyle("bg-danger-50", Palette("danger", 600), "High Risk")
    else if score >= 40 then RiskStyle("bg-warning-50", Palette("warning", 600), "Medium Risk")
    else RiskStyle("bg-success-50", Palette("success", 600), "Low Risk")
  }

  /** The whole style is fixed by the label: background and text colour
      change exactly where the label does. */
  lemma StyleFollowsLabel(s1: int, s2: int)
    ensures GetRiskColor(s1) == GetRiskColor(s2) <==> GetRiskColor(s1).riskLabel == GetRiskColor(s2).riskLabel
  {
  }

  /** `<n> issue found` for one finding, `<n> issues found` otherwise: the
      singular is used for a count of one and for no other count. */
  function IssueCountText(n: nat): (t: string)
    ensures t == NatToString(n) + " issue found" <==> n == 1
    ensures n != 1 ==> t == NatToString(n) + " issues found"
  {
    var t := NatToString(n) + " issue" + (if n != 1 then "s" else "") + " found";
    assert n != 1 ==> |t| == |NatToString(n) + " issue found"| + 1;
    t
  }

  /** The line tells the count: two counts give the same text only when they
      are equal. */
  lemma IssueCountNamesCount(n1: nat, n2: nat)
    requires IssueCountText(n1) == IssueCountText(n2)
    ensures n1 == n2
  {
    var d1, d2 := NatToString(n1), NatToString(n2);
    var r1 := " issue" + (if n1 != 1 then "s" else "") + " found";
    var r2 := " issue" + (if n2 != 1 then "s" else "") + " found";
    var t := IssueCountText(n1);
    assert t == d1 + r1;
    assert t == d2 + r2;
    NumberThenTextUnique(n1, n2, ' ', r1, r2);
  }
}
