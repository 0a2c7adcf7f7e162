/**
  The free-scan quota. The limit is read from the default settings, not
  from the settings the user holds.
*/
module UsageTracker {
  import opened Wrappers
  import opened Models

  function FreeLimit(): int { DEFAULT_SETTINGS.maxFreeScans }

  function CanScan(scansUsed: int, isPro: bool): (r: bool)
    ensures isPro ==> r
    ensures !isPro ==> (r <==> scansUsed < 3)
  {
    if isPro then true else scansUsed < FreeLimit()
  }

  /** `None` stands for the unlimited `null` of a Pro account. */
  function GetRemainingScans(scansUsed: int, isPro: bool): (r: Option<int>)
    ensures r.None? <==> isPro
    ensures !isPro ==> r.value >= 0 && r.value >= 3 - scansUsed
    ensures !isPro ==> (r.value == 0 || r.value == 3 - scansUsed)
  {
    if isPro then None
    else if FreeLimit() - scansUsed > 0 then Some(FreeLimit() - scansUsed) else Some(0)
  }

  /** Without Pro, a scan is allowed exactly when some remain; the count is
      at most the limit for any count of scans used, and it never goes up
      as scans are used. */
  lemma QuotaAgrees(scansUsed: int, later: int)
    requires scansUsed >= 0 && later >= scansUsed
    ensures CanScan(scansUsed, false) <==> GetRemainingScans(scansUsed, false).value > 0
    ensures GetRemainingScans(scansUsed, false).value <= 3
    ensures GetRemainingScans(later, false).value <= GetRemainingScans(scansUsed, false).value
  {
  }

  /** Each scan uses up one remaining scan until none are left. */
  lemma ScanUsesOne(scansUsed: int)
    ensures var before := GetRemainingScans(scansUsed, false).value;
            GetRemainingScans(scansUsed + 1, false).value == if before > 0 then before - 1 else 0
  {
  }
}
