/**
  The lifetime-savings store: the total found and the number of bills
  scanned, loaded from the repository and bumped after each scan.
*/
module SavingsStore {
  import opened Wrappers
  import opened JsError
  import opened BillRepository

  class Store {
    var totalSavings: int
    var billCount: int
    var loading: bool

    constructor ()
      ensures totalSavings == 0 && billCount == 0 && !loading
    {
      totalSavings, billCount, loading := 0, 0, false;
    }

    /** Sets `loading`, runs both aggregate queries together, and on
        success takes their values and clears `loading`. If either query
        fails the call rejects and the store keeps its counters with
        `loading` still set. */
    method LoadSavings(db: Database, totalRun: DbRun, countRun: DbRun) returns (r: Outcome<Thrown>)
      modifies this
      ensures r.Pass? <==> Settle(totalRun, 1).Pass? && Settle(countRun, 1).Pass?
      ensures r.Pass? ==> totalSavings == SumSavings(db.analyses) && billCount == |db.bills| && !loading
      ensures r.Fail? ==> totalSavings == old(totalSavings) && billCount == old(billCount) && loading
    {
      loading := true;
      var total := db.GetTotalSavings(totalRun);
      var count := db.GetBillCount(countRun);
      if total.Failure? {
        return Fail(total.error);
      }
      if count.Failure? {
        return Fail(count.error);
      }
      totalSavings, billCount, loading := total.value, count.value, false;
      r := Pass;
    }

    /** One more bill, and its savings on top of the total. */
    method AddSavings(amount: int)
      modifies this
      ensures totalSavings == old(totalSavings) + amount
      ensures billCount == old(billCount) + 1
      ensures loading == old(loading)
    {
      totalSavings, billCount := totalSavings + amount, billCount + 1;
    }
  }
}
