/**
  The scan-history store: the list of past bills shown on the history tab,
  kept in step with the repository.
*/
module HistoryStore {
  import opened Wrappers
  import opened JsError
  import opened Models
  import opened JsArray
  import opened BillRepository

  /** The test `b.id !== id`. */
  function OtherThan(id: string): Bill -> bool {
    (b: Bill) => b.id != id
  }

  /** The list after removing a bill: every entry with that id goes, the
      rest stay in order. */
  function WithoutBill(bills: seq<Bill>, id: string): (r: seq<Bill>)
    ensures forall i :: 0 <= i < |r| ==> r[i].id != id && r[i] in bills
    ensures forall i :: 0 <= i < |bills| && bills[i].id != id ==> bills[i] in r
  {
    Filter(bills, OtherThan(id))
  }

  /** Removing a bill that was added twice removes both copies. */
  lemma RemoveDropsDuplicates(bill: Bill, rest: seq<Bill>)
    ensures WithoutBill([bill, bill] + rest, bill.id) == WithoutBill(rest, bill.id)
  {
    FilterConcat([bill, bill], rest, OtherThan(bill.id));
    FilterAllOrNone([bill, bill], OtherThan(bill.id));
  }

  /** Removing an id splits over the list, so entries keep their order. */
  lemma RemoveKeepsOrder(front: seq<Bill>, back: seq<Bill>, id: string)
    ensures WithoutBill(front + back, id) == WithoutBill(front, id) + WithoutBill(back, id)
  {
    FilterConcat(front, back, OtherThan(id));
  }

  class Store {
    var bills: seq<Bill>
    var loading: bool

    constructor ()
      ensures bills == [] && !loading
    {
      bills, loading := [], false;
    }

    /** Sets `loading`, then replaces the list with the repository's
        newest-first listing and clears `loading`. A failed query leaves
        the list as it was and `loading` set. */
    method LoadBills(db: Database, run: DbRun) returns (r: Outcome<Thrown>)
      requires db.Valid()
      modifies this
      ensures r == Settle(run, 1)
      ensures r.Pass? ==> !loading && NewestFirst(bills) && DistinctIds(bills) && Ids(bills) == db.bills.Keys
                          && FromTable(bills, db.bills, db.codecs.lineItems)
      ensures r.Fail? ==> loading && bills == old(bills)
    {
      loading := true;
      var all := db.GetAllBills(run);
      if all.Failure? {
        return Fail(all.error);
      }
      bills, loading := all.value, false;
      r := Pass;
    }

    /** Saves the bill, then its analysis, then puts the bill at the front of
        the list. The list changes only when both saves went through; it is
        not checked for an entry with the same id. */
    method AddBill(db: Database, bill: Bill, analysis: AnalysisResult, billRun: DbRun, analysisRun: DbRun)
      returns (r: Outcome<Thrown>)
      requires db.Valid()
      modifies this, db
      ensures db.Valid()
      ensures r == if Settle(billRun, 1).Fail? then Settle(billRun, 1) else Settle(analysisRun, 1)
      ensures db.bills == if Settle(billRun, 1).Pass? then old(db.bills)[bill.id := BillToRow(db.codecs.lineItems, bill)]
                          else old(db.bills)
      ensures db.analyses == if r.Pass? then old(db.analyses)[analysis.billId := AnalysisToRow(db.codecs.findings, analysis)]
                             else old(db.analyses)
      ensures db.scripts == old(db.scripts)
      ensures bills == if r.Pass? then [bill] + old(bills) else old(bills)
      ensures loading == old(loading)
    {
      r := db.SaveBill(bill, billRun);
      if r.Fail? {
        return;
      }
      r := db.SaveAnalysis(analysis, analysisRun);
      if r.Fail? {
        return;
      }
      bills := [bill] + bills;
    }

    /** Deletes the bill and its rows, then drops it from the list; a failed
        delete leaves the list as it was. */
    method RemoveBill(db: Database, id: string, run: DbRun) returns (r: Outcome<Thrown>)
      requires db.Valid()
      modifies this, db
      ensures db.Valid()
      ensures r == Settle(run, 3)
      ensures db.scripts == if Completed(run, 0) then old(db.scripts) - {id} else old(db.scripts)
      ensures db.analyses == if Completed(run, 1) then old(db.analyses) - {id} else old(db.analyses)
      ensures db.bills == if Completed(run, 2) then old(db.bills) - {id} else old(db.bills)
      ensures bills == if r.Pass? then WithoutBill(old(bills), id) else old(bills)
      ensures loading == old(loading)
    {
      r := db.DeleteBill(id, run);
      if r.Fail? {
        return;
      }
      bills := WithoutBill(bills, id);
    }
  }
}
