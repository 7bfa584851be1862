/**
 * Conservation per ministry budget row. A transfer record names the request,
 * the office, the ministry and the amount, but not the fiscal year; the row it
 * drew on is found through its request, whose fiscal year no route changes.
 */
module BudgetRows {
  import opened Ledger
  import Requests
  import Transfers
  import opened Runs

  /** The budget row the record `t` drew on, when its request is known. */
  predicate DrewOn(requests: map<RequestId, FundRequest>, t: TransferRecord, k: BudgetKey)
  {
    t.requestId in requests && BudgetKey(t.ministry, requests[t.requestId].fiscalYear) == k
  }

  /** The amount the transfer log records as drawn on budget row `k`. */
  function DrawnFrom(ts: seq<TransferRecord>, requests: map<RequestId, FundRequest>, k: BudgetKey): (r: int)
    ensures (forall i :: 0 <= i < |ts| ==> !DrewOn(requests, ts[i], k)) ==> r == 0
  {
    if ts == [] then 0
    else DrawnFrom(ts[..|ts| - 1], requests, k) + (if DrewOn(requests, ts[|ts| - 1], k) then ts[|ts| - 1].amount else 0)
  }

  lemma DrawnFromAppend(ts: seq<TransferRecord>, t: TransferRecord, requests: map<RequestId, FundRequest>, k: BudgetKey)
    ensures DrawnFrom(ts + [t], requests, k) == DrawnFrom(ts, requests, k) + (if DrewOn(requests, t, k) then t.amount else 0)
  {
    assert (ts + [t])[..|ts|] == ts;
  }

  /** Every transfer record refers to a stored request. */
  predicate RecordsKnown(s: State)
  {
    forall i :: 0 <= i < |s.transfers| ==> s.transfers[i].requestId in s.requests
  }

  /** No request is removed and no request's heading or fiscal year changes from `s` to `s'`. */
  predicate Grows(s: State, s': State)
  {
    && s.requests.Keys <= s'.requests.Keys
    && (forall id :: id in s.requests ==> s'.requests[id].fiscalYear == s.requests[id].fiscalYear)
    && (forall id :: id in s.requests ==> s'.requests[id].heading == s.requests[id].heading)
  }

  /** A log whose records all refer to stored requests draws the same on each row after the requests grow. */
  lemma {:induction false} DrawnFromGrows(ts: seq<TransferRecord>, s: State, s': State, k: BudgetKey)
    requires Grows(s, s')
    requires forall i :: 0 <= i < |ts| ==> ts[i].requestId in s.requests
    ensures DrawnFrom(ts, s'.requests, k) == DrawnFrom(ts, s.requests, k)
    decreases |ts|
  {
    if ts != [] {
      var last := ts[|ts| - 1];
      assert DrewOn(s'.requests, last, k) == DrewOn(s.requests, last, k);
      DrawnFromGrows(ts[..|ts| - 1], s, s', k);
    }
  }

  /** The books of budget row `k`: what it holds now plus what the log records as drawn on it. */
  function RowBooks(s: State, k: BudgetKey): int
  {
    (if k in s.budgets then s.budgets[k] else 0) + DrawnFrom(s.transfers, s.requests, k)
  }

  /** The request routes only add requests or change their status, and touch no money table. */
  lemma RequestCallGrows(s: State, c: Call)
    requires Valid(s) && (c.PostRequest? || c.PostDecision? || c.PostApproveAll? || c.PostSalaryRequest?)
    ensures var s' := Apply(s, c);
      && Grows(s, s') && s'.budgets == s.budgets && s'.transfers == s.transfers
      && s'.funds == s.funds && s'.expenditures == s.expenditures
  {
    if c.PostApproveAll? {
      ApproveAllGrows(s, c);
    } else if c.PostDecision? {
      DecisionGrows(s, c);
    } else {
      InsertGrows(s, c);
    }
  }

  lemma ApproveAllGrows(s: State, c: Call)
    requires Valid(s) && c.PostApproveAll?
    ensures var s' := Apply(s, c);
      && Grows(s, s') && s'.budgets == s.budgets && s'.transfers == s.transfers
      && s'.funds == s.funds && s'.expenditures == s.expenditures
  {
    var s' := Apply(s, c);
    assert forall id :: id in s.requests ==> s'.requests[id] == s.requests[id].(status := s'.requests[id].status);
  }

  lemma DecisionGrows(s: State, c: Call)
    requires Valid(s) && c.PostDecision?
    ensures var s' := Apply(s, c);
      && Grows(s, s') && s'.budgets == s.budgets && s'.transfers == s.transfers
      && s'.funds == s.funds && s'.expenditures == s.expenditures
  {
  }

  lemma InsertGrows(s: State, c: Call)
    requires Valid(s) && (c.PostRequest? || c.PostSalaryRequest?)
    ensures var s' := Apply(s, c);
      && Grows(s, s') && s'.budgets == s.budgets && s'.transfers == s.transfers
      && s'.funds == s.funds && s'.expenditures == s.expenditures
  {
  }

  /** Whatever fails, every transfer record keeps referring to a stored request. */
  lemma ApplyKeepsRecordsKnown(s: State, c: Call)
    requires Valid(s) && RecordsKnown(s)
    ensures RecordsKnown(Apply(s, c))
  {
    var s' := Apply(s, c);
    if c.PostTransfer? {
      var r := Transfers.Transfer(s, c.role, c.id, c.storage);
      if r.state.transfers != s.transfers {
        Transfers.TransferEffect(s, c.id, c.storage);
      }
    } else if !c.PostSpend? {
      RequestCallGrows(s, c);
    }
  }

  /** A request call keeps the books of every budget row. */
  lemma RequestCallKeepsRowBooks(s: State, c: Call, k: BudgetKey)
    requires Valid(s) && RecordsKnown(s)
    requires c.PostRequest? || c.PostDecision? || c.PostApproveAll? || c.PostSalaryRequest?
    ensures RowBooks(Apply(s, c), k) == RowBooks(s, k)
  {
    RequestCallGrows(s, c);
    DrawnFromGrows(s.transfers, s, Apply(s, c), k);
  }

  /**
   * A transfer whose budget debit does not fail keeps the books of every budget row: the row it
   * debits loses exactly what the record it appends draws on that row.
   */
  lemma TransferKeepsRowBooks(s: State, role: Role, id: RequestId, storage: Storage, k: BudgetKey)
    requires Valid(s) && RecordsKnown(s) && !Fails(storage, 5)
    ensures RowBooks(Transfers.Transfer(s, role, id, storage).state, k) == RowBooks(s, k)
  {
    var r := Transfers.Transfer(s, role, id, storage);
    if r.state != s {
      Transfers.TransferEffect(s, id, storage);
      var t := Transfers.RecordOf(s, id);
      DrawnFromAppend(s.transfers, t, s.requests, k);
      assert DrewOn(s.requests, t, k) <==> k == Transfers.BudgetKeyOf(s, id);
    }
  }

  /** One call during which no statement fails keeps the books of every budget row. */
  lemma ApplyKeepsRowBooks(s: State, c: Call, k: BudgetKey)
    requires Valid(s) && RecordsKnown(s) && FailureFree(c)
    ensures RowBooks(Apply(s, c), k) == RowBooks(s, k)
  {
    if c.PostTransfer? {
      TransferKeepsRowBooks(s, c.role, c.id, c.storage, k);
    } else if !c.PostSpend? {
      RequestCallKeepsRowBooks(s, c, k);
    }
  }

  /** No route adds or removes a budget row. */
  lemma ApplyKeepsBudgetRows(s: State, c: Call)
    requires Valid(s)
    ensures Apply(s, c).budgets.Keys == s.budgets.Keys
  {
    if !c.PostTransfer? && !c.PostSpend? {
      RequestCallGrows(s, c);
    }
  }

  /** Over any sequence of calls without failing statements, the books of every budget row are kept. */
  lemma {:induction false} RunKeepsRowBooks(s: State, calls: seq<Call>, k: BudgetKey)
    requires Valid(s) && RecordsKnown(s)
    requires forall i :: 0 <= i < |calls| ==> FailureFree(calls[i])
    ensures RowBooks(Run(s, calls), k) == RowBooks(s, k)
    ensures RecordsKnown(Run(s, calls)) && Run(s, calls).budgets.Keys == s.budgets.Keys
    decreases |calls|
  {
    if calls != [] {
      ApplyKeepsRowBooks(s, calls[0], k);
      ApplyKeepsRecordsKnown(s, calls[0]);
      ApplyKeepsBudgetRows(s, calls[0]);
      RunKeepsRowBooks(Apply(s, calls[0]), calls[1..], k);
    }
  }

  /**
   * Conservation for each budget row, from a fresh database: after any sequence of calls
   * without failing statements, the row holds its initial amount less what the transfer log records
   * as drawn on it, and what was drawn on it never exceeds its initial amount.
   */
  lemma TransfersWithinBudget(offices: map<OfficeId, MinistryId>, budgets: map<BudgetKey, Amount>,
                              calls: seq<Call>, k: BudgetKey)
    requires forall j :: j in budgets ==> budgets[j] >= 0
    requires forall i :: 0 <= i < |calls| ==> FailureFree(calls[i])
    requires k in budgets
    ensures var s' := Run(Initial(offices, budgets), calls);
      && k in s'.budgets
      && s'.budgets[k] == budgets[k] - DrawnFrom(s'.transfers, s'.requests, k)
      && DrawnFrom(s'.transfers, s'.requests, k) <= budgets[k]
  {
    var s := Initial(offices, budgets);
    RunKeepsRowBooks(s, calls, k);
    RunKeepsBudgetsNonNegative(s, calls);
  }
}
