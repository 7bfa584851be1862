/**
 * Conservation per office fund row. A transfer record names the request and
 * the office but neither the heading nor the fiscal year; the fund row it
 * credited is found through its request, whose heading and fiscal year no
 * route changes. An expenditure names its fund row outright.
 */
module FundRows {
  import opened Ledger
  import Transfers
  import Spending
  import opened Runs
  import opened BudgetRows

  /** The fund row the record `t` credited, when its request is known. */
  predicate CreditedOn(requests: map<RequestId, FundRequest>, t: TransferRecord, k: FundKey)
  {
    t.requestId in requests && FundKey(t.office, requests[t.requestId].heading, requests[t.requestId].fiscalYear) == k
  }

  /** The amount the transfer log records as credited to fund row `k`. */
  function CreditedTo(ts: seq<TransferRecord>, requests: map<RequestId, FundRequest>, k: FundKey): (r: int)
    ensures (forall i :: 0 <= i < |ts| ==> !CreditedOn(requests, ts[i], k)) ==> r == 0
  {
    if ts == [] then 0
    else CreditedTo(ts[..|ts| - 1], requests, k) + (if CreditedOn(requests, ts[|ts| - 1], k) then ts[|ts| - 1].amount else 0)
  }

  lemma CreditedToAppend(ts: seq<TransferRecord>, t: TransferRecord, requests: map<RequestId, FundRequest>, k: FundKey)
    ensures CreditedTo(ts + [t], requests, k) == CreditedTo(ts, requests, k) + (if CreditedOn(requests, t, k) then t.amount else 0)
  {
    assert (ts + [t])[..|ts|] == ts;
  }

  /** A log whose records all refer to stored requests credits the same rows after the requests grow. */
  lemma {:induction false} CreditedToGrows(ts: seq<TransferRecord>, s: State, s': State, k: FundKey)
    requires Grows(s, s')
    requires forall i :: 0 <= i < |ts| ==> ts[i].requestId in s.requests
    ensures CreditedTo(ts, s'.requests, k) == CreditedTo(ts, s.requests, k)
    decreases |ts|
  {
    if ts != [] {
      var last := ts[|ts| - 1];
      assert CreditedOn(s'.requests, last, k) == CreditedOn(s.requests, last, k);
      CreditedToGrows(ts[..|ts| - 1], s, s', k);
    }
  }

  /** The fund row an expenditure was spent from. */
  function SpentOn(e: Expenditure): FundKey
  {
    FundKey(e.office, e.heading, e.fiscalYear)
  }

  /** The amount the expenditure log records as spent from fund row `k`. */
  function SpentFrom(es: seq<Expenditure>, k: FundKey): (r: int)
    ensures (forall i :: 0 <= i < |es| ==> SpentOn(es[i]) != k) ==> r == 0
  {
    if es == [] then 0
    else SpentFrom(es[..|es| - 1], k) + (if SpentOn(es[|es| - 1]) == k then es[|es| - 1].amount else 0)
  }

  lemma SpentFromAppend(es: seq<Expenditure>, e: Expenditure, k: FundKey)
    ensures SpentFrom(es + [e], k) == SpentFrom(es, k) + (if SpentOn(e) == k then e.amount else 0)
  {
    assert (es + [e])[..|es|] == es;
  }

  /** The balance of fund row `k`, zero while the row does not exist. */
  function Balance(s: State, k: FundKey): int
  {
    if k in s.funds then s.funds[k] else 0
  }

  /** The books of fund row `k`: its balance plus what was spent from it, less what was credited to it. */
  function FundRowBooks(s: State, k: FundKey): int
  {
    Balance(s, k) + SpentFrom(s.expenditures, k) - CreditedTo(s.transfers, s.requests, k)
  }

  /** A request call keeps the books of every fund row. */
  lemma RequestCallKeepsFundRowBooks(s: State, c: Call, k: FundKey)
    requires Valid(s) && RecordsKnown(s)
    requires c.PostRequest? || c.PostDecision? || c.PostApproveAll? || c.PostSalaryRequest?
    ensures FundRowBooks(Apply(s, c), k) == FundRowBooks(s, k)
  {
    RequestCallGrows(s, c);
    CreditedToGrows(s.transfers, s, Apply(s, c), k);
  }

  /**
   * A transfer whose debit and credit do not fail keeps the books of every fund row: the row it
   * credits gains exactly what the record it appends credits to that row.
   */
  lemma TransferKeepsFundRowBooks(s: State, role: Role, id: RequestId, storage: Storage, k: FundKey)
    requires Valid(s) && !Fails(storage, 5) && !Fails(storage, 6)
    ensures FundRowBooks(Transfers.Transfer(s, role, id, storage).state, k) == FundRowBooks(s, k)
  {
    var r := Transfers.Transfer(s, role, id, storage);
    if r.state != s {
      Transfers.TransferEffect(s, id, storage);
      var t := Transfers.RecordOf(s, id);
      CreditedToAppend(s.transfers, t, s.requests, k);
      assert CreditedOn(s.requests, t, k) <==> k == Transfers.FundKeyOf(s, id);
    }
  }

  /**
   * A spend whose expenditure insert does not fail keeps the books of every fund row: the row it
   * debits loses exactly what the expenditure it appends records against that row.
   */
  lemma SpendKeepsFundRowBooks(s: State, role: Role, office: OfficeId, heading: Heading, fiscalYear: FiscalYear,
                               amount: Amount, description: string, storage: Storage, k: FundKey)
    requires Valid(s) && !Fails(storage, 3)
    ensures FundRowBooks(Spending.Spend(s, role, office, heading, fiscalYear, amount, description, storage).state, k)
            == FundRowBooks(s, k)
  {
    var r := Spending.Spend(s, role, office, heading, fiscalYear, amount, description, storage);
    if r.state != s {
      Spending.SpendEffect(s, office, heading, fiscalYear, amount, description, storage);
      SpentFromAppend(s.expenditures, Expenditure(office, heading, fiscalYear, amount, description), k);
    }
  }

  /** One call during which no statement fails keeps the books of every fund row. */
  lemma ApplyKeepsFundRowBooks(s: State, c: Call, k: FundKey)
    requires Valid(s) && RecordsKnown(s) && FailureFree(c)
    ensures FundRowBooks(Apply(s, c), k) == FundRowBooks(s, k)
  {
    if c.PostTransfer? {
      TransferKeepsFundRowBooks(s, c.role, c.id, c.storage, k);
    } else if c.PostSpend? {
      SpendKeepsFundRowBooks(s, c.role, c.office, c.heading, c.fiscalYear, c.amount, c.description, c.storage, k);
    } else {
      RequestCallKeepsFundRowBooks(s, c, k);
    }
  }

  /** Over any sequence of calls without failing statements, the books of every fund row are kept. */
  lemma {:induction false} RunKeepsFundRowBooks(s: State, calls: seq<Call>, k: FundKey)
    requires Valid(s) && RecordsKnown(s)
    requires forall i :: 0 <= i < |calls| ==> FailureFree(calls[i])
    ensures FundRowBooks(Run(s, calls), k) == FundRowBooks(s, k)
    decreases |calls|
  {
    if calls != [] {
      ApplyKeepsFundRowBooks(s, calls[0], k);
      ApplyKeepsRecordsKnown(s, calls[0]);
      RunKeepsFundRowBooks(Apply(s, calls[0]), calls[1..], k);
    }
  }

  /**
   * From a fresh database, after any sequence of calls without failing statements, every office
   * fund row holds exactly what the transfer log credited to it less what the expenditure log
   * records as spent from it.
   */
  lemma FundRowBalance(offices: map<OfficeId, MinistryId>, budgets: map<BudgetKey, Amount>,
                       calls: seq<Call>, k: FundKey)
    requires forall i :: 0 <= i < |calls| ==> FailureFree(calls[i])
    ensures var s' := Run(Initial(offices, budgets), calls);
      Balance(s', k) == CreditedTo(s'.transfers, s'.requests, k) - SpentFrom(s'.expenditures, k)
  {
    RunKeepsFundRowBooks(Initial(offices, budgets), calls, k);
  }
}
