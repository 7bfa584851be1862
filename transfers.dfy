/**
 * The transfer of an approved request's amount from its ministry's budget to
 * the office fund of the request's heading, and the budget lookup.
 *
 * The handler issues six statements one after another with no transaction
 * around them: (1) find the approved request, (2) find the office's ministry,
 * (3) read the budget row, (4) append the transfer record, (5) debit the
 * budget, (6) upsert-credit the office fund. A failure of statement 5 or 6
 * leaves the effects of the statements before it in place.
 */
module Transfers {
  import opened Ledger
  import opened Totals

  /** The budget row a transfer of request `id` draws on. */
  function BudgetKeyOf(s: State, id: RequestId): (k: BudgetKey)
    requires id in s.requests && s.requests[id].office in s.offices
    ensures k.ministry == s.offices[s.requests[id].office] && k.fiscalYear == s.requests[id].fiscalYear
  {
    BudgetKey(s.offices[s.requests[id].office], s.requests[id].fiscalYear)
  }

  /** The office fund row a transfer of request `id` credits. */
  function FundKeyOf(s: State, id: RequestId): (k: FundKey)
    requires id in s.requests
    ensures k.office == s.requests[id].office && k.heading == s.requests[id].heading
    ensures k.fiscalYear == s.requests[id].fiscalYear
  {
    FundKey(s.requests[id].office, s.requests[id].heading, s.requests[id].fiscalYear)
  }

  /** The record a transfer of request `id` appends to the transfer log. */
  function RecordOf(s: State, id: RequestId): (t: TransferRecord)
    requires id in s.requests && s.requests[id].office in s.offices
    ensures t.requestId == id && t.office == s.requests[id].office
    ensures t.ministry == s.offices[t.office] && t.amount == s.requests[id].amount
  {
    TransferRecord(id, s.requests[id].office, s.offices[s.requests[id].office], s.requests[id].amount)
  }

  /** The business conditions under which a transfer of request `id` goes through. */
  predicate Transferable(s: State, id: RequestId)
  {
    && IsApproved(s, id)
    && s.requests[id].office in s.offices
    && BudgetKeyOf(s, id) in s.budgets
    && s.budgets[BudgetKeyOf(s, id)] >= s.requests[id].amount
  }

  /** No statement among the first `n` of a handler fails. */
  predicate NoFailureUpTo(storage: Storage, n: nat)
  {
    storage.FailsAt? ==> storage.query == 0 || storage.query > n
  }

  /** POST /transfer/:id, in the handler's statement order; the response holds the new transfer's id. */
  function Transfer(s: State, role: Role, id: RequestId, storage: Storage): (r: Step<int>)
    requires Valid(s)
    ensures Valid(r.state)
    // requests, offices and expenditures are never touched: in particular the request stays approved
    ensures r.state.requests == s.requests && r.state.nextRequestId == s.nextRequestId
    ensures r.state.offices == s.offices && r.state.expenditures == s.expenditures
    // no budget row is ever added or removed
    ensures r.state.budgets.Keys == s.budgets.Keys
    ensures role != ADMIN ==> r == Step(s, Err(Forbidden))
    // nothing changes unless the request exists and is approved
    ensures role == ADMIN && !Fails(storage, 1) && !IsApproved(s, id) ==> r == Step(s, Err(NotFound))
    ensures r.state != s ==> role == ADMIN && NoFailureUpTo(storage, 4) && Transferable(s, id)
    // a missing or too small budget row refuses the transfer with nothing changed
    ensures (role == ADMIN && NoFailureUpTo(storage, 3) && IsApproved(s, id) && s.requests[id].office in s.offices
             && !Transferable(s, id)) ==> r == Step(s, Err(Insufficient))
    ensures r.result.Ok? <==> role == ADMIN && NoFailureUpTo(storage, 6) && Transferable(s, id)
    // success: one record appended, the budget lowered by the amount (never below zero),
    // the office fund raised by the amount (created if absent), no other row changed
    ensures r.result.Ok? ==>
      && r.state.transfers == s.transfers + [RecordOf(s, id)]
      && r.result.value == |r.state.transfers|
      && var bk, fk, amount := BudgetKeyOf(s, id), FundKeyOf(s, id), s.requests[id].amount;
      && r.state.budgets.Keys == s.budgets.Keys
      && r.state.budgets[bk] == s.budgets[bk] - amount >= 0
      && (forall k :: k in s.budgets && k != bk ==> r.state.budgets[k] == s.budgets[k])
      && r.state.funds.Keys == s.funds.Keys + {fk}
      && r.state.funds[fk] == (if fk in s.funds then s.funds[fk] else 0) + amount
      && (forall k :: k in s.funds && k != fk ==> r.state.funds[k] == s.funds[k])
    // no transfer, whatever fails, drives a budget below zero
    ensures BudgetsNonNegative(s) ==> BudgetsNonNegative(r.state)
  {
    if role != ADMIN then Step(s, Err(Forbidden))
    // 1. the request, which must be approved
    else if Fails(storage, 1) then Step(s, Err(StorageError))
    else if !IsApproved(s, id) then Step(s, Err(NotFound))
    // 2. the office's ministry
    else if Fails(storage, 2) then Step(s, Err(StorageError))
    else if s.requests[id].office !in s.offices then Step(s, Err(OfficeUnresolved))
    // 3. the ministry's budget for the request's fiscal year
    else if Fails(storage, 3) then Step(s, Err(StorageError))
    else if !Transferable(s, id) then Step(s, Err(Insufficient))
    // 4. the transfer record
    else if Fails(storage, 4) then Step(s, Err(StorageError))
    else
      var logged := s.(transfers := s.transfers + [RecordOf(s, id)]);
      var bk, amount := BudgetKeyOf(s, id), s.requests[id].amount;
      // 5. the budget debit
      if Fails(storage, 5) then Step(logged, Err(StorageError))
      else
        var debited := logged.(budgets := s.budgets[bk := s.budgets[bk] - amount]);
        // 6. the office fund credit
        if Fails(storage, 6) then Step(debited, Err(StorageError))
        else Step(debited.(funds := Credit(s.funds, FundKeyOf(s, id), amount)), Ok(|logged.transfers|))
  }

  /** A failed budget debit leaves the transfer record behind with neither debit nor credit. */
  lemma DebitFailureLeavesRecordOnly(s: State, id: RequestId)
    requires Valid(s) && Transferable(s, id)
    ensures var r := Transfer(s, ADMIN, id, FailsAt(5));
      && r.result == Err(StorageError)
      && r.state == s.(transfers := s.transfers + [RecordOf(s, id)])
  {
  }

  /** A failed office credit leaves the record and the budget debit in place, and the amount is lost. */
  lemma CreditFailureLosesAmount(s: State, id: RequestId)
    requires Valid(s) && Transferable(s, id)
    ensures var r := Transfer(s, ADMIN, id, FailsAt(6));
      && r.result == Err(StorageError)
      && r.state.transfers == s.transfers + [RecordOf(s, id)]
      && r.state.funds == s.funds
      && Total(r.state.budgets) == Total(s.budgets) - s.requests[id].amount
  {
    var bk := BudgetKeyOf(s, id);
    TotalUpdate(s.budgets, bk, s.budgets[bk] - s.requests[id].amount);
  }

  /** The whole outcome of a transfer that passed every check, by the statement that failed, if any. */
  lemma TransferEffect(s: State, id: RequestId, storage: Storage)
    requires Valid(s) && Transferable(s, id) && NoFailureUpTo(storage, 3)
    ensures var r := Transfer(s, ADMIN, id, storage);
      var bk, amount := BudgetKeyOf(s, id), s.requests[id].amount;
      var logged := s.(transfers := s.transfers + [RecordOf(s, id)]);
      var debited := logged.(budgets := s.budgets[bk := s.budgets[bk] - amount]);
      && (Fails(storage, 4) ==> r == Step(s, Err(StorageError)))
      && (Fails(storage, 5) ==> r == Step(logged, Err(StorageError)))
      && (Fails(storage, 6) ==> r == Step(debited, Err(StorageError)))
      && (!Fails(storage, 4) && !Fails(storage, 5) && !Fails(storage, 6) ==>
            r == Step(debited.(funds := Credit(s.funds, FundKeyOf(s, id), amount)), Ok(|logged.transfers|)))
  {
  }

  /**
   * Conservation for one call, budget side: unless the debit fails, the budgets' total drops by
   * exactly what the transfer log gains.
   */
  lemma TransferConservesBudgets(s: State, role: Role, id: RequestId, storage: Storage)
    requires Valid(s) && !Fails(storage, 5)
    ensures var r := Transfer(s, role, id, storage);
      Total(r.state.budgets) == Total(s.budgets) - (Sum(r.state.transfers, TransferAmount) - Sum(s.transfers, TransferAmount))
  {
    var r := Transfer(s, role, id, storage);
    if r.state != s {
      TransferEffect(s, id, storage);
      SumAppend(s.transfers, RecordOf(s, id), TransferAmount);
      DebitAccounted(s.budgets, r.state.budgets, BudgetKeyOf(s, id), s.requests[id].amount,
                     Sum(s.transfers, TransferAmount), Sum(r.state.transfers, TransferAmount));
    }
  }

  /**
   * Conservation for one call, fund side: unless the debit or the credit fails, the office funds'
   * total rises by exactly what the transfer log gains.
   */
  lemma TransferConservesFunds(s: State, role: Role, id: RequestId, storage: Storage)
    requires Valid(s) && !Fails(storage, 5) && !Fails(storage, 6)
    ensures var r := Transfer(s, role, id, storage);
      Total(r.state.funds) == Total(s.funds) + (Sum(r.state.transfers, TransferAmount) - Sum(s.transfers, TransferAmount))
  {
    var r := Transfer(s, role, id, storage);
    if r.state != s {
      TransferEffect(s, id, storage);
      SumAppend(s.transfers, RecordOf(s, id), TransferAmount);
      CreditAccounted(s.funds, r.state.funds, FundKeyOf(s, id), s.requests[id].amount,
                      Sum(s.transfers, TransferAmount), Sum(r.state.transfers, TransferAmount));
    }
  }

  /**
   * A transfer does not consume the approved status: after one succeeds the same request can be
   * transferred again, the budget check is applied afresh, and a second record is appended.
   */
  lemma RepeatedTransfer(s: State, id: RequestId)
    requires Valid(s)
    requires Transfer(s, ADMIN, id, Healthy).result.Ok?
    ensures var first := Transfer(s, ADMIN, id, Healthy).state;
      var second := Transfer(first, ADMIN, id, Healthy);
      && IsApproved(first, id)
      && (second.result.Ok? <==> first.budgets[BudgetKeyOf(s, id)] >= s.requests[id].amount)
      && (second.result.Ok? ==> second.state.transfers == s.transfers + [RecordOf(s, id), RecordOf(s, id)])
  {
    var first := Transfer(s, ADMIN, id, Healthy).state;
    assert BudgetKeyOf(first, id) == BudgetKeyOf(s, id);
    assert RecordOf(first, id) == RecordOf(s, id);
  }

  /** GET /budget/:ministry_id/:fiscal_year: the remaining amount of that budget row. */
  function BudgetLookup(s: State, role: Role, ministry: MinistryId, fiscalYear: FiscalYear, storage: Storage): (r: Result<Amount>)
    ensures role != ADMIN ==> r == Err(Forbidden)
    ensures r.Ok? <==> role == ADMIN && !Fails(storage, 1) && BudgetKey(ministry, fiscalYear) in s.budgets
    ensures r.Ok? ==> r.value == s.budgets[BudgetKey(ministry, fiscalYear)]
    ensures r == Err(NotFound) <==> role == ADMIN && !Fails(storage, 1) && BudgetKey(ministry, fiscalYear) !in s.budgets
  {
    if role != ADMIN then Err(Forbidden)
    else if Fails(storage, 1) then Err(StorageError)
    else if BudgetKey(ministry, fiscalYear) !in s.budgets then Err(NotFound)
    else Ok(s.budgets[BudgetKey(ministry, fiscalYear)])
  }
}
