/**
 * Sequences of calls to the state-changing fund routes, and the ledger
 * invariants that hold over every such sequence.
 */
module Runs {
  import opened Ledger
  import opened Totals
  import Requests
  import Transfers
  import Spending

  /** One call to a state-changing route, with its inputs and how the database behaves during it. */
  datatype Call =
    | PostRequest(role: Role, office: OfficeId, amount: Amount, purpose: string, fiscalYear: FiscalYear,
                  heading: Heading, storage: Storage)
    | PostDecision(role: Role, id: RequestId, decision: Requests.Decision, storage: Storage)
    | PostApproveAll(role: Role, storage: Storage)
    | PostTransfer(role: Role, id: RequestId, storage: Storage)
    | PostSpend(role: Role, office: OfficeId, heading: Heading, fiscalYear: FiscalYear, amount: Amount,
                description: string, storage: Storage)
    | PostSalaryRequest(role: Role, office: OfficeId, fiscalYear: FiscalYear, month: string,
                        salaries: seq<Amount>, storage: Storage)

  /** The state after one call. */
  function Apply(s: State, c: Call): (s': State)
    requires Valid(s)
    ensures Valid(s')
  {
    match c
    case PostRequest(role, office, amount, purpose, fiscalYear, heading, storage) =>
      Requests.CreateRequest(s, role, office, amount, purpose, fiscalYear, heading, storage).state
    case PostDecision(role, id, decision, storage) =>
      Requests.Decide(s, role, id, decision, storage).state
    case PostApproveAll(role, storage) =>
      Requests.ApproveAll(s, role, storage).state
    case PostTransfer(role, id, storage) =>
      Transfers.Transfer(s, role, id, storage).state
    case PostSpend(role, office, heading, fiscalYear, amount, description, storage) =>
      Spending.Spend(s, role, office, heading, fiscalYear, amount, description, storage).state
    case PostSalaryRequest(role, office, fiscalYear, month, salaries, storage) =>
      Requests.RequestMonthlySalary(s, role, office, fiscalYear, month, salaries, storage).state
  }

  /** The state after a sequence of calls, made one after another. */
  function Run(s: State, calls: seq<Call>): (s': State)
    requires Valid(s)
    ensures Valid(s')
    decreases |calls|
  {
    if calls == [] then s else Run(Apply(s, calls[0]), calls[1..])
  }

  /** A call during which every statement succeeds. */
  predicate FailureFree(c: Call)
  {
    c.storage == Storage.Healthy
  }

  /**
   * A call that asks for no negative amount of money. Only a plain request can: the salary route
   * refuses any total that is not positive.
   */
  predicate NonNegativeAmounts(c: Call)
  {
    c.PostRequest? ==> c.amount >= 0
  }

  /** For one call: no route drives a ministry budget below zero. */
  lemma ApplyKeepsBudgetsNonNegative(s: State, c: Call)
    requires Valid(s) && BudgetsNonNegative(s)
    ensures BudgetsNonNegative(Apply(s, c))
  {
  }

  /** Over any sequence of calls, failing statements included, every budget stays non-negative. */
  lemma {:induction false} RunKeepsBudgetsNonNegative(s: State, calls: seq<Call>)
    requires Valid(s) && BudgetsNonNegative(s)
    ensures BudgetsNonNegative(Run(s, calls))
    decreases |calls|
  {
    if calls != [] {
      ApplyKeepsBudgetsNonNegative(s, calls[0]);
      RunKeepsBudgetsNonNegative(Apply(s, calls[0]), calls[1..]);
    }
  }

  /**
   * For one call: as long as every stored request asks for a non-negative amount, and the call
   * adds no request for a negative amount, no fund goes below zero.
   */
  lemma ApplyKeepsFundsNonNegative(s: State, c: Call)
    requires Valid(s) && FundsNonNegative(s) && RequestAmountsNonNegative(s) && NonNegativeAmounts(c)
    ensures FundsNonNegative(Apply(s, c)) && RequestAmountsNonNegative(Apply(s, c))
  {
    if c.PostApproveAll? {
      ApproveAllKeepsAmounts(s, c);
    } else if c.PostSalaryRequest? {
      SalaryCallKeepsAmounts(s, c);
    } else {
      OtherCallKeepsFunds(s, c);
    }
  }

  lemma ApproveAllKeepsAmounts(s: State, c: Call)
    requires Valid(s) && FundsNonNegative(s) && RequestAmountsNonNegative(s) && c.PostApproveAll?
    ensures FundsNonNegative(Apply(s, c)) && RequestAmountsNonNegative(Apply(s, c))
  {
    var r := Requests.ApproveAll(s, c.role, c.storage);
    assert forall id :: id in r.state.requests ==> r.state.requests[id].amount == s.requests[id].amount;
  }

  /** A salary request stores only a positive total. */
  lemma SalaryCallKeepsAmounts(s: State, c: Call)
    requires Valid(s) && FundsNonNegative(s) && RequestAmountsNonNegative(s) && c.PostSalaryRequest?
    ensures FundsNonNegative(Apply(s, c)) && RequestAmountsNonNegative(Apply(s, c))
  {
  }

  lemma OtherCallKeepsFunds(s: State, c: Call)
    requires Valid(s) && FundsNonNegative(s) && RequestAmountsNonNegative(s) && NonNegativeAmounts(c)
    requires !c.PostApproveAll? && !c.PostSalaryRequest?
    ensures FundsNonNegative(Apply(s, c)) && RequestAmountsNonNegative(Apply(s, c))
  {
  }

  /** Over any sequence of calls that ask for no negative amount, every fund stays non-negative. */
  lemma {:induction false} RunKeepsFundsNonNegative(s: State, calls: seq<Call>)
    requires Valid(s) && FundsNonNegative(s) && RequestAmountsNonNegative(s)
    requires forall i :: 0 <= i < |calls| ==> NonNegativeAmounts(calls[i])
    ensures FundsNonNegative(Run(s, calls)) && RequestAmountsNonNegative(Run(s, calls))
    decreases |calls|
  {
    if calls != [] {
      ApplyKeepsFundsNonNegative(s, calls[0]);
      RunKeepsFundsNonNegative(Apply(s, calls[0]), calls[1..]);
    }
  }

  /** Budget side of the books: the budgets' total plus the transfer log's total. */
  ghost function BudgetBooks(s: State): int
  {
    Total(s.budgets) + Sum(s.transfers, TransferAmount)
  }

  /** Fund side of the books: the funds' total plus the expenditure log's total, less what was transferred in. */
  ghost function FundBooks(s: State): int
  {
    Total(s.funds) + Sum(s.expenditures, ExpenditureAmount) - Sum(s.transfers, TransferAmount)
  }

  /** Conservation for one call during which no statement fails. */
  lemma ApplyConserves(s: State, c: Call)
    requires Valid(s) && FailureFree(c)
    ensures BudgetBooks(Apply(s, c)) == BudgetBooks(s)
    ensures FundBooks(Apply(s, c)) == FundBooks(s)
  {
    if c.PostTransfer? {
      TransferCallConserves(s, c);
    } else if c.PostSpend? {
      SpendCallConserves(s, c);
    } else {
      RequestCallKeepsBooks(s, c);
    }
  }

  lemma TransferCallConserves(s: State, c: Call)
    requires Valid(s) && FailureFree(c) && c.PostTransfer?
    ensures BudgetBooks(Apply(s, c)) == BudgetBooks(s)
    ensures FundBooks(Apply(s, c)) == FundBooks(s)
  {
    Transfers.TransferConservesBudgets(s, c.role, c.id, c.storage);
    Transfers.TransferConservesFunds(s, c.role, c.id, c.storage);
  }

  lemma SpendCallConserves(s: State, c: Call)
    requires Valid(s) && FailureFree(c) && c.PostSpend?
    ensures BudgetBooks(Apply(s, c)) == BudgetBooks(s)
    ensures FundBooks(Apply(s, c)) == FundBooks(s)
  {
    Spending.SpendConserves(s, c.role, c.office, c.heading, c.fiscalYear, c.amount, c.description, c.storage);
  }

  /** The request routes touch none of the four money tables. */
  lemma RequestCallKeepsBooks(s: State, c: Call)
    requires Valid(s) && (c.PostRequest? || c.PostDecision? || c.PostApproveAll? || c.PostSalaryRequest?)
    ensures BudgetBooks(Apply(s, c)) == BudgetBooks(s)
    ensures FundBooks(Apply(s, c)) == FundBooks(s)
  {
    var s' := Apply(s, c);
    assert s'.budgets == s.budgets && s'.funds == s.funds && s'.transfers == s.transfers && s'.expenditures == s.expenditures;
    SameBooks(s, s');
  }

  /** The books only depend on the four money tables. */
  lemma SameBooks(s: State, s': State)
    requires s'.budgets == s.budgets && s'.funds == s.funds
    requires s'.transfers == s.transfers && s'.expenditures == s.expenditures
    ensures BudgetBooks(s') == BudgetBooks(s) && FundBooks(s') == FundBooks(s)
  {
  }

  /**
   * Conservation over any sequence of calls during which no statement fails: what leaves the budgets
   * is exactly what the transfer log records, and what the transfer log records is exactly what the
   * office funds gained less what the expenditure log records.
   */
  lemma {:induction false} RunConserves(s: State, calls: seq<Call>)
    requires Valid(s)
    requires forall i :: 0 <= i < |calls| ==> FailureFree(calls[i])
    ensures var s' := Run(s, calls);
      && Total(s.budgets) - Total(s'.budgets) == Sum(s'.transfers, TransferAmount) - Sum(s.transfers, TransferAmount)
      && Total(s'.funds) - Total(s.funds) + (Sum(s'.expenditures, ExpenditureAmount) - Sum(s.expenditures, ExpenditureAmount))
         == Sum(s'.transfers, TransferAmount) - Sum(s.transfers, TransferAmount)
    decreases |calls|
  {
    if calls != [] {
      ApplyConserves(s, calls[0]);
      RunConserves(Apply(s, calls[0]), calls[1..]);
    }
  }
}
