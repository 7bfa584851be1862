/**
 * The tables the fund routes read and write, as abstract state.
 *
 * Every handler in the fund routes is a short sequence of SQL statements over
 * these tables; the model keeps each table as a map (keyed like the table's
 * unique key) or, for the append-only logs, as a sequence whose i-th element
 * has auto-increment id i + 1.
 */
module Ledger {

  type RequestId = int
  type OfficeId = int
  type MinistryId = int
  type FiscalYear = string
  type Heading = string
  /** Money in fixed point (for instance paisa); never binary floating point. */
  type Amount = int
  type Role = int

  /** The role numbers carried by the authenticated user. */
  const ADMIN: Role := 1
  const OFFICE: Role := 3

  /** The heading and purpose prefix used by the monthly salary request. */
  const SALARY_HEADING: Heading := "Salaries"
  const SALARY_PURPOSE_PREFIX: string := "Monthly Salary for "

  datatype Status = Pending | Approved | Rejected

  datatype FundRequest = FundRequest(
    office: OfficeId,
    amount: Amount,
    purpose: string,
    fiscalYear: FiscalYear,
    heading: Heading,
    status: Status)

  /** A row of `fund_transfers`. */
  datatype TransferRecord = TransferRecord(
    requestId: RequestId,
    office: OfficeId,
    ministry: MinistryId,
    amount: Amount)

  /** A row of `office_expenditures`. */
  datatype Expenditure = Expenditure(
    office: OfficeId,
    heading: Heading,
    fiscalYear: FiscalYear,
    amount: Amount,
    description: string)

  /** The key of `budgets`. */
  datatype BudgetKey = BudgetKey(ministry: MinistryId, fiscalYear: FiscalYear)

  /** The unique key of `office_funds`. */
  datatype FundKey = FundKey(office: OfficeId, heading: Heading, fiscalYear: FiscalYear)

  datatype State = State(
    requests: map<RequestId, FundRequest>,   // fund_requests
    nextRequestId: RequestId,                // its auto-increment counter
    offices: map<OfficeId, MinistryId>,      // offices: id -> ministry_id
    budgets: map<BudgetKey, Amount>,         // budgets
    funds: map<FundKey, Amount>,             // office_funds: balance
    transfers: seq<TransferRecord>,          // fund_transfers
    expenditures: seq<Expenditure>)          // office_expenditures

  /** Request ids are handed out by the auto-increment counter, from 1. */
  predicate Valid(s: State)
  {
    && s.nextRequestId >= 1
    && forall id :: id in s.requests ==> 1 <= id < s.nextRequestId
  }

  /** The state of a fresh database: no requests, funds or logs yet. */
  function Initial(offices: map<OfficeId, MinistryId>, budgets: map<BudgetKey, Amount>): (s: State)
    ensures Valid(s)
    ensures s.requests == map[] && s.funds == map[] && s.transfers == [] && s.expenditures == []
  {
    State(map[], 1, offices, budgets, map[], [], [])
  }

  /**
   * How the database behaves during one handler: either every statement
   * succeeds, or the n-th statement the handler issues (counting from 1)
   * reports an error. Statements issued before it have taken effect; a failing
   * statement itself has no effect, and the handler issues nothing after it.
   */
  datatype Storage = Healthy | FailsAt(query: nat)

  predicate Fails(storage: Storage, n: nat)
  {
    storage == FailsAt(n)
  }

  /** The ways a handler can refuse or fail. */
  datatype Error =
    | Forbidden          // 403: wrong role
    | MissingField       // 400: a required body field is missing or falsy
    | NotFound           // 404
    | Insufficient       // 400: budget or fund row missing or too small
    | NoEmployees        // 400: salary total missing or not positive
    | DuplicateRequest   // 400: the month's salary request already exists
    | StorageError       // 500: a statement failed
    | OfficeUnresolved   // the office row is missing: the handler throws

  datatype Result<T> = Ok(value: T) | Err(error: Error)

  /** A handler's effect: the new state and its response. */
  datatype Step<T> = Step(state: State, result: Result<T>)

  /** JavaScript truthiness of the body fields the handlers check. */
  predicate GivenNumber(n: int) { n != 0 }
  predicate GivenText(t: string) { |t| > 0 }

  predicate IsApproved(s: State, id: RequestId)
  {
    id in s.requests && s.requests[id].status == Approved
  }

  /** Every ministry budget row is non-negative. */
  predicate BudgetsNonNegative(s: State)
  {
    forall k :: k in s.budgets ==> s.budgets[k] >= 0
  }

  /** Every office fund balance is non-negative. */
  predicate FundsNonNegative(s: State)
  {
    forall k :: k in s.funds ==> s.funds[k] >= 0
  }

  /** Every stored request asks for a non-negative amount. */
  predicate RequestAmountsNonNegative(s: State)
  {
    forall id :: id in s.requests ==> s.requests[id].amount >= 0
  }

  /**
   * The upsert of `office_funds`: insert the row with balance `amount`, or on
   * a duplicate key add `amount` to the balance already there.
   */
  function Credit(funds: map<FundKey, Amount>, k: FundKey, amount: Amount): (r: map<FundKey, Amount>)
    ensures r.Keys == funds.Keys + {k}
    ensures k in funds ==> r[k] == funds[k] + amount
    ensures k !in funds ==> r[k] == amount
    ensures forall j :: j in funds && j != k ==> r[j] == funds[j]
  {
    if k in funds then funds[k := funds[k] + amount] else funds[k := amount]
  }
}
