/**
 * The state-changing fund routes as the server runs them: one object holding
 * the six tables and the request counter, whose methods update them in place,
 * one statement at a time, in the order the handlers issue their statements.
 * Each method is proved to leave exactly the state, and give exactly the
 * response, that the handler's function in Requests, Transfers or Spending
 * describes; the properties of the routes are proved about those functions.
 */
module Routes {
  import opened Ledger
  import Requests
  import Transfers
  import Spending

  class FundLedger {
    var requests: map<RequestId, FundRequest>
    var nextRequestId: RequestId
    var offices: map<OfficeId, MinistryId>
    var budgets: map<BudgetKey, Amount>
    var funds: map<FundKey, Amount>
    var transfers: seq<TransferRecord>
    var expenditures: seq<Expenditure>

    /** The tables and the counter as one value. */
    function Model(): State
      reads this
    {
      State(requests, nextRequestId, offices, budgets, funds, transfers, expenditures)
    }

    ghost predicate Valid()
      reads this
    {
      Ledger.Valid(Model())
    }

    /** A fresh database holding the given offices and ministry budgets. */
    constructor(offices: map<OfficeId, MinistryId>, budgets: map<BudgetKey, Amount>)
      ensures Valid() && Model() == Initial(offices, budgets)
    {
      requests := map[];
      nextRequestId := 1;
      this.offices := offices;
      this.budgets := budgets;
      funds := map[];
      transfers := [];
      expenditures := [];
    }

    /** The INSERT into `fund_requests`: the auto-increment counter hands out the id. */
    method InsertRequest(office: OfficeId, amount: Amount, purpose: string, fiscalYear: FiscalYear, heading: Heading)
      returns (id: RequestId)
      requires Valid()
      modifies this
      ensures Valid()
      ensures var step := Requests.Insert(old(Model()), office, amount, purpose, fiscalYear, heading);
        Model() == step.state && Ok(id) == step.result
    {
      id := nextRequestId;
      requests := requests[id := FundRequest(office, amount, purpose, fiscalYear, heading, Pending)];
      nextRequestId := nextRequestId + 1;
    }

    /** POST /request. */
    method CreateRequest(role: Role, office: OfficeId, amount: Amount, purpose: string, fiscalYear: FiscalYear,
                         heading: Heading, storage: Storage) returns (r: Result<RequestId>)
      requires Valid()
      modifies this
      ensures Valid()
      ensures var step := Requests.CreateRequest(old(Model()), role, office, amount, purpose, fiscalYear, heading, storage);
        Model() == step.state && r == step.result
    {
      if role != OFFICE {
        return Err(Forbidden);
      }
      if !(GivenNumber(office) && GivenNumber(amount) && GivenText(purpose) && GivenText(fiscalYear) && GivenText(heading)) {
        return Err(MissingField);
      }
      if Fails(storage, 1) {
        return Err(StorageError);
      }
      var id := InsertRequest(office, amount, purpose, fiscalYear, heading);
      return Ok(id);
    }

    /** POST /approve/:id and POST /reject/:id. */
    method Decide(role: Role, id: RequestId, d: Requests.Decision, storage: Storage) returns (r: Result<RequestId>)
      requires Valid()
      modifies this
      ensures Valid()
      ensures var step := Requests.Decide(old(Model()), role, id, d, storage);
        Model() == step.state && r == step.result
    {
      if role != ADMIN {
        return Err(Forbidden);
      }
      if Fails(storage, 1) {
        return Err(StorageError);
      }
      // no row matched the id
      if id !in requests {
        return Err(NotFound);
      }
      requests := requests[id := requests[id].(status := Requests.DecidedStatus(d))];
      return Ok(id);
    }

    /** POST /approve-all. */
    method ApproveAll(role: Role, storage: Storage) returns (r: Result<nat>)
      requires Valid()
      modifies this
      ensures Valid()
      ensures var step := Requests.ApproveAll(old(Model()), role, storage);
        Model() == step.state && r == step.result
    {
      if role != ADMIN {
        return Err(Forbidden);
      }
      if Fails(storage, 1) {
        return Err(StorageError);
      }
      var affected := |Requests.PendingIds(Model())|;
      requests := map id | id in requests ::
        if requests[id].status == Pending then requests[id].(status := Approved) else requests[id];
      return Ok(affected);
    }

    /** POST /transfer/:id, statement by statement. */
    method Transfer(role: Role, id: RequestId, storage: Storage) returns (r: Result<int>)
      requires Valid()
      modifies this
      ensures Valid()
      ensures var step := Transfers.Transfer(old(Model()), role, id, storage);
        Model() == step.state && r == step.result
    {
      if role != ADMIN {
        return Err(Forbidden);
      }
      // 1. the approved request
      if Fails(storage, 1) {
        return Err(StorageError);
      }
      if !(id in requests && requests[id].status == Approved) {
        return Err(NotFound);
      }
      var request := requests[id];
      // 2. the office's ministry
      if Fails(storage, 2) {
        return Err(StorageError);
      }
      if request.office !in offices {
        return Err(OfficeUnresolved);
      }
      var ministry := offices[request.office];
      // 3. the budget row
      if Fails(storage, 3) {
        return Err(StorageError);
      }
      var bk := BudgetKey(ministry, request.fiscalYear);
      if bk !in budgets || budgets[bk] < request.amount {
        return Err(Insufficient);
      }
      r := RecordTransfer(id, storage);
    }

    /** Statements 4 to 6 of POST /transfer/:id, once the request, its office and its budget have passed. */
    method RecordTransfer(id: RequestId, storage: Storage) returns (r: Result<int>)
      requires Valid() && Transfers.Transferable(Model(), id) && Transfers.NoFailureUpTo(storage, 3)
      modifies this
      ensures Valid()
      ensures var step := Transfers.Transfer(old(Model()), ADMIN, id, storage);
        Model() == step.state && r == step.result
    {
      Transfers.TransferEffect(Model(), id, storage);
      var request := requests[id];
      var ministry := offices[request.office];
      var bk := BudgetKey(ministry, request.fiscalYear);
      // 4. the transfer record
      if Fails(storage, 4) {
        return Err(StorageError);
      }
      transfers := transfers + [TransferRecord(id, request.office, ministry, request.amount)];
      var transferId := |transfers|;
      // 5. the budget debit
      if Fails(storage, 5) {
        return Err(StorageError);
      }
      budgets := budgets[bk := budgets[bk] - request.amount];
      // 6. the office fund credit, inserting the row or adding to it
      if Fails(storage, 6) {
        return Err(StorageError);
      }
      funds := Credit(funds, FundKey(request.office, request.heading, request.fiscalYear), request.amount);
      return Ok(transferId);
    }

    /** POST /spend, statement by statement. */
    method Spend(role: Role, office: OfficeId, heading: Heading, fiscalYear: FiscalYear, amount: Amount,
                 description: string, storage: Storage) returns (r: Result<int>)
      requires Valid()
      modifies this
      ensures Valid()
      ensures var step := Spending.Spend(old(Model()), role, office, heading, fiscalYear, amount, description, storage);
        Model() == step.state && r == step.result
    {
      if role != OFFICE {
        return Err(Forbidden);
      }
      if !Spending.SpendFieldsGiven(office, heading, fiscalYear, amount, description) {
        return Err(MissingField);
      }
      var k := FundKey(office, heading, fiscalYear);
      // 1. the balance check
      if Fails(storage, 1) {
        return Err(StorageError);
      }
      if k !in funds || funds[k] < amount {
        return Err(Insufficient);
      }
      // 2. the debit
      if Fails(storage, 2) {
        return Err(StorageError);
      }
      funds := funds[k := funds[k] - amount];
      // 3. the expenditure record
      if Fails(storage, 3) {
        return Err(StorageError);
      }
      expenditures := expenditures + [Expenditure(office, heading, fiscalYear, amount, description)];
      return Ok(|expenditures|);
    }

    /** POST /salaries/request-monthly, statement by statement; `salaries` are the rows the SUM runs over. */
    method RequestMonthlySalary(role: Role, office: OfficeId, fiscalYear: FiscalYear, month: string,
                                salaries: seq<Amount>, storage: Storage) returns (r: Result<RequestId>)
      requires Valid()
      modifies this
      ensures Valid()
      ensures var step := Requests.RequestMonthlySalary(old(Model()), role, office, fiscalYear, month, salaries, storage);
        Model() == step.state && r == step.result
    {
      if role != OFFICE {
        return Err(Forbidden);
      }
      if !(GivenNumber(office) && GivenText(fiscalYear) && GivenText(month)) {
        return Err(MissingField);
      }
      // 1. the salary total
      if Fails(storage, 1) {
        return Err(StorageError);
      }
      var total := Requests.SalaryTotal(salaries);
      if total.None? || total.value <= 0 {
        return Err(NoEmployees);
      }
      // 2. the duplicate check
      var purpose := Requests.SalaryPurpose(month);
      if Fails(storage, 2) {
        return Err(StorageError);
      }
      if Requests.HasRequest(Model(), office, purpose, SALARY_HEADING, fiscalYear) {
        return Err(DuplicateRequest);
      }
      // 3. the insert
      if Fails(storage, 3) {
        return Err(StorageError);
      }
      var id := InsertRequest(office, total.value, purpose, fiscalYear, SALARY_HEADING);
      return Ok(id);
    }
  }
}
