/**
 * The fund request store: creating requests, approving or rejecting them one
 * by one or all pending at once, listing them by status, and the monthly
 * salary request, which creates a request after a duplicate check.
 *
 * Each handler is a function from the state before the call (plus the call's
 * inputs) to the state after it and the response.
 */
module Requests {
  import opened Ledger
  import opened Totals

  /** The INSERT into `fund_requests`: a new pending request under the next id. */
  function Insert(s: State, office: OfficeId, amount: Amount, purpose: string,
                  fiscalYear: FiscalYear, heading: Heading): (r: Step<RequestId>)
    requires Valid(s)
    ensures Valid(r.state) && r.result.Ok?
    ensures var id := r.result.value;
      && id !in s.requests
      && r.state.requests == s.requests[id := FundRequest(office, amount, purpose, fiscalYear, heading, Pending)]
      && r.state.nextRequestId > s.nextRequestId
    ensures r.state.offices == s.offices && r.state.budgets == s.budgets && r.state.funds == s.funds
    ensures r.state.transfers == s.transfers && r.state.expenditures == s.expenditures
  {
    var id := s.nextRequestId;
    Step(s.(requests := s.requests[id := FundRequest(office, amount, purpose, fiscalYear, heading, Pending)],
            nextRequestId := id + 1),
         Ok(id))
  }

  /** POST /request. */
  function CreateRequest(s: State, role: Role, office: OfficeId, amount: Amount, purpose: string,
                         fiscalYear: FiscalYear, heading: Heading, storage: Storage): (r: Step<RequestId>)
    requires Valid(s)
    ensures Valid(r.state)
    // only the Office role may ask, and then every field must be given (amount 0 is not)
    ensures role != OFFICE ==> r == Step(s, Err(Forbidden))
    ensures role == OFFICE && !(GivenNumber(office) && GivenNumber(amount) && GivenText(purpose)
                                && GivenText(fiscalYear) && GivenText(heading))
            ==> r == Step(s, Err(MissingField))
    ensures r.result.Ok? <==>
      role == OFFICE && GivenNumber(office) && GivenNumber(amount) && GivenText(purpose)
      && GivenText(fiscalYear) && GivenText(heading) && !Fails(storage, 1)
    // on success exactly one pending request with the given fields is added under a fresh id
    ensures r.result.Ok? ==>
      && r.result.value !in s.requests
      && r.state == s.(requests := s.requests[r.result.value := FundRequest(office, amount, purpose, fiscalYear, heading, Pending)],
                       nextRequestId := r.state.nextRequestId)
    // every failure leaves the tables as they were
    ensures r.result.Err? ==> r.state == s
  {
    if role != OFFICE then Step(s, Err(Forbidden))
    else if !(GivenNumber(office) && GivenNumber(amount) && GivenText(purpose)
              && GivenText(fiscalYear) && GivenText(heading)) then Step(s, Err(MissingField))
    else if Fails(storage, 1) then Step(s, Err(StorageError))
    else Insert(s, office, amount, purpose, fiscalYear, heading)
  }

  /** The two admin decisions on a single request. */
  datatype Decision = Approve | Reject

  function DecidedStatus(d: Decision): (st: Status)
    ensures st != Pending
  {
    match d
    case Approve => Approved
    case Reject => Rejected
  }

  /**
   * POST /approve/:id and POST /reject/:id: an UPDATE of the status by id,
   * whatever the status was, with "no row matched" reported as not found.
   */
  function Decide(s: State, role: Role, id: RequestId, d: Decision, storage: Storage): (r: Step<RequestId>)
    requires Valid(s)
    ensures Valid(r.state)
    ensures role != ADMIN ==> r == Step(s, Err(Forbidden))
    ensures r.result.Ok? <==> role == ADMIN && !Fails(storage, 1) && id in s.requests
    ensures r.result == Err(NotFound) <==> role == ADMIN && !Fails(storage, 1) && id !in s.requests
    // on success the request now has the decided status; nothing else about it, and no other request, changes
    ensures r.result.Ok? ==>
      && r.result.value == id
      && r.state.requests.Keys == s.requests.Keys
      && r.state.requests[id] == s.requests[id].(status := DecidedStatus(d))
      && (forall j :: j in s.requests && j != id ==> r.state.requests[j] == s.requests[j])
      && r.state == s.(requests := r.state.requests)
    ensures r.result.Err? ==> r.state == s
  {
    if role != ADMIN then Step(s, Err(Forbidden))
    else if Fails(storage, 1) then Step(s, Err(StorageError))
    else if id !in s.requests then Step(s, Err(NotFound))
    else Step(s.(requests := s.requests[id := s.requests[id].(status := DecidedStatus(d))]), Ok(id))
  }

  /** The ids of the requests still pending. */
  function PendingIds(s: State): (ids: set<RequestId>)
    ensures forall id :: id in ids <==> id in s.requests && s.requests[id].status == Pending
  {
    set id | id in s.requests && s.requests[id].status == Pending
  }

  /** POST /approve-all: every pending request becomes approved; the count of rows changed is returned. */
  function ApproveAll(s: State, role: Role, storage: Storage): (r: Step<nat>)
    requires Valid(s)
    ensures Valid(r.state)
    ensures role != ADMIN ==> r == Step(s, Err(Forbidden))
    ensures r.result.Ok? <==> role == ADMIN && !Fails(storage, 1)
    ensures r.result.Ok? ==>
      && r.result.value == |PendingIds(s)|
      && PendingIds(r.state) == {}
      && r.state.requests.Keys == s.requests.Keys
      && (forall id :: id in s.requests && s.requests[id].status == Pending ==>
            r.state.requests[id] == s.requests[id].(status := Approved))
      && (forall id :: id in s.requests && s.requests[id].status != Pending ==>
            r.state.requests[id] == s.requests[id])
      && r.state == s.(requests := r.state.requests)
    ensures r.result.Err? ==> r.state == s
  {
    if role != ADMIN then Step(s, Err(Forbidden))
    else if Fails(storage, 1) then Step(s, Err(StorageError))
    else
      var approved := map id | id in s.requests ::
        if s.requests[id].status == Pending then s.requests[id].(status := Approved) else s.requests[id];
      var after := s.(requests := approved);
      assert PendingIds(after) == {};
      Step(after, Ok(|PendingIds(s)|))
  }

  /** Bulk approval is idempotent in effect: a second call in a row approves nothing more. */
  lemma ApproveAllTwice(s: State, storage: Storage)
    requires Valid(s)
    requires !Fails(storage, 1)
    ensures var first := ApproveAll(s, ADMIN, storage);
      && ApproveAll(first.state, ADMIN, storage) == Step(first.state, Ok(0))
  {
  }

  /**
   * GET /pending, /approved and /rejected: the requests with the given status
   * whose office row exists (the listing is an inner join with `offices`).
   */
  function RequestsByStatus(s: State, role: Role, status: Status, storage: Storage): (r: Result<map<RequestId, FundRequest>>)
    ensures role != ADMIN ==> r == Err(Forbidden)
    ensures r.Ok? <==> role == ADMIN && !Fails(storage, 1)
    ensures r.Ok? ==> forall id ::
      id in r.value <==> id in s.requests && s.requests[id].status == status && s.requests[id].office in s.offices
    ensures r.Ok? ==> forall id :: id in r.value ==> r.value[id] == s.requests[id]
  {
    if role != ADMIN then Err(Forbidden)
    else if Fails(storage, 1) then Err(StorageError)
    else Ok(map id | id in s.requests && s.requests[id].status == status && s.requests[id].office in s.offices
                :: s.requests[id])
  }

  /** The three listings split the joined requests: each appears in exactly one of them. */
  lemma ListingsPartition(s: State, id: RequestId)
    requires id in s.requests && s.requests[id].office in s.offices
    ensures var p, a, j := RequestsByStatus(s, ADMIN, Pending, Healthy).value,
                           RequestsByStatus(s, ADMIN, Approved, Healthy).value,
                           RequestsByStatus(s, ADMIN, Rejected, Healthy).value;
      && (id in p || id in a || id in j)
      && !(id in p && id in a) && !(id in p && id in j) && !(id in a && id in j)
  {
  }

  /** Whether some request already has these office, purpose, heading and fiscal year. */
  predicate HasRequest(s: State, office: OfficeId, purpose: string, heading: Heading, fiscalYear: FiscalYear)
  {
    exists id :: id in s.requests
      && s.requests[id].office == office && s.requests[id].purpose == purpose
      && s.requests[id].heading == heading && s.requests[id].fiscalYear == fiscalYear
  }

  /** SUM over the office's employees' tier salaries; no employee at all gives SQL NULL. */
  function SalaryTotal(salaries: seq<Amount>): (r: Option<Amount>)
    ensures r.None? <==> salaries == []
    ensures r.Some? ==> r.value == Sum(salaries, Salary)
    ensures (forall i :: 0 <= i < |salaries| ==> salaries[i] > 0) && salaries != [] ==> r.Some? && r.value > 0
  {
    if salaries == [] then None
    else
      var rest := SalaryTotal(salaries[..|salaries| - 1]);
      Some((if rest.Some? then rest.value else 0) + salaries[|salaries| - 1])
  }

  datatype Option<T> = None | Some(value: T)

  /** One employee's salary, as the SUM adds it. */
  function Salary(a: Amount): int { a }

  /** The purpose text of the salary request for `month`. */
  function SalaryPurpose(month: string): (p: string)
    ensures |p| == |SALARY_PURPOSE_PREFIX| + |month|
    ensures p[..|SALARY_PURPOSE_PREFIX|] == SALARY_PURPOSE_PREFIX && p[|SALARY_PURPOSE_PREFIX|..] == month
  {
    SALARY_PURPOSE_PREFIX + month
  }

  /**
   * POST /salaries/request-monthly: `salaries` is the monthly tier salary of
   * each of the office's employees (the rows the SUM runs over).
   */
  function RequestMonthlySalary(s: State, role: Role, office: OfficeId, fiscalYear: FiscalYear, month: string,
                                salaries: seq<Amount>, storage: Storage): (r: Step<RequestId>)
    requires Valid(s)
    ensures Valid(r.state)
    ensures role != OFFICE ==> r == Step(s, Err(Forbidden))
    ensures role == OFFICE && !(GivenNumber(office) && GivenText(fiscalYear) && GivenText(month))
            ==> r == Step(s, Err(MissingField))
    // a missing or non-positive total is refused before the duplicate check
    ensures r.result == Err(NoEmployees) <==>
      role == OFFICE && GivenNumber(office) && GivenText(fiscalYear) && GivenText(month) && !Fails(storage, 1)
      && (SalaryTotal(salaries).None? || SalaryTotal(salaries).value <= 0)
    // a second request for the same office, month and fiscal year is refused, as a duplicate once the total is positive
    ensures HasRequest(s, office, SalaryPurpose(month), SALARY_HEADING, fiscalYear) ==> r.result.Err?
    ensures (role == OFFICE && GivenNumber(office) && GivenText(fiscalYear) && GivenText(month)
             && SalaryTotal(salaries).Some? && SalaryTotal(salaries).value > 0 && !Fails(storage, 1) && !Fails(storage, 2)
             && HasRequest(s, office, SalaryPurpose(month), SALARY_HEADING, fiscalYear))
            ==> r == Step(s, Err(DuplicateRequest))
    ensures r.result.Ok? <==>
      && role == OFFICE && GivenNumber(office) && GivenText(fiscalYear) && GivenText(month)
      && SalaryTotal(salaries).Some? && SalaryTotal(salaries).value > 0
      && !HasRequest(s, office, SalaryPurpose(month), SALARY_HEADING, fiscalYear)
      && !Fails(storage, 1) && !Fails(storage, 2) && !Fails(storage, 3)
    // on success exactly one pending request for the whole salary total is added
    ensures r.result.Ok? ==>
      && r.result.value !in s.requests
      && r.state == s.(requests := s.requests[r.result.value := FundRequest(office, SalaryTotal(salaries).value,
                                                                             SalaryPurpose(month), fiscalYear,
                                                                             SALARY_HEADING, Pending)],
                       nextRequestId := r.state.nextRequestId)
      && HasRequest(r.state, office, SalaryPurpose(month), SALARY_HEADING, fiscalYear)
    ensures r.result.Err? ==> r.state == s
  {
    if role != OFFICE then Step(s, Err(Forbidden))
    else if !(GivenNumber(office) && GivenText(fiscalYear) && GivenText(month)) then Step(s, Err(MissingField))
    else if Fails(storage, 1) then Step(s, Err(StorageError))
    else
      var total := SalaryTotal(salaries);
      if total.None? || total.value <= 0 then Step(s, Err(NoEmployees))
      else
        var purpose := SalaryPurpose(month);
        if Fails(storage, 2) then Step(s, Err(StorageError))
        else if HasRequest(s, office, purpose, SALARY_HEADING, fiscalYear) then Step(s, Err(DuplicateRequest))
        else if Fails(storage, 3) then Step(s, Err(StorageError))
        else
          var r := Insert(s, office, total.value, purpose, fiscalYear, SALARY_HEADING);
          assert r.state.requests[r.result.value].purpose == purpose;
          r
  }

  /**
   * Right after a successful salary request, asking again for the same month fails and changes
   * nothing; whenever the new salary total is positive it is refused as a duplicate.
   */
  lemma SalaryRequestOncePerMonth(s: State, office: OfficeId, fiscalYear: FiscalYear, month: string,
                                  salaries: seq<Amount>, salaries': seq<Amount>)
    requires Valid(s)
    requires RequestMonthlySalary(s, OFFICE, office, fiscalYear, month, salaries, Healthy).result.Ok?
    ensures var after := RequestMonthlySalary(s, OFFICE, office, fiscalYear, month, salaries, Healthy).state;
      var again := RequestMonthlySalary(after, OFFICE, office, fiscalYear, month, salaries', Healthy);
      && again.result.Err? && again.state == after
      && (SalaryTotal(salaries').Some? && SalaryTotal(salaries').value > 0 ==> again.result == Err(DuplicateRequest))
  {
  }
}
