/**
 * An office spending from its fund under one heading, and the listing of an
 * office's funds for a fiscal year.
 *
 * The spend handler issues three statements with no transaction around them:
 * (1) read the fund row, (2) debit it, (3) append the expenditure record. A
 * failure of statement 3 leaves the debit in place with no record of it.
 */
module Spending {
  import opened Ledger
  import opened Totals

  /** All five body fields are present and truthy. */
  predicate SpendFieldsGiven(office: OfficeId, heading: Heading, fiscalYear: FiscalYear,
                             amount: Amount, description: string)
  {
    GivenNumber(office) && GivenText(heading) && GivenText(fiscalYear) && GivenNumber(amount)
    && GivenText(description)
  }

  /** The fund row exists and holds at least `amount`. */
  predicate Covers(s: State, k: FundKey, amount: Amount)
  {
    k in s.funds && s.funds[k] >= amount
  }

  /** POST /spend, in the handler's statement order; the response holds the new expenditure's id. */
  function Spend(s: State, role: Role, office: OfficeId, heading: Heading, fiscalYear: FiscalYear,
                 amount: Amount, description: string, storage: Storage): (r: Step<int>)
    requires Valid(s)
    ensures Valid(r.state)
    // only the fund table and the expenditure log are ever touched
    ensures r.state == s.(funds := r.state.funds, expenditures := r.state.expenditures)
    ensures role != OFFICE ==> r == Step(s, Err(Forbidden))
    ensures role == OFFICE && !SpendFieldsGiven(office, heading, fiscalYear, amount, description)
            ==> r == Step(s, Err(MissingField))
    // a missing or too small fund row refuses the spend with nothing changed
    ensures (role == OFFICE && SpendFieldsGiven(office, heading, fiscalYear, amount, description) && !Fails(storage, 1)
             && !Covers(s, FundKey(office, heading, fiscalYear), amount)) ==> r == Step(s, Err(Insufficient))
    ensures r.state != s ==>
      && role == OFFICE && SpendFieldsGiven(office, heading, fiscalYear, amount, description)
      && Covers(s, FundKey(office, heading, fiscalYear), amount) && !Fails(storage, 1) && !Fails(storage, 2)
    ensures r.result.Ok? <==>
      && role == OFFICE && SpendFieldsGiven(office, heading, fiscalYear, amount, description)
      && Covers(s, FundKey(office, heading, fiscalYear), amount)
      && !Fails(storage, 1) && !Fails(storage, 2) && !Fails(storage, 3)
    // success: the balance drops by exactly the amount and not below zero, one record is appended,
    // and no other fund row changes
    ensures r.result.Ok? ==>
      && var k := FundKey(office, heading, fiscalYear);
      && r.state.funds.Keys == s.funds.Keys
      && r.state.funds[k] == s.funds[k] - amount >= 0
      && (forall j :: j in s.funds && j != k ==> r.state.funds[j] == s.funds[j])
      && r.state.expenditures == s.expenditures + [Expenditure(office, heading, fiscalYear, amount, description)]
      && r.result.value == |r.state.expenditures|
    // a spend never drives a fund below zero
    ensures FundsNonNegative(s) ==> FundsNonNegative(r.state)
  {
    if role != OFFICE then Step(s, Err(Forbidden))
    else if !SpendFieldsGiven(office, heading, fiscalYear, amount, description) then Step(s, Err(MissingField))
    else
      var k := FundKey(office, heading, fiscalYear);
      // 1. the balance check
      if Fails(storage, 1) then Step(s, Err(StorageError))
      else if !Covers(s, k, amount) then Step(s, Err(Insufficient))
      // 2. the debit
      else if Fails(storage, 2) then Step(s, Err(StorageError))
      else
        var debited := s.(funds := s.funds[k := s.funds[k] - amount]);
        // 3. the expenditure record
        if Fails(storage, 3) then Step(debited, Err(StorageError))
        else
          var logged := debited.(expenditures := s.expenditures + [Expenditure(office, heading, fiscalYear, amount, description)]);
          Step(logged, Ok(|logged.expenditures|))
  }

  /** The whole new state of a spend that passed every check, by the statement that failed, if any. */
  lemma SpendEffect(s: State, office: OfficeId, heading: Heading, fiscalYear: FiscalYear,
                    amount: Amount, description: string, storage: Storage)
    requires Valid(s) && SpendFieldsGiven(office, heading, fiscalYear, amount, description)
    requires Covers(s, FundKey(office, heading, fiscalYear), amount)
    requires !Fails(storage, 1) && !Fails(storage, 2)
    ensures var r := Spend(s, OFFICE, office, heading, fiscalYear, amount, description, storage);
      var k := FundKey(office, heading, fiscalYear);
      && r.state.funds == s.funds[k := s.funds[k] - amount]
      && (Fails(storage, 3) ==> r.state.expenditures == s.expenditures)
      && (!Fails(storage, 3) ==> r.state.expenditures == s.expenditures + [Expenditure(office, heading, fiscalYear, amount, description)])
  {
  }

  /**
   * Conservation for one call: unless the expenditure log fails, the funds' total drops by exactly
   * what the expenditure log gains.
   */
  lemma SpendConserves(s: State, role: Role, office: OfficeId, heading: Heading, fiscalYear: FiscalYear,
                       amount: Amount, description: string, storage: Storage)
    requires Valid(s) && !Fails(storage, 3)
    ensures var r := Spend(s, role, office, heading, fiscalYear, amount, description, storage);
      Total(r.state.funds) == Total(s.funds) - (Sum(r.state.expenditures, ExpenditureAmount) - Sum(s.expenditures, ExpenditureAmount))
  {
    var r := Spend(s, role, office, heading, fiscalYear, amount, description, storage);
    if r.state != s {
      var k, e := FundKey(office, heading, fiscalYear), Expenditure(office, heading, fiscalYear, amount, description);
      SpendEffect(s, office, heading, fiscalYear, amount, description, storage);
      SumAppend(s.expenditures, e, ExpenditureAmount);
      DebitAccounted(s.funds, r.state.funds, k, amount, Sum(s.expenditures, ExpenditureAmount), Sum(r.state.expenditures, ExpenditureAmount));
    }
  }

  /** A failed expenditure insert leaves the debit in place with no record: the amount leaves the funds unlogged. */
  lemma LogFailureLosesAmount(s: State, office: OfficeId, heading: Heading, fiscalYear: FiscalYear,
                              amount: Amount, description: string)
    requires Valid(s) && SpendFieldsGiven(office, heading, fiscalYear, amount, description)
    requires Covers(s, FundKey(office, heading, fiscalYear), amount)
    ensures var r := Spend(s, OFFICE, office, heading, fiscalYear, amount, description, FailsAt(3));
      && r.result == Err(StorageError)
      && r.state.expenditures == s.expenditures
      && Total(r.state.funds) == Total(s.funds) - amount
  {
    var k := FundKey(office, heading, fiscalYear);
    SpendEffect(s, office, heading, fiscalYear, amount, description, FailsAt(3));
    DebitTotal(s.funds, k, amount);
  }

  /**
   * GET /office-funds/:office_id/:fiscal_year: the balance under each heading the office holds a
   * fund row for in that fiscal year; no such row at all is reported as not found.
   */
  function OfficeFunds(s: State, role: Role, office: OfficeId, fiscalYear: FiscalYear, storage: Storage): (r: Result<map<Heading, Amount>>)
    ensures !(role == ADMIN || role == OFFICE) ==> r == Err(Forbidden)
    ensures r.Ok? <==>
      (role == ADMIN || role == OFFICE) && !Fails(storage, 1)
      && exists k :: k in s.funds && k.office == office && k.fiscalYear == fiscalYear
    ensures r.Ok? ==> r.value != map[]
    ensures r.Ok? ==> forall h :: h in r.value <==> FundKey(office, h, fiscalYear) in s.funds
    ensures r.Ok? ==> forall h :: h in r.value ==> r.value[h] == s.funds[FundKey(office, h, fiscalYear)]
    ensures r == Err(NotFound) <==>
      (role == ADMIN || role == OFFICE) && !Fails(storage, 1)
      && forall k :: k in s.funds ==> !(k.office == office && k.fiscalYear == fiscalYear)
  {
    if !(role == ADMIN || role == OFFICE) then Err(Forbidden)
    else if Fails(storage, 1) then Err(StorageError)
    else
      var headings := map k | k in s.funds && k.office == office && k.fiscalYear == fiscalYear :: k.heading := s.funds[k];
      assert forall k :: k in s.funds && k.office == office && k.fiscalYear == fiscalYear ==> k.heading in headings;
      if headings == map[] then Err(NotFound) else Ok(headings)
  }
}
