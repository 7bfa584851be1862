/**
 * Concrete runs of the fund routes: the life of one request from creation to
 * spending, and what a request for a negative amount does to the books.
 */
module Scenarios {
  import opened Ledger
  import Requests
  import Transfers
  import Spending

  /** Ministry 5 holds 1000 for fiscal year "2025"; office 9 belongs to it. */
  function Start(): (s: State)
    ensures Valid(s) && s.offices == map[9 := 5] && s.budgets == map[BudgetKey(5, "2025") := 1000]
    ensures s.requests == map[] && s.funds == map[] && s.transfers == [] && s.expenditures == []
  {
    Initial(map[9 := 5], map[BudgetKey(5, "2025") := 1000])
  }

  /**
   * Office 9 asks for 400 under "Salaries", the admin approves and transfers it: the budget drops to
   * 600, the office fund holds 400, one transfer is logged; spending 500 from that fund is then refused
   * with nothing changed.
   */
  lemma RequestToSpend()
    ensures var s0 := Start();
      var created := Requests.CreateRequest(s0, OFFICE, 9, 400, "Staff pay", "2025", "Salaries", Healthy);
      var approved := Requests.Decide(created.state, ADMIN, 1, Requests.Approve, Healthy);
      var moved := Transfers.Transfer(approved.state, ADMIN, 1, Healthy);
      var spent := Spending.Spend(moved.state, OFFICE, 9, "Salaries", "2025", 500, "Wages", Healthy);
      && created.result == Ok(1)
      && approved.result == Ok(1)
      && moved.result == Ok(1)
      && moved.state.budgets == map[BudgetKey(5, "2025") := 600]
      && moved.state.funds == map[FundKey(9, "Salaries", "2025") := 400]
      && moved.state.transfers == [TransferRecord(1, 9, 5, 400)]
      && spent == Step(moved.state, Err(Insufficient))
  {
    var s0 := Start();
    var created := Requests.CreateRequest(s0, OFFICE, 9, 400, "Staff pay", "2025", "Salaries", Healthy);
    var request := FundRequest(9, 400, "Staff pay", "2025", "Salaries", Pending);
    assert created.state.requests == map[1 := request];
    var approved := Requests.Decide(created.state, ADMIN, 1, Requests.Approve, Healthy);
    assert approved.state.requests == map[1 := request.(status := Approved)];
    assert approved.state.budgets == s0.budgets && approved.state.funds == map[];
    assert Transfers.Transferable(approved.state, 1);
    var moved := Transfers.Transfer(approved.state, ADMIN, 1, Healthy);
    assert moved.state.budgets.Keys == {BudgetKey(5, "2025")};
    assert moved.state.funds.Keys == {FundKey(9, "Salaries", "2025")};
  }

  /**
   * A request for a negative amount passes every check: once approved and transferred it raises the
   * ministry budget and creates an office fund row with a negative balance.
   */
  lemma NegativeRequestOverdrawsFund()
    ensures var s0 := Start();
      var created := Requests.CreateRequest(s0, OFFICE, 9, -100, "Refund", "2025", "Salaries", Healthy);
      var approved := Requests.Decide(created.state, ADMIN, 1, Requests.Approve, Healthy);
      var moved := Transfers.Transfer(approved.state, ADMIN, 1, Healthy);
      && moved.result.Ok?
      && moved.state.budgets[BudgetKey(5, "2025")] == 1100
      && moved.state.funds[FundKey(9, "Salaries", "2025")] == -100
      && !FundsNonNegative(moved.state)
  {
    var s0 := Start();
    var created := Requests.CreateRequest(s0, OFFICE, 9, -100, "Refund", "2025", "Salaries", Healthy);
    var request := FundRequest(9, -100, "Refund", "2025", "Salaries", Pending);
    assert created.state.requests == map[1 := request];
    var approved := Requests.Decide(created.state, ADMIN, 1, Requests.Approve, Healthy);
    assert approved.state.requests == map[1 := request.(status := Approved)];
    assert Transfers.Transferable(approved.state, 1);
  }
}
