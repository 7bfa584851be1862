# Fund ledger of the budget tracking server

The server tracks public money from ministry budgets to office funds:

- An office user asks for funds under a spending heading (`POST /request`). The salary route does the same for its employees' monthly pay (`POST /salaries/request-monthly`).
- An admin approves or rejects requests, one at a time or all pending at once.
- An admin then transfers an approved request. This appends a record to the transfer log, debits the ministry's budget for the request's fiscal year, and credits the office fund for the request's heading.
- An office spends from that fund, which debits the balance and appends to the expenditure log.

Every state-changing handler is modelled twice:

- As a function from the tables before the call to the tables after it plus the response (modules `Requests`, `Transfers`, `Spending`).
- As a method of the class `Routes.FundLedger`. The class holds the six tables and the request id counter as fields and updates them one statement at a time, in the order the handler issues its statements. Each method is proved to reach exactly the state and response the function gives.

The read-only handlers (`/pending`, `/approved`, `/rejected`, `/budget/...` and `/office-funds/...`) are modelled only as functions of the tables.

The properties are proved about the functions. `Runs`, `BudgetRows` and `FundRows` lift them to arbitrary sequences of calls.

Modelling choices:

- **Storage failures.** The handlers run their SQL statements one after another, with no transaction. Each call therefore takes a `Storage` parameter: either every statement succeeds, or the n-th statement fails. A failing statement has no effect, and the statements before it keep theirs. This is how the model shows the partial effects of a transfer or spend that fails midway:
  - a record without a debit;
  - a debit without a credit;
  - a debit without an expenditure record.
- **Roles and fields.** The caller's role is a parameter: 1 is admin, 3 is office. A body field is "missing" when it is falsy: 0 for a number, the empty string for text. So a request or spend with a negative amount passes every check, as it does in the code.
- **What the handlers do not check.** Approve and reject update the status whatever it was. A transfer neither checks whether the request was already transferred nor changes its status, so the same request can be transferred twice: `Transfers.RepeatedTransfer` shows the second transfer going through.
- **Matched rows.** The MySQL client reports matched rows as affected rows, its default. So approving or rejecting an existing request always succeeds, even when the status does not change. A missing id is the only "not found".
- **Missing office row.** If the request's office has no row, the transfer handler throws before responding. The model reports this as `OfficeUnresolved` and changes nothing.
- **Negative amounts.** Request creation rejects only a zero amount, not every amount that is not positive. `Scenarios.NegativeRequestOverdrawsFund` shows the consequence: a request for -100 that is approved and transferred raises the budget and leaves the office fund at -100. So "every office fund balance stays non-negative" is proved only for runs whose plain requests never ask for a negative amount. The salary route needs no such bound, because it refuses any total that is not positive.

The invariants proved over sequences of calls:

- every ministry budget row stays non-negative, whatever fails;
- every office fund balance stays non-negative, as long as no request asks for a negative amount;
- for each budget row, what the transfers drew on it never exceeds its initial amount, and the row holds exactly its initial amount less that;
- for each office fund row, the balance is exactly what the transfers credited to it less what the expenditures spent from it.

The last two, and the totals over all rows, hold for runs in which no statement fails. The failure lemmas show how a failing statement breaks them.

## Model

| member | source | states |
|---|---|---|
| Ledger.Credit | server/routes/fundRoutes.js:187-191 | the upsert: the row exists afterwards; a new row holds the amount, an existing row gains it; no other row changes |
| Requests.Insert | server/routes/fundRoutes.js:17-22 | the new request is pending, carries the given fields, and gets an id not used before; no other table changes |
| Requests.CreateRequest | server/routes/fundRoutes.js:6-25 | forbidden unless the caller is an office user; missing field when any field is falsy; succeeds exactly when both checks pass and the insert does not fail, and then adds one pending request under a fresh id; every failure leaves the tables unchanged |
| Requests.Decide | server/routes/fundRoutes.js:45-88 | admin only; succeeds exactly when the id exists, whatever its status, and then sets only that request's status to approved or rejected; an unknown id is reported as not found |
| Requests.ApproveAll | server/routes/fundRoutes.js:387-402 | admin only; the count returned is the number of requests that were pending; afterwards none is pending; every pending request becomes approved and every other request is unchanged |
| Requests.ApproveAllTwice | server/routes/fundRoutes.js:392-399 | a second bulk approval right after the first approves nothing and returns 0 |
| Requests.RequestsByStatus | server/routes/fundRoutes.js:27-41 | admin only; lists exactly the requests with the given status whose office row exists, and each with its stored fields |
| Requests.ListingsPartition | server/routes/fundRoutes.js:91-124 | every request whose office exists appears in exactly one of the pending, approved and rejected listings |
| Requests.SalaryTotal | server/routes/fundRoutes.js:336-346 | the SUM is NULL exactly when the office has no employee; otherwise it is the sum of the salaries, which is positive when every salary is positive |
| Requests.SalaryPurpose | server/routes/fundRoutes.js:351 | the purpose is "Monthly Salary for " followed by the month |
| Requests.RequestMonthlySalary | server/routes/fundRoutes.js:324-384 | office only; every field required; a NULL or non-positive total is refused before the duplicate check; an existing request with the same office, purpose, heading and fiscal year is refused, as a duplicate with nothing changed once the total is positive; on success one pending request for the whole total under "Salaries" is added |
| Requests.SalaryRequestOncePerMonth | server/routes/fundRoutes.js:350-363 | right after a successful salary request, asking again for the same month fails and changes nothing, and is refused as a duplicate whenever the new total is positive |
| Transfers.Transfer | server/routes/fundRoutes.js:127-216 | admin only; nothing changes unless the request is approved, its office exists and its ministry's budget row holds at least the amount; succeeds exactly when those hold and no statement fails; on success one record is appended, its id is the log's length, the budget row drops by the amount and stays non-negative, and the office fund is created or raised by the amount; no other row changes; requests are never touched; no transfer, whatever fails, drives a budget below zero |
| Transfers.TransferEffect | server/routes/fundRoutes.js:166-203 | once the checks pass, the outcome for each failing statement: the record alone, the record and the debit, or all three with the new transfer's id |
| Transfers.DebitFailureLeavesRecordOnly | server/routes/fundRoutes.js:179-185 | a failed budget debit leaves the transfer record with neither debit nor credit |
| Transfers.CreditFailureLosesAmount | server/routes/fundRoutes.js:192-198 | a failed office credit leaves the record and the debit, so the budgets' total drops by the amount while the funds are unchanged |
| Transfers.TransferConservesBudgets | server/routes/fundRoutes.js:166-185 | unless the debit fails, the budgets' total drops by exactly what the transfer log gains |
| Transfers.TransferConservesFunds | server/routes/fundRoutes.js:166-198 | unless the debit or credit fails, the funds' total rises by exactly what the transfer log gains |
| Transfers.RepeatedTransfer | server/routes/fundRoutes.js:134-142 | after a successful transfer the request is still approved; a second transfer of it succeeds exactly when the remaining budget covers the amount, and then appends a second identical record |
| Transfers.BudgetLookup | server/routes/fundRoutes.js:219-243 | admin only; returns the row's amount exactly when the row exists, and not found exactly when it does not |
| Spending.Spend | server/routes/fundRoutes.js:271-321 | office only; every field required; a missing or too small fund row is refused with nothing changed; succeeds exactly when the row covers the amount and no statement fails, and then lowers only that row, by the amount and not below zero, and appends one expenditure whose id is the log's length; only funds and expenditures are ever touched; no spend drives a fund below zero |
| Spending.SpendEffect | server/routes/fundRoutes.js:294-316 | once the balance check passes, the debit is in place, and the expenditure is appended exactly when its insert does not fail |
| Spending.SpendConserves | server/routes/fundRoutes.js:294-316 | unless the expenditure insert fails, the funds' total drops by exactly what the expenditure log gains |
| Spending.LogFailureLosesAmount | server/routes/fundRoutes.js:303-309 | a failed expenditure insert leaves the debit unrecorded: the funds' total drops by the amount and the log is unchanged |
| Spending.OfficeFunds | server/routes/fundRoutes.js:246-268 | admin or office only; an authorised call whose read does not fail returns the listing exactly when the office holds a fund row in that fiscal year, and not found exactly when it holds none; the listing has the balance under each heading the office holds in that fiscal year, exactly those headings |
| Runs.ApplyKeepsBudgetsNonNegative | server/routes/fundRoutes.js:156-185 | for one call of any route, failing statements included: no budget goes below zero |
| Runs.RunKeepsBudgetsNonNegative | server/routes/fundRoutes.js:156-185 | every budget row stays non-negative over any sequence of calls, failing statements included |
| Runs.ApplyKeepsFundsNonNegative | server/routes/fundRoutes.js:282-301 | for one call that is not a request for a negative amount, given that every stored request is non-negative: no office fund goes below zero, and every stored request stays non-negative; salary calls are unrestricted |
| Runs.RunKeepsFundsNonNegative | server/routes/fundRoutes.js:282-301 | every office fund stays non-negative over any sequence of such calls |
| Runs.ApplyConserves | server/routes/fundRoutes.js:166-198 | one call without failing statements keeps both the budget side (budgets plus the transfer log) and the fund side (funds plus expenditures less transfers) |
| Runs.RunConserves | server/routes/fundRoutes.js:166-316 | over any sequence of calls without failing statements, what left the budgets is what the transfer log records, which is what the funds gained plus what was spent |
| BudgetRows.ApplyKeepsRecordsKnown | server/routes/fundRoutes.js:167-169 | whatever fails, every transfer record refers to a stored request |
| BudgetRows.TransferKeepsRowBooks | server/routes/fundRoutes.js:156-178 | unless the debit fails, a transfer lowers the one row it draws on by exactly what the record it appends draws on that row, and leaves every other row's books alone |
| BudgetRows.ApplyKeepsRowBooks | server/routes/fundRoutes.js:127-216 | one call without failing statements keeps every budget row's books |
| BudgetRows.RunKeepsRowBooks | server/routes/fundRoutes.js:127-216 | the same over any sequence of calls; no budget row is added or removed |
| BudgetRows.TransfersWithinBudget | server/routes/fundRoutes.js:156-178 | per (ministry, fiscal year), from a fresh database: the row holds its initial amount less what the log draws on it, which never exceeds the initial amount |
| FundRows.TransferKeepsFundRowBooks | server/routes/fundRoutes.js:166-198 | unless the debit or credit fails, a transfer raises the one fund row it credits by exactly what the record it appends credits to that row (found through its request's heading and fiscal year), and leaves every other row's books alone |
| FundRows.SpendKeepsFundRowBooks | server/routes/fundRoutes.js:294-316 | unless the expenditure insert fails, a spend lowers the one fund row it debits by exactly what the expenditure it appends records against that row |
| FundRows.ApplyKeepsFundRowBooks | server/routes/fundRoutes.js:127-321 | one call without failing statements keeps every fund row's books: balance plus spent less credited |
| FundRows.RunKeepsFundRowBooks | server/routes/fundRoutes.js:127-321 | the same over any sequence of calls |
| FundRows.FundRowBalance | server/routes/fundRoutes.js:187-191 | per (office, heading, fiscal year), from a fresh database: the balance is exactly what the transfer log credited to that row less what the expenditure log spent from it |
| Scenarios.RequestToSpend | server/routes/fundRoutes.js:6-321 | a request for 400 is created, approved and transferred from a budget of 1000, leaving 600 in the budget, 400 in the fund and one record; spending 500 from the fund is then refused with nothing changed |
| Scenarios.NegativeRequestOverdrawsFund | server/routes/fundRoutes.js:11-15 | a request for -100 passes the field check, and once approved and transferred it raises the budget to 1100 and leaves the fund at -100 |
| Routes.FundLedger.InsertRequest | server/routes/fundRoutes.js:17-22 | the in-place insert reaches the state and id of `Requests.Insert` |
| Routes.FundLedger.CreateRequest | server/routes/fundRoutes.js:6-25 | reaches the state and response of `Requests.CreateRequest` |
| Routes.FundLedger.Decide | server/routes/fundRoutes.js:45-88 | reaches the state and response of `Requests.Decide` |
| Routes.FundLedger.ApproveAll | server/routes/fundRoutes.js:387-402 | reaches the state and response of `Requests.ApproveAll` |
| Routes.FundLedger.Transfer | server/routes/fundRoutes.js:127-165 | checks statements 1 to 3 in order, then reaches the state and response of `Transfers.Transfer` |
| Routes.FundLedger.RecordTransfer | server/routes/fundRoutes.js:166-216 | appends, debits and upserts field by field, stopping at a failing statement, and reaches the state and response of `Transfers.Transfer` |
| Routes.FundLedger.Spend | server/routes/fundRoutes.js:271-321 | checks, debits and logs field by field, and reaches the state and response of `Spending.Spend` |
| Routes.FundLedger.RequestMonthlySalary | server/routes/fundRoutes.js:324-384 | totals, checks for a duplicate and inserts, and reaches the state and response of `Requests.RequestMonthlySalary` |

## Left out

- HTTP framing: status codes, JSON message texts and the `transfer_id` on a partial failure are not modelled. Results are the model's `Error` kinds or the new id, count or listing.
- CSV reports (`server/routes/fundRoutes.js:405-479`) are not modelled: they are formatting only.
- Authentication is not modelled: the caller's role is an input.
- Concurrency is not modelled. Handlers run one after another, so the check-then-act races between concurrent transfers or spends are outside the model.
- Amounts are exact integers. `parseFloat` on the decimal columns, and decimal precision, are not modelled.
- The employee salary SUM is an input: the list of the office's employees' tier salaries. The employee and tier tables are not part of this model.
- Office listings leave out the office name and location that the join adds.
- Budgets are a map, so one row per (ministry, fiscal year) is assumed. The schema that would enforce it is not part of this model.
- MySQL compares strings without regard to case. The model compares headings, purposes and fiscal years exactly.
- Budget, office and ministry routes are not modelled: budgets and the office-to-ministry map are given when the ledger is created.
- Numeric body fields (`office_id`, `amount`) are taken to arrive as JSON numbers. A string such as `"0"` is truthy in JavaScript, so `!amount` (`server/routes/fundRoutes.js:13`, `:278`) lets it through, while the model's `GivenNumber` refuses 0. Strings in numeric fields are not modelled.
- Transfers.Transfer, Spending.Spend and Requests.Insert: the new row's id is modelled as the next one after the rows already stored (`result.insertId` at `server/routes/fundRoutes.js:22`, `:202`, `:313`, `:375`). A MySQL auto-increment column can leave gaps, for failed inserts and deleted rows, so the real id is only known to be unused; the gaps are not modelled.
- The non-negative fund balance invariant and the conservation lemmas assume runs with no failing statement or with no negative request amounts. Each lemma names its assumption, and the failure lemmas show what happens otherwise.
