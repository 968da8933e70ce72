# Ledger transitions of a small payments service

This project models the stateful core of an Express/Sequelize payments service
in Dafny. It covers three tables:

- parties: clients and contractors, each with a balance;
- contracts: each links one client and one contractor and has a status of
  `new`, `in_progress` or `terminated`;
- jobs: each belongs to a contract and has a price and a `paid` flag.

The tables form one immutable `Ledger` value, made of three maps keyed by id.
Money is an `int` number of cents. A balance may be absent (SQL NULL); every
operation reads an absent balance as 0.

Each request handler is one pure, atomic transition. It returns either the new
ledger or an error: `NotFound`, `InsufficientFunds`, `InvalidInput`,
`PolicyViolation` or `MissingProfile`. On an error nothing changes.

- `ProfileService.AddBalance` is the balance mutator. It applies a signed delta
  and does not clamp the result. It fails when the party record is missing.
- `Payments.PayForJob` is the `/jobs/:job_id/pay` handler. A job is visible
  only through a contract whose client is the principal. The principal's balance
  must cover the price. The client is then debited, the contractor credited and
  the job marked paid, all in one step.
- `Deposits.Deposit` is the `/balances/deposit/:userId` handler. It rejects an
  absent amount and an unknown target. It sums the prices of the target's unpaid
  jobs, over all of the target's contracts whatever their status. It refuses an
  amount above a quarter of that sum, written `4 * amount > outstanding`.
  Otherwise it credits the target.
- `Queries.GetContract`, `Queries.ListContracts` and `Queries.UnpaidJobs` are
  the read-only views of `/contracts/:id`, `/contracts` and `/jobs/unpaid`.

The model follows the code as written:

- the pay handler never checks `paid` or the contract status;
- the pay handler never sets `paymentDate`;
- the deposit handler rejects only an absent amount, not a zero or negative one;
- the deposit handler never compares the principal with the target, so
  `Deposit` takes no principal.

The core handlers state their intent in three comments:
- src/app.js:72 says a client pays only when its balance covers the price;
- src/app.js:83 says the pay lookup prevents access to contracts the principal
  may not use, and `Payments.PayableBy` follows it;
- src/app.js:109 says a deposit goes into a client's balance and may not exceed
  25% of the client's jobs still to pay.

Where the code is silent, the model keeps that silence: a paid job can be paid
again, and neither the deposit's sign nor the target's role is checked.

`Payments.PayForJobGuarded` is this model's own variant with a guard against
double payment. No source line asks for it, and the handler does not behave
that way.

`Store.Valid` is the well-formedness assumption: every contract links two
distinct existing parties, and every job's contract exists. Every operation
preserves it. The principal's own record is assumed to exist, because the
middleware that loads it is not part of this model.

## Model

| member | source | states |
|---|---|---|
| ProfileService.AddBalance | src/service/profile.service.js:1-9 | fails with `MissingProfile` exactly when the party is absent; otherwise the party's balance, absent read as 0, grows by exactly the delta and is now recorded, and its role, every other party, every contract and every job are unchanged |
| ProfileService.AddBalanceCompose | src/service/profile.service.js:6 | applying `d1` and then `d2` gives the same ledger as applying `d1 + d2` |
| ProfileService.AddBalanceZero | src/service/profile.service.js:6 | a zero delta keeps every balance; the ledger is identical when the balance was present, and an absent balance becomes a recorded 0 |
| ProfileService.AddBalanceFromAbsent | src/service/profile.service.js:6 | an absent balance is treated as 0, so it becomes exactly the delta |
| ProfileService.AddBalanceNotClamped | src/service/profile.service.js:6 | a debit larger than the balance leaves a negative balance; non-negativity is the caller's job |
| ProfileService.AddBalanceTotal | src/service/profile.service.js:6-8 | the sum of all balances in the ledger changes by exactly the delta |
| ProfileService.AddBalanceValid | src/service/profile.service.js:6-8 | a balance change keeps the ledger well formed |
| Deposits.OutstandingJobs | src/app.js:121-127 | the jobs counted against a target are exactly the unpaid jobs whose existing contract has the target as client, with no condition on status |
| Deposits.Deposit | src/app.js:108-137 | an absent amount gives `InvalidInput` and only that; an unknown target gives `NotFound`; `PolicyViolation` exactly when four times the amount exceeds what the target owes; it succeeds exactly when the amount is present, the target exists and four times the amount is at most the debt; on success the target's balance rises by exactly the amount, its role is kept, and no other party, contract or job changes |
| Deposits.Outstanding | src/app.js:129 | the debt totals the prices of the target's outstanding jobs: it is 0 when there is no such job and non-negative when no price is negative; that the order of adding does not matter is `Sums.SumSetRemove` |
| Deposits.OutstandingFrame | src/app.js:121-129 | what a party owes depends only on the contract and job tables, never on balances |
| Deposits.OutstandingIgnoresStatus | src/app.js:121-127 | changing a contract's status does not change what any party owes |
| Deposits.DepositTotal | src/app.js:134 | an accepted deposit adds exactly the amount to the money in the ledger |
| Deposits.DepositRepeatable | src/app.js:121-134 | a deposit leaves every party's debt unchanged, so an accepted deposit is accepted again and the two credit twice the amount |
| Deposits.DepositNothingOwed | src/app.js:129-132 | when nothing is owed, every positive amount is refused with `PolicyViolation` |
| Deposits.DepositCeilingInclusive | src/app.js:131-134 | an amount of exactly a quarter of the debt is accepted and credited |
| Deposits.DepositNonPositiveAccepted | src/app.js:115-134 | with non-negative prices, a zero or negative amount passes both checks and is applied as given |
| Deposits.DepositCanOverdraw | src/app.js:115-134 | a negative amount larger than the balance is accepted and leaves a negative balance |
| Deposits.DepositNonNegative | src/app.js:131-134 | a non-negative deposit keeps every balance non-negative |
| Deposits.DepositValid | src/app.js:134 | a deposit keeps the ledger well formed |
| Deposits.DepositScenario | src/app.js:121-132 | a client owing 25 + 15 (a paid job of 90 not counted) may deposit 10 but not 11; an unknown target is not found; a missing amount is invalid |
| Queries.GetContract | src/app.js:24-35 | succeeds exactly when the contract exists and the principal is its client or its contractor, and then returns that contract; every failure is `NotFound` |
| Queries.ListContracts | src/app.js:42-47 | contains exactly the contracts that are not terminated and have the principal as a party, each as stored |
| Queries.UnpaidJobs | src/app.js:57-66 | contains exactly the unpaid jobs whose contract exists, is in progress and has the principal as a party, each as stored |
| Queries.GetContractHidesExistence | src/app.js:24-34 | a contract the principal is not party to gives the same answer as an id that does not exist |
| Queries.GetContractBothParties | src/app.js:27-30 | both the client and the contractor can fetch their contract |
| Queries.ListContractsMatchesGet | src/app.js:24-47 | the list holds exactly the contracts that `GetContract` reveals to the principal, minus the terminated ones, with the same records |
| Queries.UnpaidJobsOnListedContracts | src/app.js:42-66 | every job in the unpaid list belongs to a contract in the principal's contract list, which `GetContract` also reveals |
| Queries.UnpaidJobsSymmetric | src/app.js:60-63 | the client and the contractor of a contract see the same unpaid jobs on it |
| Payments.PayableBy | src/app.js:78-89 | the pay handler finds a job exactly when it exists and its contract is one the principal can fetch by id and holds as client |
| Payments.PayForJob | src/app.js:71-106 | `NotFound` exactly when the job is missing or its contract's client is not the principal; `InsufficientFunds` exactly when the job is visible and the balance is below the price; `MissingProfile` exactly when the contractor's record is missing; on success the job is paid with the same price, contract and payment date, and no other job, no contract and no third party changes |
| Payments.PayForJobOutcome | src/app.js:78-103 | on a well-formed ledger, payment succeeds exactly when the job is visible and the balance is at least the price |
| Payments.PayForJobExactBalance | src/app.js:92-93 | a balance exactly equal to the price is accepted and drops to 0 |
| Payments.ContractorCannotPay | src/app.js:78-90 | a contractor asking to pay for a job on its own contract always gets `NotFound` |
| Payments.PayForJobHidesExistence | src/app.js:78-90 | a job the principal may not pay gives the same answer as a job that does not exist |
| Payments.PayForJobTransfers | src/app.js:97-103 | the client's balance drops by exactly the price and the contractor's rises by exactly the price |
| Payments.PayForJobConserves | src/app.js:97-103 | when the job's client and contractor are distinct parties, which `Store.Valid` guarantees for every contract, payment moves money and creates none: the sum of all balances is unchanged |
| Payments.PayForJobValid | src/app.js:95-103 | a payment keeps the ledger well formed |
| Payments.PayForJobNonNegative | src/app.js:92-103 | with non-negative prices, a payment keeps every balance non-negative |
| Payments.PayForJobOutstandingJobs | src/app.js:95-103 | after a payment the jobs a party owes for are the same set minus the paid job, which was in it exactly when the party is the payer and the job was unpaid; no price changes |
| Payments.PayForJobOutstanding | src/app.js:95-103 | paying an unpaid job takes exactly its price off the client's debt; no other party's debt changes, and paying an already-paid job changes no debt |
| Payments.PayForJobUnpaidLists | src/app.js:95-101 | the paid job leaves every party's unpaid list, and every other job stays in exactly the lists it was in |
| Payments.UnpaidJobsArePayable | src/app.js:57-90 | a job in a client's unpaid list on its own contract counts towards its debt, is visible to the pay handler, and is paid when the funds suffice |
| Payments.PayForJobIgnoresPaidFlag | src/app.js:78-103 | as written, a job already marked paid is paid again when the client can afford it |
| Payments.PayForJobTwice | src/app.js:78-103 | as written, two payments of the same job move twice the price from client to contractor when the balance allows |
| Payments.PayForJobGuarded | src/app.js:78-103 | variant, not the handler: refuses an already-paid job with `Conflict`, and otherwise has the handler's outcomes and frame |
| Payments.GuardedAgreesOnUnpaid | src/app.js:78-103 | except on a visible job already marked paid, the guarded variant gives exactly the handler's result |
| Payments.GuardedNoDoublePayment | src/app.js:95-103 | with the guard, a second payment of the same job is refused with `Conflict` |
| Payments.PaymentScenario | src/app.js:71-106 | client 100 and contractor 0 become 40 and 60 for a job of 60; a second attempt is refused for insufficient funds, or with `Conflict` when guarded; the contractor gets `NotFound`; a client with 200 pays the same job twice |

## Left out

- HTTP plumbing is not modelled: Express, body-parser, `express-async-errors` and
  response status codes. Each error stands for one source response:
  - `NotFound` is the 404 at src/app.js:34, :90 and :119;
  - `InsufficientFunds` is the 400 at src/app.js:93;
  - `InvalidInput` is the 400 at src/app.js:115;
  - `PolicyViolation` is the 400 at src/app.js:132;
  - `MissingProfile` is the `throw` at src/service/profile.service.js:4, which
    `express-async-errors` turns into a 500 response.
- Each handler's principal is a given party id. The `getProfile` middleware is
  not part of this model, so `PayForJob` requires that the principal's record exists.
- Sequelize query building, joins and `Op` combinators are not modelled. They
  become map and set comprehensions. An `include` with a `where` is an inner join.
- `Deposit` does not model the `where: { type: 'client' }` option passed to
  `findByPk` at src/app.js:117. Its effect depends on ORM internals, so only the
  target's existence is required, and the target's role is not checked.
- Transactions, rollback, `Promise.all` ordering and concurrency are not modelled.
  Each handler is one atomic transition. A failing step returns an error and
  leaves the ledger as it was. The gap between the balance check at
  src/app.js:92 and the transaction at src/app.js:97 is therefore not modelled.
- `PayForJob` composes the debit and the credit in sequence. The source saves two
  separately loaded profile rows. When a contract's client and contractor are the
  same party, the source's result depends on write order. `Store.Valid` excludes
  such contracts, and the transfer lemmas assume it.
- PayForJobConserves: requires the job's client and contractor to differ. On a
  self-contract the source's two saves at src/app.js:99-100 leave `b - price`
  or `b + price`, destroying or creating money; the model's sequential
  composition would not, so no conservation is claimed there.
- JavaScript coercions are not modelled: `+quantity`, `|| 0`, NaN, and the
  string-to-number comparison at src/app.js:131. Money is integer cents, not
  floating point. The deposit amount is `Option<int>`, so the empty string is not
  modelled.
- An `undefined` balance compares as false against the price at src/app.js:92.
  The model does not distinguish it from NULL and reads both as 0.
- `paymentDate` is never set by the pay handler. The model keeps it unchanged.
- `PayForJob` returns the new ledger, not the response object. The `count` field
  of `findAndCountAll` is the size of the returned rows and is not modelled separately.
- The admin reports `/admin/best-profession` and `/admin/best-clients`
  (src/app.js:139-202) are not modelled. They are SQL group-by, order and limit
  aggregations over date ranges.
- src/app.test.js is an integration test against a seed database that is not
  part of this model. It is used only for scenario values.
