# Funds-transfer rules, modelled in Dafny

This project models the transfer rules of a small Kotlin banking service. A
transfer names a source account id, a destination account id and an amount.
The service looks both accounts up, checks the request against the source
account's balance and its two ceilings, moves the money in place and saves
history entries. The repository holds two lineages of this logic, and both
are modelled:

- **Root lineage** (`TransferValidator`, `TransferService` in the default
  package). The checks run in this order: balance, per-transaction ceiling,
  per-day ceiling. The per-day check refuses when `limit <= today + amount`,
  so a transfer that reaches the daily ceiling exactly is refused. The service
  inlines the same checks, debits the source, credits the destination and
  saves a single WITHDRAW entry for the source.
- **`service` package lineage** (`service.TransferValidator`,
  `service.TransferService`). The checks run in this order: balance, per-day
  ceiling, per-transaction ceiling. The per-day check refuses only when
  `today + amount > limit`, so reaching the ceiling exactly is allowed. The
  service delegates to the validator, moves the money through
  `Account.withdraw`, and saves a WITHDRAW entry for the source and then a
  DEPOSIT entry for the destination.

Modules:

- `Domain` (`domain.dfy`): the `Account` class, with an immutable `id` and
  in-place `balance` updates. It also holds the history entry, the rejection
  tags and the `Outcome` of a transfer (`Pass`, or `Fail` with a tag).
- `Rules` (`rules.dfy`): a reference definition of ordered guard checks.
  `FirstBroken` returns the first broken rule in a fixed order. Two lemmas
  prove that an earlier rule always wins, and that the rules after a broken
  one are never consulted.
- `RootValidator` and `PackageValidator`: each lineage's validator is a pure
  function of `(balance, atATime, perDay, today, amount)`. Its body is the
  source's `if` chain. Its contract ties that chain to `FirstBroken` over the
  lineage's own rule order, and gives the if-and-only-if condition for
  acceptance. Each module also proves a daily-ceiling invariant over any run
  of requests within one day (`DayRun`, `DailyCeilingHolds`).
- `RootService` and `PackageService`: each service is a class. Its `accounts`
  map stands for the user repository, and its `history` sequence stands for
  the history repository. `Transfer` changes only the balances and the
  history, as its `modifies` clause says. Its contract covers:
  - which outcome is returned;
  - that a refusal changes nothing;
  - the exact change of every account's balance;
  - the entries appended;
  - conservation of the two-account total.

  Concrete scenarios mirror the repository's tests.
- `Lineages`: where the two validators agree and where they differ.

Decisions:

- Today's transferred total is a parameter of `Transfer` and of the
  validators. It stands for the transfer-repository query at the current
  date. The root lineage asks for it only after the first two checks pass.
  `RootValidator.DayTotalConsultedLast` states this as a fact about the model:
  when one of those checks refuses, the reported total cannot change the
  outcome. The test at `src/test/kotlin/TransferTest.kt:135-158` relies on
  this, because it never stubs the query.
- Source and destination may be the same account, since both ids can resolve
  to one object, as in `src/test/kotlin/TransferTest.kt:107-121`. The model
  allows it. A balance moves by `Delta(a, from, to, amount)`, which is zero
  for an account that is both source and destination.
- Amounts are not required to be positive, because neither lineage checks the
  sign. A negative amount passes the balance check whenever the balance is at
  least the amount, so for any non-negative balance. If the other checks also
  pass, it moves money from the destination to the source. The model follows
  the code here.
- The lineages disagree on the order of the two ceiling checks and on the
  daily boundary. They also disagree on the history: the root lineage saves
  only the WITHDRAW entry, the package lineage saves WITHDRAW then DEPOSIT.
  The model follows each lineage's code.
- The two lineages use different exception classes. They map to shared tags:
  - `ExceedTransferAmountAtATimeException` and
    `ExceedWithdrawalAmountAtOnceException` both become `ExceedAtATime`.
  - `ExceedWithdrawAmountPerDayException` and
    `ExceedWithdrawalAmountPerDayException` both become `ExceedPerDay`.
  - `AccountNotFoundException` becomes `AccountNotFound`.
  - The root test expects `NotFoundUserException`
    (`src/test/kotlin/TransferTest.kt:202`), but the root service throws
    `AccountNotFoundException` (`src/main/kotlin/TransferService.kt:18-19`).
    The test and the code disagree on the class; the model follows the code,
    and both stand for the same tag.
- The package lineage refers to members that `domain/Account.kt` does not
  declare: `withdraw`, `withdrawalAvailableAmountPerDay` and
  `withdrawalAvailableAmountAtOnce`. Its service also calls `validateTransfer`,
  but its validator declares `validateTransfertaion`. The model reads these
  against the account that does exist:
  - the per-day ceiling is `transferAvailableAmountPerDay`;
  - the per-transaction ceiling is `withdrawAvailableAmountAtATime`;
  - `withdraw(amount, to)` becomes `Account.Withdraw`, with the same effect as
    the root service's two balance lines;
  - the validator is `PackageValidator.ValidateTransfer`.
- The enum `HistoryType` and the exception classes
  `ExceedTransferAmountAtATimeException`, `AccountNotFoundException` and
  `NotFoundUserException` are not part of this model, apart from their role as
  tags.
- The tests in `src/test/kotlin/transfer_test/TransferTest.kt` have mixed
  evidence. They import the default-package classes and stub the root
  repository's `getTransferAmount`, but they build the service with a
  validator, which is the package lineage's constructor (line 38). Only the
  package service takes a validator, so these tests are read as the package
  lineage's. Every scenario in that file has the same outcome in both
  lineages.

## Model

| member | source | states |
|---|---|---|
| `Domain.Account.constructor` | src/main/kotlin/domain/Account.kt:3-8 | an account starts with the given id, balance and two ceilings |
| `Domain.Account.Withdraw` | src/main/kotlin/service/TransferService.kt:18 | debits this account and credits `to` by the amount; the two cancel out when `to` is this account |
| `Rules.FirstBroken` | src/main/kotlin/TransferValidator.kt:12-26 | ordered guard checks pass iff no rule is broken; a reported error is a broken rule of the list |
| `Rules.FirstBrokenAt` | src/main/kotlin/service/TransferValidator.kt:13-26 | the error reported is the first broken rule in check order, whatever the later rules say |
| `Rules.DecidedByPrefix` | src/main/kotlin/TransferValidator.kt:13-21 | once an early rule is broken, the later rules cannot change the outcome |
| `RootValidator.ValidateTransfer` | src/main/kotlin/TransferValidator.kt:12-26 | the outcome is the first broken rule in the order balance, per-transaction, per-day (`limit <= today + amount`); passes iff `amount <= balance && amount <= atATime && today + amount < perDay`; never AccountNotFound |
| `RootValidator.DayTotalConsultedLast` | src/main/kotlin/TransferValidator.kt:13-21 | when the balance or per-transaction check refuses, the day total reported by the repository does not affect the (failing) outcome |
| `RootValidator.DailyCeilingHolds` | src/main/kotlin/TransferValidator.kt:21-25 | over any sequence of requests in one day, the day total stays strictly below the daily ceiling, the balance stays non-negative, and the total debited equals the total added to the day |
| `PackageValidator.ValidateTransfer` | src/main/kotlin/service/TransferValidator.kt:13-26 | the outcome is the first broken rule in the order balance, per-day (`today + amount > limit`), per-transaction; passes iff `amount <= balance && today + amount <= perDay && amount <= atATime`; never AccountNotFound |
| `PackageValidator.DayTotalConsultedAfterBalance` | src/main/kotlin/service/TransferValidator.kt:14-18 | when the balance check refuses, the outcome is LeakOfBalance whatever the day total |
| `PackageValidator.DailyCeilingHolds` | src/main/kotlin/service/TransferValidator.kt:18-21 | over any sequence of requests in one day, the day total never exceeds the daily ceiling, the balance stays non-negative, and the total debited equals the total added to the day |
| `RootService.TransferService.constructor` | src/main/kotlin/TransferService.kt:12-16 | the service starts over the given account store with an empty history |
| `RootService.TransferService.Transfer` | src/main/kotlin/TransferService.kt:17-39 | a missing source or destination gives AccountNotFound; otherwise the outcome is the root validator's on the source; any refusal leaves every balance and the history unchanged; on success every account moves by exactly its `Delta` (source minus amount, destination plus amount), the two-account total is conserved for distinct accounts, and exactly one `(source, amount, WITHDRAW)` entry is appended |
| `RootService.TransferCompletedScenario` | src/test/kotlin/TransferTest.kt:43-102 | 500 from 1000 to 1000 leaves 500 and 1500, and the whole history saved is the single entry WITHDRAW(1, 500) |
| `RootService.ExceedPerDayScenario` | src/test/kotlin/TransferTest.kt:104-133 | both ids resolve to one account whose day total already equals its ceiling of 10000: 1000 more gives ExceedPerDay and the balance stays 1000 |
| `RootService.ExceedAtATimeScenario` | src/test/kotlin/TransferTest.kt:135-158 | 6000 out of 10000 against a per-transaction ceiling of 500 gives ExceedAtATime and the balance stays 10000 |
| `RootService.LeakOfBalanceScenario` | src/test/kotlin/TransferTest.kt:160-182 | 2000 out of a balance of 1000 gives LeakOfBalance and the balance stays 1000 |
| `RootService.AccountNotFoundScenario` | src/test/kotlin/TransferTest.kt:184-206 | an unknown source or an unknown destination gives AccountNotFound and nothing is saved |
| `PackageService.TransferService.constructor` | src/main/kotlin/service/TransferService.kt:9-13 | the service starts over the given account store with an empty history |
| `PackageService.TransferService.Transfer` | src/main/kotlin/service/TransferService.kt:14-21 | a missing source or destination gives AccountNotFound; otherwise the package validator's outcome is passed on unchanged; any refusal leaves every balance and the history unchanged; on success every account moves by exactly its `Delta`, the two-account total is conserved for distinct accounts, and exactly `(source, amount, WITHDRAW)` then `(destination, amount, DEPOSIT)` are appended |
| `PackageService.TransferCompletedScenario` | src/test/kotlin/transfer_test/TransferTest.kt:98-134 | 500 from 1000 to 1000 leaves 500 and 1500 and saves WITHDRAW(1, 500) then DEPOSIT(2, 500) |
| `PackageService.LeakOfBalanceScenario` | src/test/kotlin/transfer_test/TransferTest.kt:41-64 | 2000 out of a balance of 1000 gives LeakOfBalance, the balance stays 1000 and nothing is saved |
| `PackageService.ExceedPerDayScenario` | src/test/kotlin/transfer_test/TransferTest.kt:66-96 | both ids resolve to one account whose day total already equals its ceiling: 1000 more gives ExceedPerDay and nothing is saved |
| `PackageService.ReachCeilingScenario` | src/main/kotlin/service/TransferValidator.kt:19 | a day total of 9000 plus 1000 reaches the ceiling of 10000 exactly and the transfer passes, leaving the source at 0 |
| `PackageService.AccountNotFoundScenario` | src/test/kotlin/transfer_test/TransferTest.kt:136-163 | an unknown source or an unknown destination gives AccountNotFound and nothing is saved |
| `Lineages.RootStricterThanPackage` | src/main/kotlin/TransferValidator.kt:23 | whatever the root validator accepts, the package validator accepts |
| `Lineages.AcceptanceDiffersOnlyAtCeiling` | src/main/kotlin/service/TransferValidator.kt:19 | the lineages disagree on acceptance iff the other checks pass and the day total reaches the ceiling exactly, where the root refuses with ExceedPerDay |
| `Lineages.PrecedenceOfCeilings` | src/main/kotlin/service/TransferValidator.kt:18-25 | with both ceilings broken, the root reports ExceedAtATime and the package ExceedPerDay |

## Left out

- 64-bit `Long` arithmetic: balances, limits and `today + amount` are unbounded integers, so the overflow of `today + amount` or of a balance update is not modelled.
- The clock (`LocalDate.now()`) and the transfer-repository query: today's total is a parameter. `DayRun` assumes that the day total grows by each accepted amount. Nothing in the source states that, since the repository is an interface.
- Storage: the repositories are interfaces without logic. The user repository is a fixed `map` from id to account, and the history repository is an append-only sequence. Writing the mutated accounts back to storage is not modelled.
- Concurrency: nothing in the source locks or guards the daily total; concurrent transfers and any atomicity between them are not modelled.
- Exception message strings: each rejection is a tag only.
- `domain/User.kt` duplicates `Account` field for field. Only `Account` is modelled.
- `RootService.TransferService.Transfer`: the model takes the day total as an input even when the source never reaches the query. That the value does not matter then is proved separately (`RootValidator.DayTotalConsultedLast`).
