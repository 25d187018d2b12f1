# Bank account core, modelled in Dafny

This project models the domain and application core of the bank-account
service (package `com.mdci.bankaccount`):

- `Money`, a non-negative amount.
- `BankOperation`, a validated deposit or withdrawal record, and the factories
  that stamp one with a fresh id and a clock reading.
- The two withdrawal policies and the factory that picks one from the
  authorised overdraft.
- The `BankAccount` entity and its savings variant (`SavingsAccount`, a
  "livret" with a deposit ceiling), including balance replay from history.
- `BankAccountFactory` (create, rehydrate, loop-based balance).
- The repository ports, as in-memory maps.
- The operation, account, statement and loader services.
- The statement mapper, which sorts newest first.
- The persistence mappers between domain objects and JPA-style entities.
- The account-creation request DTO and its cross-field validator.

Java's `null` is an `Option`. A thrown exception is a `Failure`/`Fail` that
carries the exception kind and its exact message. `BigDecimal` amounts are
integers in the smallest currency unit. `LocalDateTime` is an integer count
of nanoseconds on the local time line, its own resolution, and `LocalDate`
is a day count.

Parts of the model are imperative. `BankAccount`, the repositories and the
services are classes whose methods update fields in place, under `modifies`
clauses. `BankAccountFactory.computeBalanceFromOperations` and its twin in
the entity mapper are `for` loops with invariants. The rest is functions
over datatypes.

Values the program gets from the outside world are parameters:

- the wall-clock reading behind `Clock.systemUTC()` and `LocalDateTime.now()`;
- the string `UUID.randomUUID()` returns, typed as a canonical UUID;
- `now.minusMonths(1)` in the statement service.

Two behaviours of the code that a reader might not expect:

- The public five-argument `BankAccount` constructor checks `initialBalance`
  for null, then opens the account at zero with an empty history. So
  `createAccount` never saves an opening operation.
- `BankOperationService` looks accounts up in the account repository.
  Its tests mock a loader instead.

## Model

| member | source | states |
|---|---|---|
| Time.DateOf | src/main/java/com/mdci/bankaccount/domain/model/BankAccount.java:110 | the day of an instant is the one whose 86 400 × 10^9 nanoseconds contain it (floor division, negative instants included) |
| Time.Clock.Now | src/main/java/com/mdci/bankaccount/domain/model/BankOperationFactory.java:20 | a fixed clock always reads its own instant; the system clock reads the wall clock |
| Time.FixedClockIsFixed | src/test/java/com/mdci/bankaccount/domain/model/BankAccountTest.java:107-117 | a fixed clock gives the same reading at any two wall-clock times |
| Errors.AccountNotFoundException | src/main/java/com/mdci/bankaccount/domain/exception/AccountNotFoundException.java:4-6 | the exception's message is the fixed prefix followed by the constructor's argument |
| Errors.NotFoundAsWritten | src/main/java/com/mdci/bankaccount/application/service/BankAccountService.java:47-48 | the services' not-found error, as written, carries the prefix twice before the id |
| Errors.NotFound | src/main/java/com/mdci/bankaccount/application/service/BankAccountService.java:47-48 | the intended not-found error: the prefix once, then the id |
| Errors.NotFoundMessageDoubled | src/test/java/com/mdci/bankaccount/application/service/BankAccountServiceTest.java:66-76 | for every id the message as written differs from the intended one, while still starting with the prefix |
| Errors.NotFoundCounterexample | src/test/java/com/mdci/bankaccount/application/service/BankAccountServiceTest.java:66-76 | for "not-exist-id" the intended message is the one the test expects and the one as written is not |
| Errors.StatementNotFoundAsWritten | src/main/java/com/mdci/bankaccount/application/service/BankAccountStatementService.java:26-27 | the statement service's not-found message, as written: the prefix, its own second wording, then the id |
| Errors.StatementNotFoundDiffers | src/main/java/com/mdci/bankaccount/application/service/BankAccountStatementService.java:26-27 | that message never equals the intended one |
| Amounts.Of | src/main/java/com/mdci/bankaccount/domain/model/Money.java:10-14 | a Money is built exactly when the amount is present and not negative, and keeps that amount; otherwise the invalid-amount error |
| Amounts.Money.Add | src/main/java/com/mdci/bankaccount/domain/model/Money.java:16-18 | the exact sum, no smaller than either operand |
| Amounts.Money.Subtract | src/main/java/com/mdci/bankaccount/domain/model/Money.java:20-25 | fails with "Solde insuffisant." exactly when the subtrahend is larger; otherwise the difference, which added back gives the original |
| Amounts.OfAmount | src/main/java/com/mdci/bankaccount/domain/model/Money.java:10-14 | wrapping an existing Money's amount gives that Money back |
| Amounts.AddThenSubtract | src/main/java/com/mdci/bankaccount/domain/model/Money.java:16-25 | adding then subtracting the same Money is the identity |
| Amounts.SubtractThenAdd | src/main/java/com/mdci/bankaccount/domain/model/Money.java:16-25 | a successful subtraction undone by adding back is the identity |
| Operations.TypeName | src/main/java/com/mdci/bankaccount/domain/model/BankOperation.java:49-51 | the enum names: "DEPOSIT" exactly for deposits, "WITHDRAWAL" exactly for withdrawals |
| Operations.ParseType | src/main/java/com/mdci/bankaccount/infrastructure/persistence/mapper/BankOperationEntityMapper.java:23 | `valueOf` succeeds exactly on the two names and inverts TypeName; null is a null dereference, any other name an illegal argument whose message is `Enum.valueOf`'s, naming the enum by its canonical class name |
| Operations.ParseTypeName | src/main/java/com/mdci/bankaccount/infrastructure/persistence/mapper/BankOperationEntityMapper.java:13-23 | parsing the name of a type gives that type back |
| Operations.UuidNotBlank | src/main/java/com/mdci/bankaccount/domain/model/BankOperationFactory.java:17 | a generated UUID string is never blank, so it always passes the id check |
| Operations.BankOperation.Value | src/main/java/com/mdci/bankaccount/domain/model/BankOperation.java:42-47 | a deposit counts its amount, a withdrawal its negated amount |
| Operations.ValueSign | src/main/java/com/mdci/bankaccount/domain/model/BankOperation.java:42-47 | deposits never lower a balance, withdrawals never raise it, and the size of the effect is the amount |
| Operations.NewOperation | src/main/java/com/mdci/bankaccount/domain/model/BankOperation.java:12-22 | succeeds exactly when amount, non-blank id and timestamp are all present; otherwise the first failing check's message, in the order amount, id, timestamp |
| Operations.NewOperationOfFields | src/main/java/com/mdci/bankaccount/domain/model/BankOperation.java:12-22 | rebuilding a constructed operation from its own fields gives it back |
| Operations.DepositOf | src/main/java/com/mdci/bankaccount/domain/model/BankOperation.java:24-31 | a DEPOSIT of the amount, with the given UUID and the clock's reading; a null amount is refused |
| Operations.WithdrawalOf | src/main/java/com/mdci/bankaccount/domain/model/BankOperation.java:33-40 | the same with WITHDRAWAL |
| OperationFactories.BankOperationFactory.Deposit | src/main/java/com/mdci/bankaccount/domain/model/BankOperationFactory.java:15-22 | the factory builds exactly the static deposit with its own clock |
| OperationFactories.BankOperationFactory.Withdrawal | src/main/java/com/mdci/bankaccount/domain/model/BankOperationFactory.java:24-31 | the factory builds exactly the static withdrawal with its own clock |
| OperationFactories.DefaultBankOperationFactory.Deposit | src/main/java/com/mdci/bankaccount/infrastructure/operation/DefaultBankOperationFactory.java:20-22 | a DEPOSIT of the amount stamped with the factory clock's reading, or the invalid-amount error for null |
| OperationFactories.DefaultBankOperationFactory.Withdrawal | src/main/java/com/mdci/bankaccount/infrastructure/operation/DefaultBankOperationFactory.java:25-27 | a WITHDRAWAL likewise |
| OperationFactories.OperationFactory.Deposit | src/main/java/com/mdci/bankaccount/domain/port/out/BankOperationFactory.java:7 | either implementation builds the static deposit with its clock |
| OperationFactories.OperationFactory.Withdrawal | src/main/java/com/mdci/bankaccount/domain/port/out/BankOperationFactory.java:9 | either implementation builds the static withdrawal with its clock |
| OperationFactories.FactoriesAgree | src/main/java/com/mdci/bankaccount/infrastructure/operation/DefaultBankOperationFactory.java:20-27 | the domain factory and the infrastructure factory build identical operations from the same clock, amount and UUID |
| OperationFactories.FixedClockStamps | src/test/java/com/mdci/bankaccount/domain/model/BankAccountTest.java:107-117 | under a fixed clock every operation carries the fixed instant, whatever the wall clock says |
| WithdrawalPolicies.NoOverdraftCheck | src/main/java/com/mdci/bankaccount/domain/model/NoOverdraftPolicy.java:8-12 | refused with "Solde insuffisant." exactly when the balance is below the amount |
| WithdrawalPolicies.AuthorizedOverdraftCheck | src/main/java/com/mdci/bankaccount/domain/model/AuthorizedOverdraftPolicy.java:10-17 | refused with "Limite de découvert atteinte" exactly when the balance after the withdrawal is below minus the overdraft |
| WithdrawalPolicies.CheckWithdrawal | src/main/java/com/mdci/bankaccount/domain/model/AuthorizedOverdraftPolicy.java:10-17 | each policy has its own rejection condition and message |
| WithdrawalPolicies.Create | src/main/java/com/mdci/bankaccount/domain/model/WithdrawalPolicyFactory.java:7-12 | the overdraft policy is chosen exactly when the overdraft is above zero |
| WithdrawalPolicies.SelectedPolicyFloor | src/main/java/com/mdci/bankaccount/domain/model/WithdrawalPolicyFactory.java:7-12 | the selected policy accepts exactly the withdrawals that leave the balance at or above minus the overdraft |
| WithdrawalPolicies.ZeroOverdraftPoliciesAgree | src/main/java/com/mdci/bankaccount/domain/model/AuthorizedOverdraftPolicy.java:11-16 | with a zero overdraft both policies accept the same withdrawals |
| WithdrawalPolicies.OverdraftMonotone | src/main/java/com/mdci/bankaccount/domain/model/AuthorizedOverdraftPolicy.java:11-16 | raising the overdraft never turns an accepted withdrawal into a refused one |
| WithdrawalPolicies.BoundaryCases | src/test/java/com/mdci/bankaccount/application/service/BankOperationServiceTest.java:123-161 | overdraft 100 at balance 0: 100 is accepted and 101 refused; without overdraft 100 is refused from 50 and accepted from 100 |
| Ledger.SignedSumIsDepositedMinusWithdrawn | src/main/java/com/mdci/bankaccount/domain/model/BankAccountFactory.java:34-43 | the sum of signed values equals total deposited minus total withdrawn, and lies between those bounds |
| Ledger.SignedSumAppend | src/main/java/com/mdci/bankaccount/domain/model/BankAccount.java:103-106 | the balance of a concatenated history is the sum of the parts' balances |
| Ledger.SignedSumPermutation | src/main/java/com/mdci/bankaccount/domain/model/BankAccount.java:115-119 | the replayed balance does not depend on the order of the operations |
| Ledger.ReduceValues | src/main/java/com/mdci/bankaccount/domain/model/BankAccount.java:115-119 | the stream's `map(value).reduce(acc, add)` is the accumulator plus the signed sum |
| Ledger.FilterMembers | src/main/java/com/mdci/bankaccount/domain/model/BankAccount.java:109-110 | the stream filter keeps exactly the operations meeting the predicate, each no more often than before |
| Ledger.FilterCounts | src/main/java/com/mdci/bankaccount/domain/model/BankAccount.java:109-110 | the stream filter keeps each passing operation exactly as often as it occurs, and drops every other one |
| Ledger.FilterSubsequence | src/main/java/com/mdci/bankaccount/domain/model/BankAccount.java:109-110 | the stream filter keeps the input's order: its result is a subsequence of the input |
| Ledger.BalanceUntilPlusLater | src/main/java/com/mdci/bankaccount/domain/model/BankAccount.java:108-113 | the balance up to a date plus what comes after it is the whole balance |
| Ledger.BalanceUntilCoversAll | src/main/java/com/mdci/bankaccount/domain/model/BankAccount.java:108-113 | when no operation is after the date, the balance up to it is the full balance |
| Ledger.BalanceUntilIgnoresLater | src/main/java/com/mdci/bankaccount/domain/model/BankAccount.java:108-113 | operations dated after the day do not change the balance up to it |
| Ledger.BalanceUntilPermutation | src/main/java/com/mdci/bankaccount/domain/model/BankAccount.java:108-113 | the balance up to a date does not depend on the order of the history |
| Ledger.DepositThenWithdrawalScenario | src/test/java/com/mdci/bankaccount/application/service/BankOperationServiceTest.java:94-113 | a deposit of 100 and a withdrawal of 30 come to 70, in either order |
| Accounts.BankAccount.Open | src/main/java/com/mdci/bankaccount/domain/model/BankAccount.java:41-47 | a new account has a zero balance, an empty history, a null overdraft read as zero, a null type read as current account, and the matching policy |
| Accounts.BankAccount.Restore | src/main/java/com/mdci/bankaccount/domain/model/BankAccount.java:53-61 | a restored account starts at the given balance with an empty history and the given type; its balance is that much ahead of its history |
| Accounts.BankAccount.Savings | src/main/java/com/mdci/bankaccount/domain/model/SavingsAccount.java:8-17 | a savings account is a LIVRET with no overdraft, the no-overdraft policy, the given balance and its ceiling |
| Accounts.BankAccount.New | src/main/java/com/mdci/bankaccount/domain/model/BankAccount.java:29-48 | refuses a null initial balance with "Le solde initial est obligatoire.", otherwise opens the account at zero |
| Accounts.BankAccount.NewCurrent | src/main/java/com/mdci/bankaccount/domain/model/BankAccount.java:25-27 | the same for a current account |
| Accounts.BankAccount.NewEmpty | src/main/java/com/mdci/bankaccount/domain/model/BankAccount.java:21-23 | a current account with zero balance, no overdraft and no history |
| Accounts.BankAccount.RestoreCurrent | src/main/java/com/mdci/bankaccount/domain/model/BankAccount.java:50-52 | a restored current account with the given balance |
| Accounts.BankAccount.History | src/main/java/com/mdci/bankaccount/domain/model/BankAccount.java:75-77 | the history holds the account's operations, element for element |
| Accounts.BankAccount.DepositCeiling | src/main/java/com/mdci/bankaccount/domain/model/SavingsAccount.java:28-30 | a savings account's ceiling as it was given |
| Accounts.BankAccount.BaseDeposit | src/main/java/com/mdci/bankaccount/domain/model/BankAccount.java:87-92 | the balance grows by the amount and the factory's deposit is appended to the history |
| Accounts.BankAccount.Deposit | src/main/java/com/mdci/bankaccount/domain/model/SavingsAccount.java:19-26 | a current account always accepts; a savings account refuses a negative balance and any deposit taking it above its ceiling, changing nothing; an accepted deposit keeps a savings balance within its ceiling |
| Accounts.BankAccount.Withdraw | src/main/java/com/mdci/bankaccount/domain/model/BankAccount.java:94-101 | accepted exactly when the balance stays at or above minus the overdraft, with the policy's message otherwise; a refusal changes nothing, success subtracts and records the withdrawal |
| Accounts.BankAccount.ApplyOperation | src/main/java/com/mdci/bankaccount/domain/model/BankAccount.java:103-106 | the balance moves by the operation's value and the operation is appended |
| Accounts.BankAccount.ComputeBalanceUntil | src/main/java/com/mdci/bankaccount/domain/model/BankAccount.java:108-113 | the signed sum of the history up to the end of the given day |
| Accounts.BankAccount.ComputeBalanceFromOperations | src/main/java/com/mdci/bankaccount/domain/model/BankAccount.java:115-119 | the signed sum of the given list |
| Accounts.BankAccount.LoadOperations | src/main/java/com/mdci/bankaccount/domain/model/BankAccount.java:121-131 | a null list is refused; otherwise the history becomes the list and the balance its replay |
| AccountFactory.Create | src/main/java/com/mdci/bankaccount/domain/model/BankAccountFactory.java:11-15 | a current account whose balance is the initial amount and whose history is that single deposit, consistent with its balance |
| AccountFactory.Rehydrate | src/main/java/com/mdci/bankaccount/domain/model/BankAccountFactory.java:20-24 | a null history is refused; otherwise the account's history is the list and its balance the replay |
| AccountFactory.RehydrateWithBalanceOnly | src/main/java/com/mdci/bankaccount/domain/model/BankAccountFactory.java:29-32 | a current account at the given balance with no history |
| AccountFactory.RehydrateAs | src/main/java/com/mdci/bankaccount/application/service/BankAccountLoader.java:27-34 | the typed rehydration: a LIVRET becomes a savings account with the ceiling, any other type a plain account with the overdraft, and the history is replayed |
| AccountFactory.RehydrateWithBalanceOnlyAs | src/main/java/com/mdci/bankaccount/application/service/BankAccountLoader.java:44-51 | the typed balance-only rehydration, with the same choice of kind |
| AccountFactory.ComputeBalanceFromOperations | src/main/java/com/mdci/bankaccount/domain/model/BankAccountFactory.java:34-43 | the loop's result is the signed sum, that is deposits minus withdrawals |
| AccountFactory.LoopAgreesWithStream | src/main/java/com/mdci/bankaccount/domain/model/BankAccountFactory.java:34-43 | the account's stream replay of one ordering equals the signed sum of any reordering |
| Repositories.AccountRepository.FindById | src/main/java/com/mdci/bankaccount/domain/port/out/IBankAccountRepository.java:8 | present exactly when the id is stored, and then the stored account |
| Repositories.AccountRepository.Save | src/main/java/com/mdci/bankaccount/domain/port/out/IBankAccountRepository.java:10 | the store maps the account's id to it, everything else unchanged |
| Repositories.OperationRepository.FindAllByAccountId | src/main/java/com/mdci/bankaccount/domain/port/out/IBankOperationRepository.java:12 | the list stored under the account, or empty |
| Repositories.OperationRepository.FindAllByAccountIdUntilDate | src/main/java/com/mdci/bankaccount/domain/port/out/IBankOperationRepository.java:13 | the account's saved operations dated on or before the day, each as often as saved, no other, in saving order (a subsequence of the saved list) |
| Repositories.OperationRepository.FindAllByAccountIdBetweenDates | src/main/java/com/mdci/bankaccount/domain/port/out/IBankOperationRepository.java:14 | the account's saved operations between the two instants, bounds included, each as often as saved, no other, in saving order (a subsequence of the saved list) |
| Repositories.OperationRepository.Save | src/main/java/com/mdci/bankaccount/domain/port/out/IBankOperationRepository.java:11 | the operation is appended to its account's list, other accounts unchanged |
| OperationService.BankOperationService.Deposit | src/main/java/com/mdci/bankaccount/application/service/BankOperationService.java:26-30 | an unknown account is refused with nothing written; otherwise the account's deposit rule decides: a refusal is the savings rule's invalid-amount error ("Le montant doit être positif et non nul." for a negative balance, "Le plafond du livret est dépassé." above the ceiling) and changes nothing, and only an accepted operation is saved |
| OperationService.BankOperationService.Withdraw | src/main/java/com/mdci/bankaccount/application/service/BankOperationService.java:33-37 | the same with the account's withdrawal policy: a refusal is the policy's insufficient-balance error ("Limite de découvert atteinte" with an overdraft, "Solde insuffisant." without) and changes nothing |
| OperationService.BankOperationService.GetBalanceAtDate | src/main/java/com/mdci/bankaccount/application/service/BankOperationService.java:40-46 | an unknown account is refused; otherwise the balance of the stored operations up to the day |
| OperationService.BalanceAtDateCoversStore | src/main/java/com/mdci/bankaccount/application/service/BankOperationService.java:44-45 | when every stored operation is on or before the day, the balance at that day is the full replay |
| Loader.BankAccountLoader.GetDepositCeiling | src/main/java/com/mdci/bankaccount/application/service/BankAccountLoader.java:54-59 | a savings account's ceiling, zero for any other account |
| Loader.BankAccountLoader.LoadWithHistory | src/main/java/com/mdci/bankaccount/application/service/BankAccountLoader.java:21-35 | an unknown id is refused; otherwise a fresh account with the stored identity, type and limits, whose balance is the replay of the stored history |
| Loader.BankAccountLoader.LoadWithoutHistory | src/main/java/com/mdci/bankaccount/application/service/BankAccountLoader.java:37-52 | an unknown id is refused and a negative stored balance is an invalid amount; otherwise a fresh account at the stored balance with no history |
| AccountService.BankAccountService.New | src/main/java/com/mdci/bankaccount/application/service/BankAccountService.java:24-29 | built exactly when all four collaborators are present; otherwise the message of the first missing one, in parameter order |
| AccountService.BankAccountService.SaveWithOpeningOperation | src/main/java/com/mdci/bankaccount/application/service/BankAccountService.java:34-42 | the account is saved, and its first operation is saved only when it has a history |
| AccountService.BankAccountService.CreateAccount | src/main/java/com/mdci/bankaccount/application/service/BankAccountService.java:32-43 | a null initial balance is refused with nothing saved; otherwise a fresh zero-balance account under the UUID is saved and no operation is written |
| AccountService.BankAccountService.GetAccount | src/main/java/com/mdci/bankaccount/application/service/BankAccountService.java:46-54 | an unknown id is refused; otherwise the stored account, with its history replaced by the store's list and its balance replayed |
| StatementService.BankAccountStatementService.GenerateStatementForPeriod | src/main/java/com/mdci/bankaccount/application/service/BankAccountStatementService.java:25-49 | an unknown id or a start after the end is refused; otherwise the account's header with the operations in the period, missing bounds defaulting to a month ago and now |
| StatementService.DefaultPeriodAccepted | src/main/java/com/mdci/bankaccount/application/service/BankAccountStatementService.java:29-35 | with both bounds left out the statement is always produced, and covers a month ago to now |
| StatementService.SingleInstantPeriodAccepted | src/main/java/com/mdci/bankaccount/application/service/BankAccountStatementService.java:33-35 | a period whose start equals its end is accepted |
| Statements.SortByTimestampDesc | src/main/java/com/mdci/bankaccount/application/mapper/StatementMapper.java:14-15 | the result is sorted newest first and is a permutation of the input |
| Statements.SortStable | src/main/java/com/mdci/bankaccount/application/mapper/StatementMapper.java:14-15 | operations with equal timestamps keep their relative order (the sort is stable) |
| Statements.ToOperationDto | src/main/java/com/mdci/bankaccount/application/mapper/StatementMapper.java:16-21 | the DTO carries the operation's id, type name, amount and timestamp |
| Statements.ToDto | src/main/java/com/mdci/bankaccount/application/mapper/StatementMapper.java:13-33 | the header is copied, there is one DTO per operation, dates never increase, and each DTO comes from an operation of the statement |
| Statements.ToDtoOperations | src/main/java/com/mdci/bankaccount/application/mapper/StatementMapper.java:14-22 | the DTO list is exactly the sorted operations mapped one by one |
| OperationEntityMapper.ToEntity | src/main/java/com/mdci/bankaccount/infrastructure/persistence/mapper/BankOperationEntityMapper.java:10-18 | the entity carries the operation's id, type name, amount, timestamp and the parent account |
| OperationEntityMapper.ToDomain | src/main/java/com/mdci/bankaccount/infrastructure/persistence/mapper/BankOperationEntityMapper.java:20-27 | fails on a null or unknown type, then on a null or negative amount, then on the record's own checks; succeeds exactly when all pass |
| OperationEntityMapper.RoundTrip | src/main/java/com/mdci/bankaccount/infrastructure/persistence/mapper/BankOperationEntityMapper.java:10-27 | mapping a constructed operation to an entity and back gives it back |
| AccountEntityMapper.ToOperationEntity | src/main/java/com/mdci/bankaccount/infrastructure/persistence/mapper/BankAccountEntityMapper.java:72-80 | an entity with a null id, the type name, amount, timestamp and parent |
| AccountEntityMapper.ToOperation | src/main/java/com/mdci/bankaccount/infrastructure/persistence/mapper/BankAccountEntityMapper.java:82-89 | the same conversion as the operation mapper's, so an entity without id never maps back |
| AccountEntityMapper.OperationEntities | src/main/java/com/mdci/bankaccount/infrastructure/persistence/mapper/BankAccountEntityMapper.java:24-26 | one entity per history operation, in order |
| AccountEntityMapper.MapOperations | src/main/java/com/mdci/bankaccount/infrastructure/persistence/mapper/BankAccountEntityMapper.java:34-36 | succeeds exactly when every entity converts, with the converted list; otherwise the error of some entity |
| AccountEntityMapper.ToEntity | src/main/java/com/mdci/bankaccount/infrastructure/persistence/mapper/BankAccountEntityMapper.java:13-31 | the entity carries the id, overdraft, "EUR", type, the ceiling for a savings account only, and the history's entities |
| AccountEntityMapper.Ceiling | src/main/java/com/mdci/bankaccount/infrastructure/persistence/mapper/BankAccountEntityMapper.java:44 | a null ceiling reads as zero, a stored one through Money's check |
| AccountEntityMapper.ToDomain | src/main/java/com/mdci/bankaccount/infrastructure/persistence/mapper/BankAccountEntityMapper.java:33-46 | fails with the first unconvertible operation's error, then with the invalid-amount error for an invalid overdraft, then for an invalid ceiling; otherwise a typed account whose balance is the replay of the converted operations |
| AccountEntityMapper.ComputeBalanceFromOperations | src/main/java/com/mdci/bankaccount/infrastructure/persistence/mapper/BankAccountEntityMapper.java:61-70 | the loop's result is the signed sum |
| AccountEntityMapper.ToDomainWithBalanceOnly | src/main/java/com/mdci/bankaccount/infrastructure/persistence/mapper/BankAccountEntityMapper.java:48-59 | a negative replayed balance, an invalid stored overdraft or an invalid stored ceiling is refused, always with the invalid-amount error "Le montant doit être positif et non nul."; otherwise a typed account at that balance with no history |
| AccountEntityMapper.FreshEntitiesDoNotMapBack | src/main/java/com/mdci/bankaccount/infrastructure/persistence/mapper/BankAccountEntityMapper.java:72-89 | a non-empty history mapped to entities cannot be mapped back before ids are assigned: it fails on the id check |
| AccountEntityMapper.AssignIds | src/test/java/com/mdci/bankaccount/infrastructure/persistence/mapper/BankAccountEntityMapperTest.java:45-50 | each entity gets the given id and timestamp, nothing else changes |
| AccountEntityMapper.AssignedEntitiesMapBack | src/test/java/com/mdci/bankaccount/infrastructure/persistence/mapper/BankAccountEntityMapperTest.java:34-66 | once non-blank ids are assigned, the entities map back to operations with the original types and amounts, so the replayed balance is the original one |
| Requests.NewRequest | src/main/java/com/mdci/bankaccount/application/dto/CreateAccountRequestDTO.java:18-22 | a null overdraft becomes zero; the other fields are kept |
| Requests.Of | src/main/java/com/mdci/bankaccount/application/dto/CreateAccountRequestDTO.java:25-27 | the old-test factory builds a current-account request |
| Requests.FieldViolations | src/main/java/com/mdci/bankaccount/application/dto/CreateAccountRequestDTO.java:11-15 | one violation per field constraint, each present exactly when its field breaks it, with null values passing |
| Requests.IsValid | src/main/java/com/mdci/bankaccount/application/validation/CreateAccountValidator.java:12-25 | invalid exactly for a LIVRET with an overdraft above zero, reporting the single livret-overdraft violation on the overdraft |
| Requests.AcceptedRequestOverdraft | src/main/java/com/mdci/bankaccount/application/validation/CreateAccountValidator.java:16-24 | an accepted request has a non-negative overdraft, and zero for a livret |
| Requests.MissingOverdraftAccepted | src/main/java/com/mdci/bankaccount/application/dto/CreateAccountRequestDTO.java:18-22 | a request with no overdraft never breaks the overdraft rules |

## Left out

- The REST controllers, the exception handler, the PDF generator and the
  JPA repositories and adapters are not part of this model. The repository
  ports are in-memory maps. The storage adapter's between-dates query is a
  stub that returns an empty list; the model instead implements what the
  port promises.
- Calendar arithmetic (`minusMonths(1)`) is not modelled: the month-ago
  instant is a parameter. Time zones are not modelled either: instants are
  counted on one local time line.
- UUIDs are not generated randomly, so uniqueness is not modelled: each call
  receives the string as a parameter, typed by its canonical shape.
- BigDecimal scale (`50` against `50.00`) is not modelled: amounts are exact
  integers.
- Concurrency and transactions are not modelled.
- The codebase calls a six-argument `BankAccountFactory.rehydrate` and
  `rehydrateWithBalanceOnly` (type and ceiling), but those are not part of
  the factory's source. AccountFactory.RehydrateAs and
  AccountFactory.RehydrateWithBalanceOnlyAs reconstruct them: a LIVRET
  becomes a savings account, any other type a plain account. The mapper
  test's cast of a reloaded LIVRET to `SavingsAccount` supports this reading.
- Accounts.BankAccount.Deposit, Accounts.BankAccount.Withdraw,
  AccountFactory.Create (whose `deposit(null)` would dereference the amount)
  and the services take a non-null `Money`: a null argument is a
  NullPointerException in the source and is not modelled.
- Accounts.BankAccount.Savings takes a non-null ceiling: with a null ceiling
  the source's `deposit` and `toEntity` throw NullPointerException, and that
  path is not modelled.
- Entities.BankAccountEntity has a non-null id and account type, so the
  model does not cover `valueOf(null)` on a stored type.
- An operation entity refers to its parent account by id, not by an object
  reference.
- Subclassing is not modelled as subclassing: `SavingsAccount` is a
  `BankAccount` whose ceiling is present.
- The domain `BankOperationFactory` class and the port interface that
  `DefaultBankOperationFactory` implements are one union type.
- Accounts.BankAccount.New omits the "Le solde initial ne peut pas être
  négatif." branch: a Money is never negative in the model, so that branch
  cannot be reached.
- Loader.BankAccountLoader.LoadWithHistory: for a LIVRET account that is not
  a savings account, the reconstructed rehydration gives it overdraft zero.
- All not-found errors use the corrected message Errors.NotFound; the
  doubled message as written is modelled separately (see Findings).
- Some test sources no longer match the main code: a loader passed to
  `BankOperationService`, a three-argument `toDomainWithBalanceOnly`, and
  `MoneyTest` building a negative Money. The model follows the main code.
- Amounts.Of and Amounts.Zero: the main code calls `Money.of(...)` and
  `Money.zero()` (BankAccountEntityMapper, BankAccount, BankAccountFactory,
  SavingsAccount, BankAccountLoader), but `Money.java` defines neither. The
  model reads `Money.of` as the record's validating constructor and
  `Money.zero()` as a Money of zero.
- The validator's `ConstraintValidatorContext` is not modelled: the built
  violations are returned as a list.

## Findings

| source | as written | input that shows it | evidently intended | confidence | as-written member | corrected member |
|---|---|---|---|---|---|---|
| src/main/java/com/mdci/bankaccount/application/service/BankAccountService.java:47-48 | this service, and equally BankAccountLoader.java:23 and :39, BankOperationService.java:28, :35 and :42 and BankOperationRepositoryAdapter.java:36, pass "Aucun compte trouvé pour l'identifiant : " + id to `AccountNotFoundException`, whose constructor adds the same prefix again | account id "not-exist-id": the message is the prefix twice, then the id, not the message the service test expects | the prefix once, followed by the id | not executed | Errors.NotFoundMessageDoubled | Errors.NotFound |
| src/main/java/com/mdci/bankaccount/application/service/BankAccountStatementService.java:26-27 | the statement service passes "Aucun compte trouvé avec l’ID : " + id to the same prefixing constructor | any account id: the message is two sentences saying the same thing, then the id | the prefix once, followed by the id | not executed | Errors.StatementNotFoundDiffers | Errors.NotFound |
