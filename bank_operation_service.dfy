/** `BankOperationService`: deposits and withdrawals on a stored account, each
    saved to the operation store only when the account accepted it, and the
    balance as of a day computed from the store. */
module OperationService {
  import opened Results
  import opened Errors
  import opened Time
  import opened Amounts
  import opened Operations
  import opened Ledger
  import opened Accounts
  import opened Repositories

  class BankOperationService {
    const accountRepository: AccountRepository
    const operationRepository: OperationRepository

    constructor (accountRepository: AccountRepository, operationRepository: OperationRepository)
      ensures this.accountRepository == accountRepository && this.operationRepository == operationRepository
    {
      this.accountRepository := accountRepository;
      this.operationRepository := operationRepository;
    }

    /** `deposit(accountId, amount)`: an unknown id is refused before anything
        is written; otherwise the account's own deposit rules decide, and the
        one operation it returns is saved. */
    method Deposit(accountId: string, amount: Money, uuid: Uuid, systemNow: Instant) returns (r: Outcome<Error>)
      requires accountRepository.Valid()
      modifies operationRepository, accountRepository.Footprint(accountId)
      ensures accountId !in accountRepository.accounts ==>
        r == Fail(NotFound(accountId)) && operationRepository.operations == old(operationRepository.operations)
      ensures accountId in accountRepository.accounts ==>
        var a := accountRepository.accounts[accountId];
        && (r.Pass? <==> !a.IsSavings() || (0 <= old(a.balance) && old(a.balance) + amount.amount <= a.DepositCeiling().amount))
        && (r.Fail? ==> r.error == InvalidAmount(if old(a.balance) < 0 then AmountMustBePositive else SavingsCeilingExceeded)
                        && a.balance == old(a.balance) && a.operations == old(a.operations)
                        && operationRepository.operations == old(operationRepository.operations))
        && (r.Pass? ==>
              var op := BankOperation(uuid, OperationType.Deposit, amount, a.operationFactory.Clock().Now(systemNow));
              && a.balance == old(a.balance) + amount.amount
              && a.operations == old(a.operations) + [op]
              && operationRepository.operations
                 == old(operationRepository.operations)[accountId := old(operationRepository.FindAllByAccountId(accountId)) + [op]])
    {
      var found := accountRepository.FindById(accountId);
      if found.None? {
        return Fail(NotFound(accountId));
      }
      var account := found.value;
      var made := account.Deposit(amount, uuid, systemNow);
      if made.Failure? {
        return Fail(made.error);
      }
      var saved := operationRepository.Save(account, made.value);
      return Pass;
    }

    /** `withdraw(accountId, amount)`: the same with the account's withdrawal
        policy deciding. */
    method Withdraw(accountId: string, amount: Money, uuid: Uuid, systemNow: Instant) returns (r: Outcome<Error>)
      requires accountRepository.Valid()
      modifies operationRepository, accountRepository.Footprint(accountId)
      ensures accountId !in accountRepository.accounts ==>
        r == Fail(NotFound(accountId)) && operationRepository.operations == old(operationRepository.operations)
      ensures accountId in accountRepository.accounts ==>
        var a := accountRepository.accounts[accountId];
        && (r.Pass? <==> old(a.balance) - amount.amount >= -(a.authorizedOverdraft.amount as int))
        && (r.Fail? ==> r.error == InsufficientBalance(if a.authorizedOverdraft.amount > 0 then OverdraftLimitReached else BalanceTooLow)
                        && a.balance == old(a.balance) && a.operations == old(a.operations)
                        && operationRepository.operations == old(operationRepository.operations))
        && (r.Pass? ==>
              var op := BankOperation(uuid, Withdrawal, amount, a.operationFactory.Clock().Now(systemNow));
              && a.balance == old(a.balance) - amount.amount
              && a.operations == old(a.operations) + [op]
              && operationRepository.operations
                 == old(operationRepository.operations)[accountId := old(operationRepository.FindAllByAccountId(accountId)) + [op]])
    {
      var found := accountRepository.FindById(accountId);
      if found.None? {
        return Fail(NotFound(accountId));
      }
      var account := found.value;
      var made := account.Withdraw(amount, uuid, systemNow);
      if made.Failure? {
        return Fail(made.error);
      }
      var saved := operationRepository.Save(account, made.value);
      return Pass;
    }

    /** `getBalanceAtDate(accountId, date)`: the signed sum of the stored
        operations that fall on or before the day, whatever the account's own
        balance says. */
    function GetBalanceAtDate(accountId: string, date: LocalDate): (r: Result<int, Error>)
      reads accountRepository, operationRepository
      ensures accountId !in accountRepository.accounts <==> r.Failure?
      ensures r.Failure? ==> r.error == NotFound(accountId)
      ensures r.Success? ==> r.value == BalanceUntil(operationRepository.FindAllByAccountId(accountId), date)
    {
      match accountRepository.FindById(accountId)
      case None => Failure(NotFound(accountId))
      case Some(account) =>
        Success(account.ComputeBalanceFromOperations(operationRepository.FindAllByAccountIdUntilDate(accountId, date)))
    }
  }

  /** When every stored operation of an account falls on or before the day,
      the balance at that day is the full signed sum of the store. */
  lemma BalanceAtDateCoversStore(service: BankOperationService, accountId: string, date: LocalDate)
    requires accountId in service.accountRepository.accounts
    requires var ops := service.operationRepository.FindAllByAccountId(accountId);
             forall i :: 0 <= i < |ops| ==> DateOf(ops[i].timestamp) <= date
    ensures service.GetBalanceAtDate(accountId, date)
         == Success(SignedSum(service.operationRepository.FindAllByAccountId(accountId)))
  {
    BalanceUntilCoversAll(service.operationRepository.FindAllByAccountId(accountId), date);
  }
}
