/** `BankAccountService`: opening an account and fetching one with its
    history reloaded from the operation store. */
module AccountService {
  import opened Results
  import opened Errors
  import opened Time
  import opened Amounts
  import opened Operations
  import opened OperationFactories
  import opened Ledger
  import opened Accounts
  import opened Repositories

  class BankAccountService {
    const repository: AccountRepository
    const operationRepository: OperationRepository
    const operationFactory: OperationFactory
    const clock: Clock

    constructor Init(operationRepository: OperationRepository, repository: AccountRepository,
                     operationFactory: OperationFactory, clock: Clock)
      ensures this.operationRepository == operationRepository && this.repository == repository
      ensures this.operationFactory == operationFactory && this.clock == clock
    {
      this.operationRepository := operationRepository;
      this.repository := repository;
      this.operationFactory := operationFactory;
      this.clock := clock;
    }

    /** The constructor: each dependency is checked for null in parameter
        order, and the first missing one is reported with its own message. */
    static method New(operationRepository: OperationRepository?, repository: AccountRepository?,
                      operationFactory: Option<OperationFactory>, clock: Option<Clock>)
      returns (r: Result<BankAccountService, Error>)
      ensures r.Success? <==> operationRepository != null && repository != null && operationFactory.Some? && clock.Some?
      ensures operationRepository == null ==> r == Failure(NullPointer(OperationRepositoryRequired))
      ensures operationRepository != null && repository == null ==> r == Failure(NullPointer(AccountRepositoryRequired))
      ensures operationRepository != null && repository != null && operationFactory.None?
              ==> r == Failure(NullPointer(OperationFactoryRequired))
      ensures operationRepository != null && repository != null && operationFactory.Some? && clock.None?
              ==> r == Failure(NullPointer(ClockRequired))
      ensures r.Success? ==> fresh(r.value)
                             && r.value.operationRepository == operationRepository && r.value.repository == repository
                             && r.value.operationFactory == operationFactory.value && r.value.clock == clock.value
    {
      if operationRepository == null {
        return Failure(NullPointer(OperationRepositoryRequired));
      }
      if repository == null {
        return Failure(NullPointer(AccountRepositoryRequired));
      }
      if operationFactory.None? {
        return Failure(NullPointer(OperationFactoryRequired));
      }
      if clock.None? {
        return Failure(NullPointer(ClockRequired));
      }
      var service := new BankAccountService.Init(operationRepository, repository, operationFactory.value, clock.value);
      return Success(service);
    }

    /** The saving step of `createAccount`: the first history entry, if there
        is one, is taken before the account is saved and is saved after it. */
    method SaveWithOpeningOperation(account: BankAccount) returns (saved: BankAccount)
      requires repository.Valid() && account.Valid()
      modifies repository, operationRepository
      ensures saved == account
      ensures repository.accounts == old(repository.accounts)[account.id := account] && repository.Valid()
      ensures |account.operations| > 0 ==>
        operationRepository.operations
        == old(operationRepository.operations)[account.id := old(operationRepository.FindAllByAccountId(account.id)) + [account.operations[0]]]
      ensures |account.operations| == 0 ==> operationRepository.operations == old(operationRepository.operations)
    {
      var initOp: Option<BankOperation> := None;
      if |account.History()| > 0 {
        initOp := Some(account.History()[0]);
      }
      saved := repository.Save(account);
      if initOp.Some? {
        var op := operationRepository.Save(saved, initOp.value);
      }
    }

    /** `createAccount(initialBalance, overdraft)`: the validating constructor
        under a fresh id, so a missing initial balance is refused before
        anything is saved; the new account opens at zero with no history, so
        only the account itself is saved. */
    method CreateAccount(initialBalance: Option<Money>, authorizedOverdraft: Option<Money>, uuid: Uuid)
      returns (r: Result<BankAccount, Error>)
      requires repository.Valid()
      modifies repository, operationRepository
      ensures initialBalance.None? <==> r.Failure?
      ensures r.Failure? ==> r.error == InvalidAmount(InitialBalanceRequired)
                             && repository.accounts == old(repository.accounts)
      ensures r.Success? ==> fresh(r.value) && r.value.id == uuid && r.value.operationFactory == operationFactory
                             && r.value.balance == 0 && r.value.operations == []
                             && r.value.authorizedOverdraft == authorizedOverdraft.GetOr(Zero)
                             && r.value.accountType == CompteCourant
                             && repository.accounts == old(repository.accounts)[uuid := r.value]
      ensures operationRepository.operations == old(operationRepository.operations)
      ensures repository.Valid()
    {
      var made := BankAccount.NewCurrent(uuid, operationFactory, initialBalance, authorizedOverdraft);
      if made.Failure? {
        return Failure(made.error);
      }
      var account := SaveWithOpeningOperation(made.value);
      return Success(account);
    }

    /** `getAccount(accountId)`: an unknown id is refused; otherwise the stored
        account's history is replaced by the store's list and its balance
        recomputed from it. */
    method GetAccount(accountId: string) returns (r: Result<BankAccount, Error>)
      requires repository.Valid()
      modifies repository.Footprint(accountId)
      ensures accountId !in repository.accounts <==> r.Failure?
      ensures r.Failure? ==> r.error == NotFound(accountId)
      ensures r.Success? ==> r.value == repository.accounts[accountId]
                             && r.value.operations == operationRepository.FindAllByAccountId(accountId)
                             && r.value.balance == SignedSum(r.value.operations)
                             && r.value.Consistent()
    {
      var found := repository.FindById(accountId);
      if found.None? {
        return Failure(NotFound(accountId));
      }
      var account := found.value;
      var operations := operationRepository.FindAllByAccountId(accountId);
      var loaded := account.LoadOperations(Some(operations));
      return Success(account);
    }
  }
}
