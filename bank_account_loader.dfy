/** `BankAccountLoader`: rebuilds a fresh account from a stored one, either
    with its full history from the operation store, or with its balance alone. */
module Loader {
  import opened Results
  import opened Errors
  import opened Amounts
  import opened Operations
  import opened Ledger
  import opened Accounts
  import opened Repositories
  import AccountFactory

  class BankAccountLoader {
    const accountRepository: AccountRepository
    const operationRepository: OperationRepository

    constructor (accountRepository: AccountRepository, operationRepository: OperationRepository)
      ensures this.accountRepository == accountRepository && this.operationRepository == operationRepository
    {
      this.accountRepository := accountRepository;
      this.operationRepository := operationRepository;
    }

    /** `getDepositCeiling(base)`: a savings account's ceiling, zero for any
        other account. */
    static function GetDepositCeiling(base: BankAccount): (c: Money)
      ensures base.IsSavings() ==> Some(c) == base.depositCeiling
      ensures !base.IsSavings() ==> c == Zero
    {
      if base.IsSavings() then base.DepositCeiling() else Zero
    }

    /** `loadWithHistory(accountId)`: the stored account's id, factory, type
        and overdraft, with the store's history replayed; the stored balance
        plays no part. */
    method LoadWithHistory(accountId: string) returns (r: Result<BankAccount, Error>)
      requires accountRepository.Valid()
      ensures accountId !in accountRepository.accounts <==> r.Failure?
      ensures r.Failure? ==> r.error == NotFound(accountId)
      ensures r.Success? ==>
        var base := accountRepository.accounts[accountId];
        var history := operationRepository.FindAllByAccountId(accountId);
        && fresh(r.value)
        && r.value.id == accountId && r.value.operationFactory == base.operationFactory
        && r.value.accountType == base.accountType
        && r.value.operations == history && r.value.balance == SignedSum(history) && r.value.Consistent()
        && (base.accountType != Livret ==> r.value.authorizedOverdraft == base.authorizedOverdraft)
        && (base.IsSavings() ==> r.value.depositCeiling == base.depositCeiling
                                 && r.value.authorizedOverdraft == base.authorizedOverdraft)
        && r.value.Valid()
    {
      var found := accountRepository.FindById(accountId);
      if found.None? {
        return Failure(NotFound(accountId));
      }
      var base := found.value;
      var history := operationRepository.FindAllByAccountId(accountId);
      r := AccountFactory.RehydrateAs(base.id, base.operationFactory, Some(base.authorizedOverdraft), Some(history),
                                      base.accountType, GetDepositCeiling(base));
    }

    /** `loadWithoutHistory(accountId)`: the stored account's balance, wrapped
        in a Money (so a negative balance is refused), and no history. */
    method LoadWithoutHistory(accountId: string) returns (r: Result<BankAccount, Error>)
      requires accountRepository.Valid()
      ensures accountId !in accountRepository.accounts ==> r == Failure(NotFound(accountId))
      ensures accountId in accountRepository.accounts && accountRepository.accounts[accountId].balance < 0
              ==> r == Failure(InvalidAmount(AmountMustBePositive))
      ensures r.Success? <==> accountId in accountRepository.accounts && accountRepository.accounts[accountId].balance >= 0
      ensures r.Success? ==>
        var base := accountRepository.accounts[accountId];
        && fresh(r.value)
        && r.value.id == accountId && r.value.operationFactory == base.operationFactory
        && r.value.accountType == base.accountType
        && r.value.balance == base.balance && r.value.operations == []
        && (base.accountType != Livret ==> r.value.authorizedOverdraft == base.authorizedOverdraft)
        && (base.IsSavings() ==> r.value.depositCeiling == base.depositCeiling
                                 && r.value.authorizedOverdraft == base.authorizedOverdraft)
        && r.value.Valid()
    {
      var found := accountRepository.FindById(accountId);
      if found.None? {
        return Failure(NotFound(accountId));
      }
      var base := found.value;
      var balance := Amounts.Of(Some(base.balance));
      if balance.Failure? {
        return Failure(balance.error);
      }
      var account := AccountFactory.RehydrateWithBalanceOnlyAs(base.id, base.operationFactory, balance.value,
                                                               Some(base.authorizedOverdraft), base.accountType,
                                                               GetDepositCeiling(base));
      return Success(account);
    }
  }
}
