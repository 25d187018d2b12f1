/** `BankAccountFactory`: opening an account with its first deposit, and
    rebuilding one from storage, with or without its history. */
module AccountFactory {
  import opened Results
  import opened Errors
  import opened Time
  import opened Amounts
  import opened Operations
  import opened OperationFactories
  import opened WithdrawalPolicies
  import opened Ledger
  import opened Accounts

  /** `create`: a COMPTE_COURANT opened at zero, then one deposit of the
      initial balance, made even when that balance is zero. */
  method Create(id: string, initialBalance: Money, authorizedOverdraft: Option<Money>,
                operationFactory: OperationFactory, uuid: Uuid, systemNow: Instant)
    returns (account: BankAccount)
    ensures fresh(account) && account.id == id && account.operationFactory == operationFactory
    ensures account.balance == initialBalance.amount
    ensures account.operations == [BankOperation(uuid, Deposit, initialBalance, operationFactory.Clock().Now(systemNow))]
    ensures account.authorizedOverdraft == authorizedOverdraft.GetOr(Zero)
    ensures account.withdrawalPolicy == WithdrawalPolicies.Create(authorizedOverdraft.GetOr(Zero))
    ensures account.accountType == CompteCourant
    ensures !account.IsSavings() && account.Valid() && account.Consistent()
  {
    var newAccount := BankAccount.NewCurrent(id, operationFactory, Some(Zero), authorizedOverdraft);
    account := newAccount.value;
    var op := account.Deposit(initialBalance, uuid, systemNow);
  }

  /** `rehydrate`: a COMPTE_COURANT restored at zero, then the history loaded,
      which recomputes the balance; a null history is refused. */
  method Rehydrate(id: string, operationFactory: OperationFactory, authorizedOverdraft: Option<Money>,
                   operations: Option<seq<BankOperation>>)
    returns (r: Result<BankAccount, Error>)
    ensures operations.None? <==> r.Failure?
    ensures r.Failure? ==> r.error == Functional(OperationsMustNotBeNull)
    ensures r.Success? ==> fresh(r.value) && r.value.id == id && r.value.operationFactory == operationFactory
                           && r.value.operations == operations.value
                           && r.value.balance == SignedSum(operations.value)
                           && r.value.authorizedOverdraft == authorizedOverdraft.GetOr(Zero)
                           && r.value.accountType == CompteCourant
                           && !r.value.IsSavings() && r.value.Valid() && r.value.Consistent()
  {
    var account := BankAccount.RestoreCurrent(id, Zero, authorizedOverdraft, operationFactory);
    var loaded := account.LoadOperations(operations);
    if loaded.Fail? {
      return Failure(loaded.error);
    }
    return Success(account);
  }

  /** `rehydrateWithBalanceOnly`: the given balance is trusted and no history
      is kept. */
  method RehydrateWithBalanceOnly(id: string, operationFactory: OperationFactory, balance: Money,
                                  authorizedOverdraft: Option<Money>)
    returns (account: BankAccount)
    ensures fresh(account) && account.id == id && account.operationFactory == operationFactory
    ensures account.balance == balance.amount && account.operations == []
    ensures account.authorizedOverdraft == authorizedOverdraft.GetOr(Zero)
    ensures account.accountType == CompteCourant
    ensures !account.IsSavings() && account.Valid()
  {
    account := BankAccount.RestoreCurrent(id, balance, authorizedOverdraft, operationFactory);
  }

  /** The six-argument `rehydrate` the loader and the entity mapper call: a
      LIVRET comes back as a savings account with the given ceiling (and, as
      every savings account, no overdraft), any other type as a plain
      account; then the history is loaded. */
  method RehydrateAs(id: string, operationFactory: OperationFactory, authorizedOverdraft: Option<Money>,
                     operations: Option<seq<BankOperation>>, accountType: AccountType, depositCeiling: Money)
    returns (r: Result<BankAccount, Error>)
    ensures operations.None? <==> r.Failure?
    ensures r.Failure? ==> r.error == Functional(OperationsMustNotBeNull)
    ensures r.Success? ==> fresh(r.value) && r.value.id == id && r.value.operationFactory == operationFactory
                           && r.value.operations == operations.value
                           && r.value.balance == SignedSum(operations.value)
                           && r.value.accountType == accountType
                           && (accountType == Livret <==> r.value.IsSavings())
                           && (accountType == Livret ==> r.value.depositCeiling == Some(depositCeiling)
                                                         && r.value.authorizedOverdraft == Zero)
                           && (accountType != Livret ==> r.value.authorizedOverdraft == authorizedOverdraft.GetOr(Zero))
                           && r.value.Valid() && r.value.Consistent()
  {
    var account: BankAccount;
    if accountType == Livret {
      account := new BankAccount.Savings(id, operationFactory, Zero, depositCeiling);
    } else {
      account := new BankAccount.Restore(id, Zero, authorizedOverdraft, operationFactory, accountType);
    }
    var loaded := account.LoadOperations(operations);
    if loaded.Fail? {
      return Failure(loaded.error);
    }
    return Success(account);
  }

  /** The six-argument `rehydrateWithBalanceOnly`, built the same way but with
      the given balance and no history. */
  method RehydrateWithBalanceOnlyAs(id: string, operationFactory: OperationFactory, balance: Money,
                                    authorizedOverdraft: Option<Money>, accountType: AccountType, depositCeiling: Money)
    returns (account: BankAccount)
    ensures fresh(account) && account.id == id && account.operationFactory == operationFactory
    ensures account.balance == balance.amount && account.operations == []
    ensures account.accountType == accountType
    ensures accountType == Livret <==> account.IsSavings()
    ensures accountType == Livret ==> account.depositCeiling == Some(depositCeiling) && account.authorizedOverdraft == Zero
    ensures accountType != Livret ==> account.authorizedOverdraft == authorizedOverdraft.GetOr(Zero)
    ensures account.Valid()
  {
    if accountType == Livret {
      account := new BankAccount.Savings(id, operationFactory, balance, depositCeiling);
    } else {
      account := new BankAccount.Restore(id, balance, authorizedOverdraft, operationFactory, accountType);
    }
  }

  /** `BankAccountFactory.computeBalanceFromOperations`: a loop that adds each
      deposit and subtracts each withdrawal. */
  method ComputeBalanceFromOperations(operations: seq<BankOperation>) returns (balance: int)
    ensures balance == SignedSum(operations)
    ensures balance == Deposited(operations) - Withdrawn(operations)
  {
    balance := 0;
    for i := 0 to |operations|
      invariant balance == SignedSum(operations[..i])
    {
      assert operations[..i + 1][..i] == operations[..i];
      var op := operations[i];
      match op.kind {
        case Deposit => balance := balance + op.amount.amount;
        case Withdrawal => balance := balance - op.amount.amount;
      }
    }
    assert operations[..|operations|] == operations;
    SignedSumIsDepositedMinusWithdrawn(operations);
  }

  /** The loop and the stream reduction agree, whatever the order of the
      operations handed to either. */
  lemma LoopAgreesWithStream(account: BankAccount, a: seq<BankOperation>, b: seq<BankOperation>)
    requires multiset(a) == multiset(b)
    ensures account.ComputeBalanceFromOperations(a) == SignedSum(b)
  {
    SignedSumPermutation(a, b);
  }
}
