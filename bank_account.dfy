/** The `BankAccount` aggregate and its `SavingsAccount` subclass: a balance
    and a history that deposits, withdrawals, replayed operations and reloads
    change in place. */
module Accounts {
  import opened Results
  import opened Errors
  import opened Time
  import opened Amounts
  import opened Operations
  import opened OperationFactories
  import opened WithdrawalPolicies
  import opened Ledger

  /** `AccountType`. */
  datatype AccountType = CompteCourant | Livret

  /** A `BankAccount`; a `SavingsAccount` is one whose `depositCeiling` is
      present (the subclass adds exactly that field). */
  class BankAccount {
    const id: string
    var balance: int
    const authorizedOverdraft: Money
    const withdrawalPolicy: WithdrawalPolicy
    var operations: seq<BankOperation>
    const operationFactory: OperationFactory
    const accountType: AccountType
    /** `SavingsAccount.depositCeiling`: `None` for a plain account. */
    const depositCeiling: Option<Money>

    /** `instanceof SavingsAccount`. */
    predicate IsSavings() {
      depositCeiling.Some?
    }

    /** What every constructor establishes: the policy was selected from the
        overdraft, and a savings account is a LIVRET without overdraft. All
        of it is over final fields, so no method can break it. */
    predicate Valid() {
      && withdrawalPolicy == Create(authorizedOverdraft)
      && (IsSavings() ==> accountType == Livret && authorizedOverdraft == Zero)
    }

    /** How far the balance is from the signed sum of the history. */
    ghost function Drift(): int
      reads this
    {
      balance - SignedSum(operations)
    }

    /** The balance is exactly what the history adds up to. */
    ghost predicate Consistent()
      reads this
    {
      Drift() == 0
    }

    /** The body of the public constructor once `initialBalance` has passed its
        null check: balance zero whatever the initial balance was, empty
        history, a missing overdraft read as zero and a missing type as
        COMPTE_COURANT. */
    constructor Open(id: string, operationFactory: OperationFactory, authorizedOverdraft: Option<Money>,
                     accountType: Option<AccountType>)
      ensures this.id == id && this.operationFactory == operationFactory
      ensures balance == 0 && operations == []
      ensures this.authorizedOverdraft == authorizedOverdraft.GetOr(Zero)
      ensures this.accountType == accountType.GetOr(CompteCourant)
      ensures !IsSavings() && Valid() && Consistent()
    {
      this.id := id;
      this.operations := [];
      this.operationFactory := operationFactory;
      this.authorizedOverdraft := authorizedOverdraft.GetOr(Zero);
      this.withdrawalPolicy := Create(authorizedOverdraft.GetOr(Zero));
      this.accountType := accountType.GetOr(CompteCourant);
      this.depositCeiling := None;
      this.balance := 0;
    }

    /** The package-private constructor used for rehydration: it trusts the
        balance it is given and starts with an empty history. */
    constructor Restore(id: string, balance: Money, authorizedOverdraft: Option<Money>,
                        operationFactory: OperationFactory, accountType: AccountType)
      ensures this.id == id && this.operationFactory == operationFactory
      ensures this.balance == balance.amount && operations == []
      ensures this.authorizedOverdraft == authorizedOverdraft.GetOr(Zero)
      ensures this.accountType == accountType
      ensures !IsSavings() && Valid()
      ensures Drift() == balance.amount
    {
      this.id := id;
      this.balance := balance.amount;
      this.operationFactory := operationFactory;
      this.authorizedOverdraft := authorizedOverdraft.GetOr(Zero);
      this.withdrawalPolicy := Create(authorizedOverdraft.GetOr(Zero));
      this.operations := [];
      this.accountType := accountType;
      this.depositCeiling := None;
    }

    /** The `SavingsAccount` constructor: the rehydration constructor with
        overdraft zero and type LIVRET, plus the ceiling. */
    constructor Savings(id: string, operationFactory: OperationFactory, initialBalance: Money, depositCeiling: Money)
      ensures this.id == id && this.operationFactory == operationFactory
      ensures balance == initialBalance.amount && operations == []
      ensures authorizedOverdraft == Zero && withdrawalPolicy == NoOverdraft
      ensures accountType == Livret
      ensures this.depositCeiling == Some(depositCeiling)
      ensures IsSavings() && Valid()
      ensures Drift() == initialBalance.amount
    {
      this.id := id;
      this.balance := initialBalance.amount;
      this.operationFactory := operationFactory;
      this.authorizedOverdraft := Zero;
      this.withdrawalPolicy := Create(Zero);
      this.operations := [];
      this.accountType := Livret;
      this.depositCeiling := Some(depositCeiling);
    }

    /** The public five-argument constructor: a missing initial balance is
        refused; otherwise the account opens at zero. */
    static method New(id: string, operationFactory: OperationFactory, initialBalance: Option<Money>,
                      authorizedOverdraft: Option<Money>, accountType: Option<AccountType>)
      returns (r: Result<BankAccount, Error>)
      ensures initialBalance.None? <==> r.Failure?
      ensures r.Failure? ==> r.error == InvalidAmount(InitialBalanceRequired)
      ensures r.Success? ==> fresh(r.value) && r.value.id == id && r.value.operationFactory == operationFactory
                             && r.value.balance == 0 && r.value.operations == []
                             && r.value.authorizedOverdraft == authorizedOverdraft.GetOr(Zero)
                             && r.value.accountType == accountType.GetOr(CompteCourant)
                             && !r.value.IsSavings() && r.value.Valid()
    {
      if initialBalance.None? {
        return Failure(InvalidAmount(InitialBalanceRequired));
      }
      var account := new BankAccount.Open(id, operationFactory, authorizedOverdraft, accountType);
      return Success(account);
    }

    /** The four-argument public constructor: type COMPTE_COURANT. */
    static method NewCurrent(id: string, operationFactory: OperationFactory, initialBalance: Option<Money>,
                             authorizedOverdraft: Option<Money>)
      returns (r: Result<BankAccount, Error>)
      ensures initialBalance.None? <==> r.Failure?
      ensures r.Failure? ==> r.error == InvalidAmount(InitialBalanceRequired)
      ensures r.Success? ==> fresh(r.value) && r.value.id == id && r.value.operationFactory == operationFactory
                             && r.value.balance == 0 && r.value.operations == []
                             && r.value.authorizedOverdraft == authorizedOverdraft.GetOr(Zero)
                             && r.value.accountType == CompteCourant
                             && !r.value.IsSavings() && r.value.Valid()
    {
      r := New(id, operationFactory, initialBalance, authorizedOverdraft, Some(CompteCourant));
    }

    /** The two-argument public constructor: zero balance, zero overdraft,
        COMPTE_COURANT. */
    static method NewEmpty(id: string, operationFactory: OperationFactory) returns (account: BankAccount)
      ensures fresh(account) && account.id == id && account.operationFactory == operationFactory
      ensures account.balance == 0 && account.operations == []
      ensures account.authorizedOverdraft == Zero && account.withdrawalPolicy == NoOverdraft
      ensures account.accountType == CompteCourant
      ensures !account.IsSavings() && account.Valid()
    {
      var r := New(id, operationFactory, Some(Zero), Some(Zero), Some(CompteCourant));
      account := r.value;
    }

    /** The four-argument rehydration constructor: type COMPTE_COURANT. */
    static method RestoreCurrent(id: string, balance: Money, authorizedOverdraft: Option<Money>,
                                 operationFactory: OperationFactory)
      returns (account: BankAccount)
      ensures fresh(account) && account.id == id && account.operationFactory == operationFactory
      ensures account.balance == balance.amount && account.operations == []
      ensures account.authorizedOverdraft == authorizedOverdraft.GetOr(Zero)
      ensures account.accountType == CompteCourant
      ensures !account.IsSavings() && account.Valid()
    {
      account := new BankAccount.Restore(id, balance, authorizedOverdraft, operationFactory, CompteCourant);
    }

    /** `getHistory()`: an unmodifiable copy, so later changes to the account
        do not show through it. */
    function History(): (h: seq<BankOperation>)
      reads this
      ensures |h| == |operations| && forall i :: 0 <= i < |h| ==> h[i] == operations[i]
    {
      operations
    }

    /** `SavingsAccount.getDepositCeiling()`. */
    function DepositCeiling(): (c: Money)
      requires IsSavings()
      ensures Some(c) == depositCeiling
    {
      depositCeiling.value
    }

    /** `BankAccount.deposit`: the balance first, then one DEPOSIT made by the
        account's factory, appended and returned. No check is made. */
    method BaseDeposit(amount: Money, uuid: Uuid, systemNow: Instant) returns (op: BankOperation)
      modifies this
      ensures op == BankOperation(uuid, OperationType.Deposit, amount, operationFactory.Clock().Now(systemNow))
      ensures balance == old(balance) + amount.amount
      ensures operations == old(operations) + [op]
      ensures Drift() == old(Drift())
    {
      balance := balance + amount.amount;
      var made := operationFactory.Deposit(Some(amount), uuid, systemNow);
      op := made.value;
      SignedSumAppend(operations, [op]);
      SignedSumSingleton(op);
      operations := operations + [op];
    }

    /** `deposit`, with `SavingsAccount`'s override: a savings account first
        wraps its balance in a Money (refused when negative), then refuses a
        deposit that would take it strictly above the ceiling; a deposit that
        passes is the plain deposit. */
    method Deposit(amount: Money, uuid: Uuid, systemNow: Instant) returns (r: Result<BankOperation, Error>)
      modifies this
      ensures r.Success? <==> !IsSavings() || (0 <= old(balance) && old(balance) + amount.amount <= DepositCeiling().amount)
      ensures IsSavings() && old(balance) < 0 ==> r == Failure(InvalidAmount(AmountMustBePositive))
      ensures IsSavings() && 0 <= old(balance) && old(balance) + amount.amount > DepositCeiling().amount
              ==> r == Failure(InvalidAmount(SavingsCeilingExceeded))
      ensures r.Failure? ==> balance == old(balance) && operations == old(operations)
      ensures r.Success? ==> r.value == BankOperation(uuid, OperationType.Deposit, amount, operationFactory.Clock().Now(systemNow))
                             && balance == old(balance) + amount.amount
                             && operations == old(operations) + [r.value]
      ensures IsSavings() && r.Success? ==> balance <= DepositCeiling().amount
      ensures Drift() == old(Drift())
    {
      if IsSavings() {
        var current := Amounts.Of(Some(balance));
        if current.Failure? {
          return Failure(current.error);
        }
        var newBalance := current.value.Add(amount);
        if newBalance.amount > depositCeiling.value.amount {
          return Failure(InvalidAmount(SavingsCeilingExceeded));
        }
      }
      var op := BaseDeposit(amount, uuid, systemNow);
      return Success(op);
    }

    /** `withdraw`: the policy decides first; a refused withdrawal changes
        nothing, an accepted one lowers the balance and appends one WITHDRAWAL. */
    method Withdraw(amount: Money, uuid: Uuid, systemNow: Instant) returns (r: Result<BankOperation, Error>)
      requires Valid()
      modifies this
      ensures r.Success? <==> old(balance) - amount.amount >= -(authorizedOverdraft.amount as int)
      ensures r.Failure? ==> r.error == InsufficientBalance(if authorizedOverdraft.amount > 0 then OverdraftLimitReached else BalanceTooLow)
      ensures r.Failure? ==> balance == old(balance) && operations == old(operations)
      ensures r.Success? ==> r.value == BankOperation(uuid, Withdrawal, amount, operationFactory.Clock().Now(systemNow))
                             && balance == old(balance) - amount.amount
                             && operations == old(operations) + [r.value]
      ensures r.Success? ==> balance >= -(authorizedOverdraft.amount as int)
      ensures Drift() == old(Drift())
    {
      SelectedPolicyFloor(balance, authorizedOverdraft, amount);
      var check := CheckWithdrawal(withdrawalPolicy, balance, authorizedOverdraft, amount);
      if check.Fail? {
        return Failure(check.error);
      }
      balance := balance - amount.amount;
      var made := operationFactory.Withdrawal(Some(amount), uuid, systemNow);
      var op := made.value;
      SignedSumAppend(operations, [op]);
      SignedSumSingleton(op);
      operations := operations + [op];
      return Success(op);
    }

    /** `applyOperation`: replays an operation without asking the policy. */
    method ApplyOperation(op: BankOperation)
      modifies this
      ensures balance == old(balance) + op.Value()
      ensures operations == old(operations) + [op]
      ensures Drift() == old(Drift())
    {
      balance := balance + op.Value();
      SignedSumAppend(operations, [op]);
      SignedSumSingleton(op);
      operations := operations + [op];
    }

    /** `computeBalanceUntil(date)`: filter by day, map to values, reduce. */
    function ComputeBalanceUntil(date: LocalDate): (r: int)
      reads this
      ensures r == BalanceUntil(operations, date)
    {
      var kept := Filter(operations, OnOrBefore(date));
      ReduceValues(0, kept);
      Reduce(0, Values(kept))
    }

    /** `computeBalanceFromOperations(ops)`: the signed sum of the argument; the
        account's own state plays no part. */
    function ComputeBalanceFromOperations(ops: seq<BankOperation>): (r: int)
      ensures r == SignedSum(ops)
    {
      ReduceValues(0, ops);
      Reduce(0, Values(ops))
    }

    /** `loadOperations`: a null list is refused; otherwise the history becomes
        the list and the balance is recomputed from it. */
    method LoadOperations(ops: Option<seq<BankOperation>>) returns (r: Outcome<Error>)
      modifies this
      ensures ops.None? <==> r.Fail?
      ensures r.Fail? ==> r.error == Functional(OperationsMustNotBeNull)
                          && balance == old(balance) && operations == old(operations)
      ensures r.Pass? ==> operations == ops.value && balance == SignedSum(ops.value) && Consistent()
    {
      if ops.None? {
        return Fail(Functional(OperationsMustNotBeNull));
      }
      operations := ops.value;
      balance := ComputeBalanceFromOperations(ops.value);
      return Pass;
    }
  }
}
