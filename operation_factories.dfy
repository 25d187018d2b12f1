/** The two operation factories: the domain `BankOperationFactory` and the
    infrastructure `DefaultBankOperationFactory`. Each holds only the clock it
    was given, so each is a value. */
module OperationFactories {
  import opened Results
  import opened Errors
  import opened Time
  import opened Operations

  /** `domain.model.BankOperationFactory`. */
  datatype BankOperationFactory = BankOperationFactory(clock: Clock) {

    /** `deposit(amount)`: a new DEPOSIT stamped with the clock's time; a
        missing amount is refused by the operation's constructor. */
    function Deposit(amount: Option<Money>, uuid: Uuid, systemNow: Instant): (r: Result<BankOperation, Error>)
      ensures r == DepositOf(amount, clock, uuid, systemNow)
    {
      NewOperation(Some(uuid), Operations.Deposit, amount, Some(clock.Now(systemNow)))
    }

    /** `withdrawal(amount)`: the same with WITHDRAWAL. */
    function Withdrawal(amount: Option<Money>, uuid: Uuid, systemNow: Instant): (r: Result<BankOperation, Error>)
      ensures r == WithdrawalOf(amount, clock, uuid, systemNow)
    {
      NewOperation(Some(uuid), Operations.Withdrawal, amount, Some(clock.Now(systemNow)))
    }
  }

  /** `infrastructure.operation.DefaultBankOperationFactory`, the one the
      application wires in with `Clock.systemUTC()`. */
  datatype DefaultBankOperationFactory = DefaultBankOperationFactory(clock: Clock) {

    function Deposit(amount: Option<Money>, uuid: Uuid, systemNow: Instant): (r: Result<BankOperation, Error>)
      ensures amount.Some? ==> r.Success? && r.value == BankOperation(uuid, Operations.Deposit, amount.value, clock.Now(systemNow))
      ensures amount.None? ==> r == Failure(InvalidAmount(AmountMustBePositive))
    {
      UuidNotBlank(uuid);
      NewOperation(Some(uuid), Operations.Deposit, amount, Some(clock.Now(systemNow)))
    }

    function Withdrawal(amount: Option<Money>, uuid: Uuid, systemNow: Instant): (r: Result<BankOperation, Error>)
      ensures amount.Some? ==> r.Success? && r.value == BankOperation(uuid, Operations.Withdrawal, amount.value, clock.Now(systemNow))
      ensures amount.None? ==> r == Failure(InvalidAmount(AmountMustBePositive))
    {
      UuidNotBlank(uuid);
      NewOperation(Some(uuid), Operations.Withdrawal, amount, Some(clock.Now(systemNow)))
    }
  }

  /** The factory an account holds: either implementation. */
  datatype OperationFactory =
    | Domain(domain: BankOperationFactory)
    | Default(default: DefaultBankOperationFactory)
  {
    function Clock(): Clock {
      match this
      case Domain(f) => f.clock
      case Default(f) => f.clock
    }

    function Deposit(amount: Option<Money>, uuid: Uuid, systemNow: Instant): (r: Result<BankOperation, Error>)
      ensures r == DepositOf(amount, Clock(), uuid, systemNow)
    {
      match this
      case Domain(f) => f.Deposit(amount, uuid, systemNow)
      case Default(f) => f.Deposit(amount, uuid, systemNow)
    }

    function Withdrawal(amount: Option<Money>, uuid: Uuid, systemNow: Instant): (r: Result<BankOperation, Error>)
      ensures r == WithdrawalOf(amount, Clock(), uuid, systemNow)
    {
      match this
      case Domain(f) => f.Withdrawal(amount, uuid, systemNow)
      case Default(f) => f.Withdrawal(amount, uuid, systemNow)
    }
  }

  /** Both implementations build the very same operation from the same clock,
      id and wall-clock reading. */
  lemma FactoriesAgree(clock: Clock, amount: Option<Money>, uuid: Uuid, systemNow: Instant)
    ensures BankOperationFactory(clock).Deposit(amount, uuid, systemNow)
         == DefaultBankOperationFactory(clock).Deposit(amount, uuid, systemNow)
    ensures BankOperationFactory(clock).Withdrawal(amount, uuid, systemNow)
         == DefaultBankOperationFactory(clock).Withdrawal(amount, uuid, systemNow)
  {
  }

  /** With a fixed clock, the time stamped on an operation does not depend on
      the wall clock: the tests' `Clock.fixed(...)` makes timestamps exact. */
  lemma FixedClockStamps(f: OperationFactory, m: Money, uuid: Uuid, wall1: Instant, wall2: Instant)
    requires f.Clock().FixedClock?
    ensures f.Deposit(Some(m), uuid, wall1) == f.Deposit(Some(m), uuid, wall2)
    ensures f.Deposit(Some(m), uuid, wall1).value.timestamp == f.Clock().instant
    ensures f.Withdrawal(Some(m), uuid, wall1).value.timestamp == f.Clock().instant
  {
  }
}
