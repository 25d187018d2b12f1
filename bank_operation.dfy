/** The `BankOperation` record: one deposit or withdrawal, with an id, an
    amount and a timestamp, validated when it is built. */
module Operations {
  import opened Results
  import opened Errors
  import opened Time
  import Amounts

  type Money = Amounts.Money

  /** `BankOperation.OperationType`. */
  datatype OperationType = Deposit | Withdrawal

  /** `OperationType.name()`. */
  function TypeName(k: OperationType): (s: string)
    ensures s == "DEPOSIT" <==> k == Deposit
    ensures s == "WITHDRAWAL" <==> k == Withdrawal
  {
    match k
    case Deposit => "DEPOSIT"
    case Withdrawal => "WITHDRAWAL"
  }

  /** `Enum.valueOf`'s message names the enum by its canonical class name. */
  const NoEnumConstantPrefix: string := "No enum constant com.mdci.bankaccount.domain.model.BankOperation.OperationType."

  /** `OperationType.valueOf(name)`: a null name dereferences null, an unknown
      name is an illegal argument. */
  function ParseType(name: Option<string>): (r: Result<OperationType, Error>)
    ensures r.Success? <==> name == Some("DEPOSIT") || name == Some("WITHDRAWAL")
    ensures r.Success? ==> TypeName(r.value) == name.value
    ensures name.None? ==> r.Failure? && r.error.NullPointer?
    ensures name.Some? && r.Failure? ==> r.error == IllegalArgument(NoEnumConstantPrefix + name.value)
  {
    match name
    case None => Failure(NullPointer("Name is null"))
    case Some(s) =>
      if s == "DEPOSIT" then Success(Deposit)
      else if s == "WITHDRAWAL" then Success(Withdrawal)
      else Failure(IllegalArgument(NoEnumConstantPrefix + s))
  }

  /** Reading back the name of a type gives that type. */
  lemma ParseTypeName(k: OperationType)
    ensures ParseType(Some(TypeName(k))) == Success(k)
  {
  }

  /** `Character.isWhitespace` on a code point: the Unicode space separators
      except the three non-breaking ones, the line and paragraph separators,
      and the ASCII controls U+0009..U+000D and U+001C..U+001F. */
  predicate IsWhitespace(c: char) {
    || c == ' ' || c == '\U{1680}'
    || ('\U{2000}' <= c <= '\U{200A}' && c != '\U{2007}')
    || c == '\U{205F}' || c == '\U{3000}'
    || c == '\U{2028}' || c == '\U{2029}'
    || ('\t' <= c <= '\r')
    || ('\U{001C}' <= c <= '\U{001F}')
  }

  /** `String.isBlank()`: empty, or nothing but whitespace. */
  predicate IsBlank(s: string) {
    forall i :: 0 <= i < |s| ==> IsWhitespace(s[i])
  }

  predicate IsHexDigit(c: char) {
    '0' <= c <= '9' || 'a' <= c <= 'f'
  }

  predicate IsUuidDash(i: int) {
    i == 8 || i == 13 || i == 18 || i == 23
  }

  /** The shape of `UUID.randomUUID().toString()`: 36 characters, four dashes,
      lower-case hexadecimal digits elsewhere. */
  predicate IsCanonicalUuid(s: string) {
    |s| == 36 && forall i :: 0 <= i < 36 ==> if IsUuidDash(i) then s[i] == '-' else IsHexDigit(s[i])
  }

  /** A string that `UUID.randomUUID().toString()` may return. The generator
      itself is random and is left out: each call that needs a fresh id is
      handed one. */
  type Uuid = s: string | IsCanonicalUuid(s) witness NilUuid()

  function NilUuid(): (s: string)
    ensures IsCanonicalUuid(s)
  {
    seq(36, i => if IsUuidDash(i) then '-' else '0')
  }

  /** A generated id is never blank: its first character is a digit. */
  lemma UuidNotBlank(u: Uuid)
    ensures !IsBlank(u)
  {
    assert !IsUuidDash(0);
    assert !IsWhitespace(u[0]);
  }

  /** A `BankOperation` that has passed its constructor's checks. */
  datatype BankOperation = BankOperation(id: string, kind: OperationType, amount: Money, timestamp: Instant) {

    /** `value()`: the signed effect on a balance. */
    function Value(): (v: int)
      ensures kind == Deposit ==> v == amount.amount
      ensures kind == Withdrawal ==> v == -(amount.amount as int)
    {
      match kind
      case Deposit => amount.amount
      case Withdrawal => -(amount.amount as int)
    }
  }

  /** A deposit never lowers a balance, a withdrawal never raises it, and the
      size of the effect is the amount. */
  lemma ValueSign(op: BankOperation)
    ensures op.kind == Deposit ==> op.Value() >= 0
    ensures op.kind == Withdrawal ==> op.Value() <= 0
    ensures op.Value() == op.amount.amount || op.Value() == -(op.amount.amount as int)
    ensures (if op.Value() < 0 then -op.Value() else op.Value()) == op.amount.amount
  {
  }

  /** The record's compact constructor: the amount is checked first (missing
      or below zero), then the id (missing or blank), then the timestamp
      (missing); the first check that fails decides the error. A zero amount
      passes. */
  function NewOperation(id: Option<string>, kind: OperationType, amount: Option<Money>, timestamp: Option<Instant>)
    : (r: Result<BankOperation, Error>)
    ensures r.Success? <==> amount.Some? && id.Some? && !IsBlank(id.value) && timestamp.Some?
    ensures r.Success? ==> r.value == BankOperation(id.value, kind, amount.value, timestamp.value)
    ensures amount.None? ==> r == Failure(InvalidAmount(AmountMustBePositive))
    ensures amount.Some? && (id.None? || IsBlank(id.value)) ==> r == Failure(InvalidAmount(OperationIdRequired))
    ensures amount.Some? && id.Some? && !IsBlank(id.value) && timestamp.None?
      ==> r == Failure(InvalidAmount(OperationDateRequired))
  {
    if amount.None? then Failure(InvalidAmount(AmountMustBePositive))
    else if id.None? || IsBlank(id.value) then Failure(InvalidAmount(OperationIdRequired))
    else if timestamp.None? then Failure(InvalidAmount(OperationDateRequired))
    else Success(BankOperation(id.value, kind, amount.value, timestamp.value))
  }

  /** Every built operation has a non-blank id. */
  predicate WellFormed(op: BankOperation) {
    !IsBlank(op.id)
  }

  /** Rebuilding an existing operation from its own fields gives it back. */
  lemma NewOperationOfFields(op: BankOperation)
    requires WellFormed(op)
    ensures NewOperation(Some(op.id), op.kind, Some(op.amount), Some(op.timestamp)) == Success(op)
  {
  }

  /** `BankOperation.deposit(amount, clock)`: a fresh id, DEPOSIT, the amount
      and the clock's current time. */
  function DepositOf(amount: Option<Money>, clock: Clock, uuid: Uuid, systemNow: Instant): (r: Result<BankOperation, Error>)
    ensures amount.Some? ==> r.Success? && r.value.kind == Deposit && r.value.amount == amount.value
                             && r.value.timestamp == clock.Now(systemNow) && r.value.id == uuid
                             && WellFormed(r.value)
    ensures amount.None? ==> r == Failure(InvalidAmount(AmountMustBePositive))
  {
    UuidNotBlank(uuid);
    NewOperation(Some(uuid), Deposit, amount, Some(clock.Now(systemNow)))
  }

  /** `BankOperation.withdrawal(amount, clock)`: the same with WITHDRAWAL. */
  function WithdrawalOf(amount: Option<Money>, clock: Clock, uuid: Uuid, systemNow: Instant): (r: Result<BankOperation, Error>)
    ensures amount.Some? ==> r.Success? && r.value.kind == Withdrawal && r.value.amount == amount.value
                             && r.value.timestamp == clock.Now(systemNow) && r.value.id == uuid
                             && WellFormed(r.value)
    ensures amount.None? ==> r == Failure(InvalidAmount(AmountMustBePositive))
  {
    UuidNotBlank(uuid);
    NewOperation(Some(uuid), Withdrawal, amount, Some(clock.Now(systemNow)))
  }
}
