/** `BankOperationEntityMapper`: one operation to and from its persistence
    record. */
module OperationEntityMapper {
  import opened Results
  import opened Errors
  import opened Time
  import Amounts
  import opened Operations
  import opened Entities

  /** `toEntity(op, parent)`: id, type name, amount and timestamp copied, and
      the parent link set. */
  function ToEntity(op: BankOperation, parentId: Option<string>): (e: BankOperationEntity)
    ensures e.id == Some(op.id) && e.kind == Some(TypeName(op.kind))
    ensures e.amount == Some(op.amount.amount as int) && e.timestamp == Some(op.timestamp)
    ensures e.parentId == parentId
  {
    BankOperationEntity(Some(op.id), Some(TypeName(op.kind)), Some(op.amount.amount), Some(op.timestamp), parentId)
  }

  /** `toDomain(entity)`, in Java's order of evaluation: the type name is read
      first (a null one dereferences null, an unknown one is an illegal
      argument), then the amount is wrapped in a Money (refused when missing
      or negative), then the operation's constructor checks the id and the
      timestamp. */
  function ToDomain(e: BankOperationEntity): (r: Result<BankOperation, Error>)
    ensures e.kind.None? ==> r.Failure? && r.error.NullPointer?
    ensures e.kind.Some? && e.kind.value != "DEPOSIT" && e.kind.value != "WITHDRAWAL"
            ==> r.Failure? && r.error.IllegalArgument?
    ensures ParseType(e.kind).Success? && (e.amount.None? || e.amount.value < 0)
            ==> r == Failure(InvalidAmount(AmountMustBePositive))
    ensures ParseType(e.kind).Success? && e.amount.Some? && e.amount.value >= 0
            ==> r == NewOperation(e.id, ParseType(e.kind).value, Some(Amounts.Money(e.amount.value)), e.timestamp)
    ensures r.Success? <==> ParseType(e.kind).Success? && e.amount.Some? && e.amount.value >= 0
                            && e.id.Some? && !IsBlank(e.id.value) && e.timestamp.Some?
    ensures r.Success? ==> r.value.id == e.id.value && TypeName(r.value.kind) == e.kind.value
                           && r.value.amount.amount == e.amount.value && r.value.timestamp == e.timestamp.value
  {
    var kind :- ParseType(e.kind);
    var amount :- Amounts.Of(e.amount);
    NewOperation(e.id, kind, Some(amount), e.timestamp)
  }

  /** Storing a built operation and reading it back gives it back unchanged,
      whatever the parent. */
  lemma RoundTrip(op: BankOperation, parentId: Option<string>)
    requires WellFormed(op)
    ensures ToDomain(ToEntity(op, parentId)) == Success(op)
  {
    ParseTypeName(op.kind);
  }
}
