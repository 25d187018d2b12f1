/** `BankAccountEntityMapper`: an account to its persistence record and back,
    with its history or with its balance alone. */
module AccountEntityMapper {
  import opened Results
  import opened Errors
  import opened Time
  import opened Amounts
  import opened Operations
  import opened Ledger
  import opened Accounts
  import opened Entities
  import opened OperationFactories
  import OperationEntityMapper
  import AccountFactory

  /** `toOperationEntity(op, parent)`: like the operation mapper, but the id is
      left null for the database to assign. */
  function ToOperationEntity(op: BankOperation, parentId: Option<string>): (e: BankOperationEntity)
    ensures e.id.None? && e.kind == Some(TypeName(op.kind))
    ensures e.amount == Some(op.amount.amount as int) && e.timestamp == Some(op.timestamp)
    ensures e.parentId == parentId
  {
    BankOperationEntity(None, Some(TypeName(op.kind)), Some(op.amount.amount), Some(op.timestamp), parentId)
  }

  /** `toOperation(entity)`: the same conversion as the operation mapper's
      `toDomain`, line for line. */
  function ToOperation(e: BankOperationEntity): (r: Result<BankOperation, Error>)
    ensures r == OperationEntityMapper.ToDomain(e)
    ensures e.id.None? ==> r.Failure?
  {
    OperationEntityMapper.ToDomain(e)
  }

  /** `history.stream().map(op -> toOperationEntity(op, entity))`. */
  function OperationEntities(ops: seq<BankOperation>, parentId: Option<string>): (es: seq<BankOperationEntity>)
    ensures |es| == |ops|
    ensures forall i :: 0 <= i < |ops| ==> es[i] == ToOperationEntity(ops[i], parentId)
  {
    seq(|ops|, i requires 0 <= i < |ops| => ToOperationEntity(ops[i], parentId))
  }

  /** A failure found in the tail of a list whose head converts is a failure
      of the whole list, at the next index. */
  lemma ShiftedFailure(es: seq<BankOperationEntity>, err: Error)
    requires es != [] && ToOperation(es[0]).Success?
    requires exists j :: 0 <= j < |es| - 1 && ToOperation(es[1..][j]) == Failure(err)
                         && forall k :: 0 <= k < j ==> ToOperation(es[1..][k]).Success?
    ensures exists i :: 0 <= i < |es| && ToOperation(es[i]) == Failure(err)
                        && forall k :: 0 <= k < i ==> ToOperation(es[k]).Success?
  {
    var j :| 0 <= j < |es| - 1 && ToOperation(es[1..][j]) == Failure(err)
             && forall k :: 0 <= k < j ==> ToOperation(es[1..][k]).Success?;
    assert es[j + 1] == es[1..][j];
    forall k | 0 < k < j + 1
      ensures ToOperation(es[k]).Success?
    {
      assert es[k] == es[1..][k - 1];
    }
  }

  /** `operations.stream().map(this::toOperation).collect(...)`: the first
      entity that cannot be converted stops the whole conversion. */
  function MapOperations(es: seq<BankOperationEntity>): (r: Result<seq<BankOperation>, Error>)
    ensures r.Success? <==> forall i :: 0 <= i < |es| ==> ToOperation(es[i]).Success?
    ensures r.Success? ==> |r.value| == |es| && forall i :: 0 <= i < |es| ==> r.value[i] == ToOperation(es[i]).value
    ensures r.Failure? ==> exists i :: 0 <= i < |es| && ToOperation(es[i]) == Failure(r.error)
                                       && forall k :: 0 <= k < i ==> ToOperation(es[k]).Success?
  {
    if es == [] then Success([])
    else
      match ToOperation(es[0])
      case Failure(err) => Failure(err)
      case Success(op) =>
        match MapOperations(es[1..])
        case Failure(err) =>
          ShiftedFailure(es, err);
          Failure(err)
        case Success(rest) =>
          assert forall k :: 0 < k < |es| ==> es[k] == es[1..][k - 1];
          Success([op] + rest)
  }

  /** `toEntity(account)`: a new entity filled through its setters. */
  method ToEntity(account: BankAccount) returns (entity: BankAccountEntity)
    ensures entity.id == account.id
    ensures entity.authorizedOverdraft == Some(account.authorizedOverdraft.amount as int)
    ensures entity.currency == Some("EUR")
    ensures entity.accountType == account.accountType
    ensures entity.depositCeiling == if account.IsSavings() then Some(account.DepositCeiling().amount as int) else None
    ensures entity.operations == OperationEntities(account.operations, Some(account.id))
  {
    // the no-argument constructor: overdraft zero, no ceiling, no operations
    entity := BankAccountEntity("", None, Some(0), CompteCourant, None, []);
    entity := entity.(id := account.id);
    entity := entity.(authorizedOverdraft := Some(account.authorizedOverdraft.amount));
    entity := entity.(currency := Some("EUR"));
    entity := entity.(accountType := account.accountType);
    if account.IsSavings() {
      entity := entity.(depositCeiling := Some(account.DepositCeiling().amount));
    }
    var operationEntities := OperationEntities(account.History(), Some(entity.id));
    entity := entity.(operations := operationEntities);
  }

  /** The ceiling both `toDomain` paths pass on: a null ceiling is read as
      zero, and a negative one is refused by Money. */
  function Ceiling(entity: BankAccountEntity): (r: Result<Money, Error>)
    ensures entity.depositCeiling.None? ==> r == Success(Zero)
    ensures entity.depositCeiling.Some? ==> r == Amounts.Of(entity.depositCeiling)
  {
    Amounts.Of(Some(if entity.depositCeiling.Some? then entity.depositCeiling.value else 0))
  }

  /** `toDomain(entity, factory)`: the operations are converted first, then the
      overdraft and the ceiling are wrapped in Money, then the account is
      rehydrated from the converted history. */
  method ToDomain(entity: BankAccountEntity, factory: OperationFactory) returns (r: Result<BankAccount, Error>)
    ensures MapOperations(entity.operations).Failure? ==> r == Failure(MapOperations(entity.operations).error)
    ensures MapOperations(entity.operations).Success? && Amounts.Of(entity.authorizedOverdraft).Failure?
            ==> r == Failure(InvalidAmount(AmountMustBePositive))
    ensures MapOperations(entity.operations).Success? && Amounts.Of(entity.authorizedOverdraft).Success?
            && Ceiling(entity).Failure?
            ==> r == Failure(InvalidAmount(AmountMustBePositive))
    ensures r.Success? <==> MapOperations(entity.operations).Success? && Amounts.Of(entity.authorizedOverdraft).Success?
                            && Ceiling(entity).Success?
    ensures r.Success? ==>
      var history := MapOperations(entity.operations).value;
      && fresh(r.value) && r.value.id == entity.id && r.value.operationFactory == factory
      && r.value.operations == history && r.value.balance == SignedSum(history) && r.value.Consistent()
      && r.value.accountType == entity.accountType
      && (entity.accountType == Livret <==> r.value.IsSavings())
      && (entity.accountType == Livret ==> r.value.depositCeiling == Some(Ceiling(entity).value))
      && (entity.accountType != Livret ==> r.value.authorizedOverdraft.amount == entity.authorizedOverdraft.value)
  {
    var operations := MapOperations(entity.operations);
    if operations.Failure? {
      return Failure(operations.error);
    }
    var overdraft := Amounts.Of(entity.authorizedOverdraft);
    if overdraft.Failure? {
      return Failure(overdraft.error);
    }
    var ceiling := Ceiling(entity);
    if ceiling.Failure? {
      return Failure(ceiling.error);
    }
    r := AccountFactory.RehydrateAs(entity.id, factory, Some(overdraft.value), Some(operations.value),
                                    entity.accountType, ceiling.value);
  }

  /** The mapper's own `computeBalanceFromOperations`: a loop that re-reads
      each type through its name and adds deposits, subtracts withdrawals. */
  method ComputeBalanceFromOperations(operations: seq<BankOperation>) returns (balance: int)
    ensures balance == SignedSum(operations)
  {
    balance := 0;
    for i := 0 to |operations|
      invariant balance == SignedSum(operations[..i])
    {
      assert operations[..i + 1][..i] == operations[..i];
      var op := operations[i];
      ParseTypeName(op.kind);
      var kind := ParseType(Some(TypeName(op.kind))).value;
      match kind {
        case Deposit => balance := balance + op.amount.amount;
        case Withdrawal => balance := balance - op.amount.amount;
      }
    }
    assert operations[..|operations|] == operations;
  }

  /** `toDomainWithBalanceOnly(entity, factory, operations)`: the balance is
      the loop sum over the given operations, wrapped in a Money (refused when
      negative), and no history is kept. */
  method ToDomainWithBalanceOnly(entity: BankAccountEntity, factory: OperationFactory, operations: seq<BankOperation>)
    returns (r: Result<BankAccount, Error>)
    ensures SignedSum(operations) < 0 ==> r == Failure(InvalidAmount(AmountMustBePositive))
    ensures r.Failure? ==> r.error == InvalidAmount(AmountMustBePositive)
    ensures r.Success? <==> SignedSum(operations) >= 0 && Amounts.Of(entity.authorizedOverdraft).Success?
                            && Ceiling(entity).Success?
    ensures r.Success? ==>
      && fresh(r.value) && r.value.id == entity.id && r.value.operationFactory == factory
      && r.value.balance == SignedSum(operations) && r.value.operations == []
      && r.value.accountType == entity.accountType
      && (entity.accountType == Livret <==> r.value.IsSavings())
      && (entity.accountType == Livret ==> r.value.depositCeiling == Some(Ceiling(entity).value))
      && (entity.accountType != Livret ==> r.value.authorizedOverdraft.amount == entity.authorizedOverdraft.value)
  {
    var sum := ComputeBalanceFromOperations(operations);
    var balance := Amounts.Of(Some(sum));
    if balance.Failure? {
      return Failure(balance.error);
    }
    var overdraft := Amounts.Of(entity.authorizedOverdraft);
    if overdraft.Failure? {
      return Failure(overdraft.error);
    }
    var ceiling := Ceiling(entity);
    if ceiling.Failure? {
      return Failure(ceiling.error);
    }
    var account := AccountFactory.RehydrateWithBalanceOnlyAs(entity.id, factory, balance.value, Some(overdraft.value),
                                                             entity.accountType, ceiling.value);
    return Success(account);
  }

  /** The operation entities written by `toEntity` carry no id, so reading a
      non-empty history straight back fails on the first one. */
  lemma FreshEntitiesDoNotMapBack(ops: seq<BankOperation>, parentId: Option<string>)
    requires ops != []
    ensures MapOperations(OperationEntities(ops, parentId)) == Failure(InvalidAmount(OperationIdRequired))
  {
    var es := OperationEntities(ops, parentId);
    ParseTypeName(ops[0].kind);
    assert ToOperation(es[0]) == Failure(InvalidAmount(OperationIdRequired));
  }

  /** What the database does to the written entities: assigns each an id and
      a timestamp. */
  function AssignIds(es: seq<BankOperationEntity>, ids: seq<string>, times: seq<Instant>): (r: seq<BankOperationEntity>)
    requires |ids| == |es| && |times| == |es|
    ensures |r| == |es|
    ensures forall i :: 0 <= i < |es| ==> r[i] == es[i].(id := Some(ids[i]), timestamp := Some(times[i]))
  {
    seq(|es|, i requires 0 <= i < |es| => es[i].(id := Some(ids[i]), timestamp := Some(times[i])))
  }

  /** Once ids are assigned, the written history reads back with the same
      types and amounts, in the same order, so with the same signed sum. */
  lemma AssignedEntitiesMapBack(ops: seq<BankOperation>, parentId: Option<string>, ids: seq<string>, times: seq<Instant>)
    requires |ids| == |ops| && |times| == |ops|
    requires forall i :: 0 <= i < |ids| ==> !IsBlank(ids[i])
    ensures var r := MapOperations(AssignIds(OperationEntities(ops, parentId), ids, times));
            && r.Success? && |r.value| == |ops|
            && (forall i :: 0 <= i < |ops| ==> r.value[i] == BankOperation(ids[i], ops[i].kind, ops[i].amount, times[i]))
            && SignedSum(r.value) == SignedSum(ops)
  {
    var es := AssignIds(OperationEntities(ops, parentId), ids, times);
    forall i | 0 <= i < |ops|
      ensures ToOperation(es[i]) == Success(BankOperation(ids[i], ops[i].kind, ops[i].amount, times[i]))
    {
      ParseTypeName(ops[i].kind);
    }
    var back := MapOperations(es).value;
    SameKindsAndAmountsSameSum(back, ops);
  }

  /** The signed sum only looks at types and amounts. */
  lemma {:induction false} SameKindsAndAmountsSameSum(a: seq<BankOperation>, b: seq<BankOperation>)
    requires |a| == |b|
    requires forall i :: 0 <= i < |a| ==> a[i].kind == b[i].kind && a[i].amount == b[i].amount
    ensures SignedSum(a) == SignedSum(b)
    decreases |a|
  {
    if a != [] {
      SameKindsAndAmountsSameSum(a[..|a| - 1], b[..|b| - 1]);
    }
  }
}
