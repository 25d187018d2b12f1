/** Account statements: the `AccountStatement` record and `StatementMapper`,
    which projects it into an `AccountStatementDTO` with the operations most
    recent first. */
module Statements {
  import opened Time
  import opened Operations
  import opened Ledger
  import opened Accounts

  /** `AccountStatement`. */
  datatype AccountStatement = AccountStatement(
    accountId: string,
    accountType: AccountType,
    currentBalance: int,
    issuedAt: Instant,
    from: Instant,
    to: Instant,
    operations: seq<BankOperation>)

  /** `OperationDTO`. */
  datatype OperationDto = OperationDto(operationId: string, kind: string, amount: nat, date: Instant)

  /** `AccountStatementDTO`. */
  datatype AccountStatementDto = AccountStatementDto(
    accountId: string,
    accountType: AccountType,
    currentBalance: int,
    issuedAt: Instant,
    from: Instant,
    to: Instant,
    recentOperations: seq<OperationDto>)

  /** Most recent first: no operation is more recent than the one before it. */
  predicate SortedDescending(ops: seq<BankOperation>) {
    forall i :: 0 < i < |ops| ==> ops[i - 1].timestamp >= ops[i].timestamp
  }

  /** In a list sorted most recent first, every earlier operation is at least
      as recent as every later one. */
  lemma {:induction false} SortedDescendingPairwise(ops: seq<BankOperation>, i: int, j: int)
    requires SortedDescending(ops)
    requires 0 <= i <= j < |ops|
    ensures ops[i].timestamp >= ops[j].timestamp
    decreases j - i
  {
    if i < j {
      SortedDescendingPairwise(ops, i, j - 1);
    }
  }

  /** The operations stamped at exactly `t`. */
  function At(t: Instant): BankOperation -> bool {
    (op: BankOperation) => op.timestamp == t
  }

  /** Inserts `x` into a list sorted most recent first, in front of the first
      element that is not more recent than it. */
  function Insert(x: BankOperation, sorted: seq<BankOperation>): (r: seq<BankOperation>)
    requires SortedDescending(sorted)
    ensures SortedDescending(r)
    ensures multiset(r) == multiset(sorted) + multiset{x}
    ensures |r| == |sorted| + 1
    ensures r[0] == x || (sorted != [] && r[0] == sorted[0])
  {
    if sorted == [] || sorted[0].timestamp <= x.timestamp then [x] + sorted
    else
      assert sorted == [sorted[0]] + sorted[1..];
      [sorted[0]] + Insert(x, sorted[1..])
  }

  /** `sorted(Comparator.comparing(BankOperation::timestamp).reversed())`: a
      stable sort, most recent first. */
  function SortByTimestampDesc(ops: seq<BankOperation>): (r: seq<BankOperation>)
    ensures SortedDescending(r)
    ensures multiset(r) == multiset(ops)
    ensures |r| == |ops|
  {
    if ops == [] then []
    else
      assert ops == [ops[0]] + ops[1..];
      Insert(ops[0], SortByTimestampDesc(ops[1..]))
  }

  /** Dropping the most recent operation leaves a list still sorted. */
  lemma SortedTail(ops: seq<BankOperation>)
    requires SortedDescending(ops) && ops != []
    ensures SortedDescending(ops[1..])
  {
  }

  /** The sequence algebra of one step: when one of `h` and `x` is empty,
      `h + (x + t) == x + (h + t)`. */
  lemma Rearrange(hr: seq<BankOperation>, ht: seq<BankOperation>, h: seq<BankOperation>,
                  x: seq<BankOperation>, r: seq<BankOperation>, t: seq<BankOperation>)
    requires h == [] || x == []
    requires hr == h + r && ht == h + t && r == x + t
    ensures hr == x + ht
  {
  }

  /** One step of the stability argument: putting a strictly more recent
      `head` in front of the insertion into the tail leaves, among the
      operations stamped at `t`, `x` in front of the original ones. */
  lemma InsertStableStep(x: BankOperation, head: BankOperation, tail: seq<BankOperation>,
                         rest: seq<BankOperation>, t: Instant)
    requires head.timestamp > x.timestamp
    requires Filter(rest, At(t)) == Filter([x], At(t)) + Filter(tail, At(t))
    ensures Filter([head] + rest, At(t)) == Filter([x], At(t)) + Filter([head] + tail, At(t))
  {
    var p := At(t);
    FilterAppend([head], rest, p);
    FilterAppend([head], tail, p);
    // at most one of head and x is stamped at t
    FilterSingleton(head, p);
    FilterSingleton(x, p);
    Rearrange(Filter([head] + rest, p), Filter([head] + tail, p), Filter([head], p), Filter([x], p),
              Filter(rest, p), Filter(tail, p));
  }

  /** Inserting `x` keeps, among the operations stamped at any one instant,
      `x` in front of those already there. */
  lemma {:induction false} InsertStable(x: BankOperation, sorted: seq<BankOperation>, t: Instant)
    requires SortedDescending(sorted)
    ensures Filter(Insert(x, sorted), At(t)) == Filter([x], At(t)) + Filter(sorted, At(t))
    decreases |sorted|
  {
    if sorted == [] || sorted[0].timestamp <= x.timestamp {
      FilterAppend([x], sorted, At(t));
    } else {
      var head, tail := sorted[0], sorted[1..];
      assert sorted == [head] + tail;
      SortedTail(sorted);
      var rest := Insert(x, tail);
      assert Insert(x, sorted) == [head] + rest;
      InsertStable(x, tail, t);
      InsertStableStep(x, head, tail, rest, t);
    }
  }

  /** The sort is stable: the operations stamped at any one instant appear in
      the result in the order they had in the input. */
  lemma {:induction false} SortStable(ops: seq<BankOperation>, t: Instant)
    ensures Filter(SortByTimestampDesc(ops), At(t)) == Filter(ops, At(t))
    decreases |ops|
  {
    if ops != [] {
      SortStable(ops[1..], t);
      InsertStable(ops[0], SortByTimestampDesc(ops[1..]), t);
      assert ops == [ops[0]] + ops[1..];
      FilterAppend([ops[0]], ops[1..], At(t));
    }
  }

  /** Every earlier operation of a list sorted most recent first is at least
      as recent as every later one. */
  lemma SortedDescendingAllPairs(ops: seq<BankOperation>)
    requires SortedDescending(ops)
    ensures forall i, j :: 0 <= i < j < |ops| ==> ops[i].timestamp >= ops[j].timestamp
  {
    forall i, j | 0 <= i < j < |ops|
      ensures ops[i].timestamp >= ops[j].timestamp
    {
      SortedDescendingPairwise(ops, i, j);
    }
  }

  /** The DTO of one operation: id, type name, amount and timestamp. */
  function ToOperationDto(op: BankOperation): (d: OperationDto)
    ensures d.operationId == op.id && d.kind == TypeName(op.kind)
    ensures d.amount == op.amount.amount && d.date == op.timestamp
  {
    OperationDto(op.id, TypeName(op.kind), op.amount.amount, op.timestamp)
  }

  /** Every element of the sorted list is an operation of the input. */
  lemma SortedMembers(ops: seq<BankOperation>)
    ensures forall i :: 0 <= i < |SortByTimestampDesc(ops)| ==> SortByTimestampDesc(ops)[i] in ops
  {
    var sorted := SortByTimestampDesc(ops);
    forall i | 0 <= i < |sorted|
      ensures sorted[i] in ops
    {
      assert sorted[i] in multiset(sorted);
    }
  }

  /** `StatementMapper.toDto`: every header field copied, the operations
      sorted most recent first and mapped one to one. */
  function ToDto(statement: AccountStatement): (dto: AccountStatementDto)
    ensures dto.accountId == statement.accountId && dto.accountType == statement.accountType
    ensures dto.currentBalance == statement.currentBalance && dto.issuedAt == statement.issuedAt
    ensures dto.from == statement.from && dto.to == statement.to
    ensures |dto.recentOperations| == |statement.operations|
    ensures forall i, j :: 0 <= i < j < |dto.recentOperations| ==> dto.recentOperations[i].date >= dto.recentOperations[j].date
    ensures forall i :: 0 <= i < |dto.recentOperations| ==>
              exists op :: op in statement.operations && dto.recentOperations[i] == ToOperationDto(op)
  {
    var sorted := SortByTimestampDesc(statement.operations);
    var dtos := seq(|sorted|, i requires 0 <= i < |sorted| => ToOperationDto(sorted[i]));
    SortedMembers(statement.operations);
    SortedDescendingAllPairs(sorted);
    AccountStatementDto(statement.accountId, statement.accountType, statement.currentBalance,
                        statement.issuedAt, statement.from, statement.to, dtos)
  }

  /** The DTO's operations are exactly the statement's, sorted, then mapped. */
  lemma ToDtoOperations(statement: AccountStatement)
    ensures var sorted := SortByTimestampDesc(statement.operations);
            && multiset(sorted) == multiset(statement.operations)
            && forall i :: 0 <= i < |sorted| ==> ToDto(statement).recentOperations[i] == ToOperationDto(sorted[i])
  {
  }
}
