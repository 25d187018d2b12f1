/** Folds over a history of operations: the signed sum that a balance must
    equal, the stream reduction that computes it, and order-preserving filters
    by date. */
module Ledger {
  import opened Time
  import opened Operations
  import Amounts

  /** The signed sum of an operation list: deposits count positively,
      withdrawals negatively. Defined element by element from the end, as a
      history grows. */
  function SignedSum(ops: seq<BankOperation>): int
  {
    if ops == [] then 0 else SignedSum(ops[..|ops| - 1]) + ops[|ops| - 1].Value()
  }

  /** The total amount deposited. */
  function Deposited(ops: seq<BankOperation>): nat
  {
    if ops == [] then 0
    else Deposited(ops[..|ops| - 1]) + (if ops[|ops| - 1].kind == Deposit then ops[|ops| - 1].amount.amount else 0)
  }

  /** The total amount withdrawn. */
  function Withdrawn(ops: seq<BankOperation>): nat
  {
    if ops == [] then 0
    else Withdrawn(ops[..|ops| - 1]) + (if ops[|ops| - 1].kind == Withdrawal then ops[|ops| - 1].amount.amount else 0)
  }

  /** A balance rebuilt from a history is what went in minus what went out. */
  lemma {:induction false} SignedSumIsDepositedMinusWithdrawn(ops: seq<BankOperation>)
    ensures SignedSum(ops) == Deposited(ops) - Withdrawn(ops)
    ensures -(Withdrawn(ops) as int) <= SignedSum(ops) <= Deposited(ops)
    decreases |ops|
  {
    if ops != [] {
      SignedSumIsDepositedMinusWithdrawn(ops[..|ops| - 1]);
    }
  }

  /** The sum of a concatenation is the sum of its parts. */
  lemma {:induction false} SignedSumAppend(a: seq<BankOperation>, b: seq<BankOperation>)
    ensures SignedSum(a + b) == SignedSum(a) + SignedSum(b)
    decreases |b|
  {
    if b == [] {
      assert a + b == a;
    } else {
      var n := |b| - 1;
      assert (a + b)[..|a + b| - 1] == a + b[..n];
      SignedSumAppend(a, b[..n]);
    }
  }

  /** The sum of a one-element list is the value of that element. */
  lemma SignedSumSingleton(op: BankOperation)
    ensures SignedSum([op]) == op.Value()
  {
    assert [op][..0] == [];
  }

  /** The sum does not depend on the order of the operations. */
  lemma {:induction false} SignedSumPermutation(a: seq<BankOperation>, b: seq<BankOperation>)
    requires multiset(a) == multiset(b)
    ensures SignedSum(a) == SignedSum(b)
    decreases |a|
  {
    if a == [] {
      assert |b| == |multiset(b)| == 0;
    } else {
      var n := |a| - 1;
      var x := a[n];
      assert a == a[..n] + [x];
      assert x in multiset(b);
      var i :| 0 <= i < |b| && b[i] == x;
      assert b == b[..i] + [x] + b[i + 1..];
      var rest := b[..i] + b[i + 1..];
      calc {
        multiset(a[..n]);
        multiset(a) - multiset{x};
        multiset(b) - multiset{x};
        multiset(rest);
      }
      SignedSumPermutation(a[..n], rest);
      SignedSumAppend(b[..i] + [x], b[i + 1..]);
      SignedSumAppend(b[..i], [x]);
      SignedSumAppend(b[..i], b[i + 1..]);
      SignedSumSingleton(x);
    }
  }

  /** `map(BankOperation::value)`. */
  function Values(ops: seq<BankOperation>): (vs: seq<int>)
    ensures |vs| == |ops|
    ensures forall i :: 0 <= i < |ops| ==> vs[i] == ops[i].Value()
  {
    seq(|ops|, i requires 0 <= i < |ops| => ops[i].Value())
  }

  /** `reduce(acc, BigDecimal::add)` on an ordered stream: a left fold. */
  function Reduce(acc: int, vs: seq<int>): int
    decreases |vs|
  {
    if vs == [] then acc else Reduce(acc + vs[0], vs[1..])
  }

  /** Folding the values from the left gives the start plus the signed sum. */
  lemma {:induction false} ReduceValues(acc: int, ops: seq<BankOperation>)
    ensures Reduce(acc, Values(ops)) == acc + SignedSum(ops)
    decreases |ops|
  {
    if ops != [] {
      assert Values(ops)[1..] == Values(ops[1..]);
      ReduceValues(acc + ops[0].Value(), ops[1..]);
      assert ops == [ops[0]] + ops[1..];
      SignedSumAppend([ops[0]], ops[1..]);
      SignedSumSingleton(ops[0]);
    }
  }

  /** `stream().filter(p)`: the elements satisfying `p`, in their order. */
  function Filter(ops: seq<BankOperation>, p: BankOperation -> bool): (r: seq<BankOperation>)
    ensures |r| <= |ops|
  {
    if ops == [] then []
    else Filter(ops[..|ops| - 1], p) + (if p(ops[|ops| - 1]) then [ops[|ops| - 1]] else [])
  }

  /** A filter keeps exactly the elements that pass, each no more often than
      it occurs in the input. */
  lemma {:induction false} FilterMembers(ops: seq<BankOperation>, p: BankOperation -> bool)
    ensures forall op :: op in Filter(ops, p) <==> op in ops && p(op)
    ensures multiset(Filter(ops, p)) <= multiset(ops)
    decreases |ops|
  {
    if ops != [] {
      var n := |ops| - 1;
      FilterMembers(ops[..n], p);
      assert ops == ops[..n] + [ops[n]];
    }
  }

  /** `a` can be obtained from `b` by deleting elements: the elements of `a`
      occur in `b` in the same order. */
  predicate IsSubsequence(a: seq<BankOperation>, b: seq<BankOperation>)
    decreases |b|
  {
    a == [] ||
    (b != [] &&
     ((a[|a| - 1] == b[|b| - 1] && IsSubsequence(a[..|a| - 1], b[..|b| - 1])) ||
      IsSubsequence(a, b[..|b| - 1])))
  }

  /** A filter keeps the order of the input. */
  lemma {:induction false} FilterSubsequence(ops: seq<BankOperation>, p: BankOperation -> bool)
    ensures IsSubsequence(Filter(ops, p), ops)
    decreases |ops|
  {
    if ops != [] {
      var n := |ops| - 1;
      var kept := Filter(ops[..n], p);
      FilterSubsequence(ops[..n], p);
      if p(ops[n]) {
        var r := kept + [ops[n]];
        assert r[..|r| - 1] == kept;
      } else {
        assert Filter(ops, p) == kept + [] == kept;
      }
    }
  }

  /** A filter keeps every passing element exactly as often as it occurs in
      the input, and no other element. */
  lemma FilterCounts(ops: seq<BankOperation>, p: BankOperation -> bool)
    ensures forall x :: multiset(Filter(ops, p))[x] == if p(x) then multiset(ops)[x] else 0
  {
    forall x
      ensures multiset(Filter(ops, p))[x] == if p(x) then multiset(ops)[x] else 0
    {
      FilterCount(ops, p, x);
    }
  }

  /** Filtering a one-element list keeps it or drops it. */
  lemma FilterSingleton(x: BankOperation, p: BankOperation -> bool)
    ensures Filter([x], p) == if p(x) then [x] else []
  {
    assert [x][..0] == [];
  }

  /** Filtering keeps the whole list when every element passes. */
  lemma {:induction false} FilterAll(ops: seq<BankOperation>, p: BankOperation -> bool)
    requires forall i :: 0 <= i < |ops| ==> p(ops[i])
    ensures Filter(ops, p) == ops
    decreases |ops|
  {
    if ops != [] {
      FilterAll(ops[..|ops| - 1], p);
      assert ops == ops[..|ops| - 1] + [ops[|ops| - 1]];
    }
  }

  /** Filtering a concatenation filters each part. */
  lemma {:induction false} FilterAppend(a: seq<BankOperation>, b: seq<BankOperation>, p: BankOperation -> bool)
    ensures Filter(a + b, p) == Filter(a, p) + Filter(b, p)
    decreases |b|
  {
    if b == [] {
      assert a + b == a;
    } else {
      var n := |b| - 1;
      assert (a + b)[..|a + b| - 1] == a + b[..n];
      FilterAppend(a, b[..n], p);
    }
  }

  /** Everything is either kept or dropped by a filter, so its sum splits. */
  lemma {:induction false} SignedSumSplits(ops: seq<BankOperation>, p: BankOperation -> bool)
    ensures SignedSum(ops) == SignedSum(Filter(ops, p)) + SignedSum(Filter(ops, (op: BankOperation) => !p(op)))
    decreases |ops|
  {
    if ops != [] {
      var n := |ops| - 1;
      var q := (op: BankOperation) => !p(op);
      SignedSumSplits(ops[..n], p);
      SignedSumAppend(Filter(ops[..n], p), if p(ops[n]) then [ops[n]] else []);
      SignedSumAppend(Filter(ops[..n], q), if q(ops[n]) then [ops[n]] else []);
      SignedSumSingleton(ops[n]);
    }
  }

  /** An operation that falls on day `d` or earlier. */
  function OnOrBefore(d: LocalDate): BankOperation -> bool {
    (op: BankOperation) => DateOf(op.timestamp) <= d
  }

  /** An operation that falls after day `d`. */
  function After(d: LocalDate): BankOperation -> bool {
    (op: BankOperation) => DateOf(op.timestamp) > d
  }

  /** An operation stamped within the closed interval [from, to]. */
  function Between(from: Instant, to: Instant): BankOperation -> bool {
    (op: BankOperation) => from <= op.timestamp <= to
  }

  /** The balance as of the end of day `d`: the signed sum of what happened on
      or before that day. */
  function BalanceUntil(ops: seq<BankOperation>, d: LocalDate): int {
    SignedSum(Filter(ops, OnOrBefore(d)))
  }

  /** The balance as of a day plus what happened after it is the whole sum. */
  lemma BalanceUntilPlusLater(ops: seq<BankOperation>, d: LocalDate)
    ensures BalanceUntil(ops, d) + SignedSum(Filter(ops, After(d))) == SignedSum(ops)
  {
    SignedSumSplits(ops, OnOrBefore(d));
    assert Filter(ops, After(d)) == Filter(ops, (op: BankOperation) => !OnOrBefore(d)(op)) by {
      FilterSameElements(ops, After(d), (op: BankOperation) => !OnOrBefore(d)(op));
    }
  }

  /** Two predicates that agree on every element filter alike. */
  lemma {:induction false} FilterSameElements(ops: seq<BankOperation>, p: BankOperation -> bool, q: BankOperation -> bool)
    requires forall i :: 0 <= i < |ops| ==> p(ops[i]) == q(ops[i])
    ensures Filter(ops, p) == Filter(ops, q)
    decreases |ops|
  {
    if ops != [] {
      FilterSameElements(ops[..|ops| - 1], p, q);
    }
  }

  /** When every operation falls on or before `d`, the balance as of `d` is
      the whole signed sum. */
  lemma BalanceUntilCoversAll(ops: seq<BankOperation>, d: LocalDate)
    requires forall i :: 0 <= i < |ops| ==> DateOf(ops[i].timestamp) <= d
    ensures BalanceUntil(ops, d) == SignedSum(ops)
  {
    FilterAll(ops, OnOrBefore(d));
  }

  /** Operations recorded after day `d` do not change the balance as of `d`. */
  lemma BalanceUntilIgnoresLater(ops: seq<BankOperation>, later: seq<BankOperation>, d: LocalDate)
    requires forall i :: 0 <= i < |later| ==> DateOf(later[i].timestamp) > d
    ensures BalanceUntil(ops + later, d) == BalanceUntil(ops, d)
  {
    FilterAppend(ops, later, OnOrBefore(d));
    assert Filter(later, OnOrBefore(d)) == [] by {
      FilterNone(later, OnOrBefore(d));
    }
    assert Filter(ops, OnOrBefore(d)) + [] == Filter(ops, OnOrBefore(d));
  }

  /** Filtering drops everything when no element passes. */
  lemma {:induction false} FilterNone(ops: seq<BankOperation>, p: BankOperation -> bool)
    requires forall i :: 0 <= i < |ops| ==> !p(ops[i])
    ensures Filter(ops, p) == []
    decreases |ops|
  {
    if ops != [] {
      FilterNone(ops[..|ops| - 1], p);
    }
  }

  /** The balance as of a day does not depend on the order the history was
      stored in. */
  lemma BalanceUntilPermutation(a: seq<BankOperation>, b: seq<BankOperation>, d: LocalDate)
    requires multiset(a) == multiset(b)
    ensures BalanceUntil(a, d) == BalanceUntil(b, d)
  {
    FilterMultiset(a, b, OnOrBefore(d));
    SignedSumPermutation(Filter(a, OnOrBefore(d)), Filter(b, OnOrBefore(d)));
  }

  /** Filtering respects permutations. */
  lemma {:induction false} FilterMultiset(a: seq<BankOperation>, b: seq<BankOperation>, p: BankOperation -> bool)
    requires multiset(a) == multiset(b)
    ensures multiset(Filter(a, p)) == multiset(Filter(b, p))
  {
    forall x
      ensures multiset(Filter(a, p))[x] == multiset(Filter(b, p))[x]
    {
      FilterCount(a, p, x);
      FilterCount(b, p, x);
    }
  }

  /** How often an element occurs after filtering. */
  lemma {:induction false} FilterCount(ops: seq<BankOperation>, p: BankOperation -> bool, x: BankOperation)
    ensures multiset(Filter(ops, p))[x] == if p(x) then multiset(ops)[x] else 0
    decreases |ops|
  {
    if ops != [] {
      var n := |ops| - 1;
      FilterCount(ops[..n], p, x);
      assert ops == ops[..n] + [ops[n]];
    }
  }

  /** A deposit of 100 then a withdrawal of 30 come to 70, in either order. */
  lemma DepositThenWithdrawalScenario(id1: string, id2: string, t1: Instant, t2: Instant)
    ensures var dep := BankOperation(id1, Deposit, Amounts.Money(100), t1);
            var wd := BankOperation(id2, Withdrawal, Amounts.Money(30), t2);
            SignedSum([dep, wd]) == 70 && SignedSum([wd, dep]) == 70
  {
    var dep := BankOperation(id1, Deposit, Amounts.Money(100), t1);
    var wd := BankOperation(id2, Withdrawal, Amounts.Money(30), t2);
    assert [dep, wd][..1] == [dep];
    assert [wd, dep][..1] == [wd];
    SignedSumSingleton(dep);
    SignedSumSingleton(wd);
  }
}
