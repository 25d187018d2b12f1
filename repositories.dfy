/** The two repository ports, `IBankAccountRepository` and
    `IBankOperationRepository`, as in-memory stores: account id to account,
    and account id to the operations saved for it, in saving order. */
module Repositories {
  import opened Results
  import opened Time
  import opened Operations
  import opened Ledger
  import opened Accounts

  class AccountRepository {
    var accounts: map<string, BankAccount>

    /** Every stored account sits under its own id and satisfies the account
        invariant. */
    ghost predicate Valid()
      reads this
    {
      forall id :: id in accounts ==> accounts[id].id == id && accounts[id].Valid()
    }

    constructor ()
      ensures accounts == map[] && Valid()
    {
      accounts := map[];
    }

    /** The stored account objects that a call about `id` may change. */
    function Footprint(id: string): set<BankAccount>
      reads this
    {
      if id in accounts then {accounts[id]} else {}
    }

    /** `findById`: the stored account, or empty. */
    function FindById(id: string): (r: Option<BankAccount>)
      reads this
      ensures r.Some? <==> id in accounts
      ensures r.Some? ==> r.value == accounts[id] && r.value in Footprint(id)
    {
      if id in accounts then Some(accounts[id]) else None
    }

    /** `save`: stores the account under its id, replacing any previous one,
        and returns it. */
    method Save(account: BankAccount) returns (saved: BankAccount)
      requires Valid() && account.Valid()
      modifies this
      ensures accounts == old(accounts)[account.id := account]
      ensures saved == account
      ensures Valid()
    {
      accounts := accounts[account.id := account];
      saved := account;
    }
  }

  class OperationRepository {
    var operations: map<string, seq<BankOperation>>

    constructor ()
      ensures operations == map[]
    {
      operations := map[];
    }

    /** `findAllByAccountId`: what was saved for the account, in saving order;
        empty for an account with none. */
    function FindAllByAccountId(accountId: string): (ops: seq<BankOperation>)
      reads this
      ensures accountId in operations ==> ops == operations[accountId]
      ensures accountId !in operations ==> ops == []
    {
      if accountId in operations then operations[accountId] else []
    }

    /** `findAllByAccountIdUntilDate`: the saved operations that fall on or
        before the given day, in saving order. */
    function FindAllByAccountIdUntilDate(accountId: string, date: LocalDate): (ops: seq<BankOperation>)
      reads this
      ensures forall op :: op in ops <==> op in FindAllByAccountId(accountId) && DateOf(op.timestamp) <= date
      ensures forall x :: multiset(ops)[x] ==
                if DateOf(x.timestamp) <= date then multiset(FindAllByAccountId(accountId))[x] else 0
      ensures IsSubsequence(ops, FindAllByAccountId(accountId))
    {
      FilterMembers(FindAllByAccountId(accountId), OnOrBefore(date));
      FilterCounts(FindAllByAccountId(accountId), OnOrBefore(date));
      FilterSubsequence(FindAllByAccountId(accountId), OnOrBefore(date));
      Filter(FindAllByAccountId(accountId), OnOrBefore(date))
    }

    /** `findAllByAccountIdBetweenDates`: the saved operations stamped within
        [from, to], in saving order. */
    function FindAllByAccountIdBetweenDates(accountId: string, from: Instant, to: Instant): (ops: seq<BankOperation>)
      reads this
      ensures forall op :: op in ops <==> op in FindAllByAccountId(accountId) && from <= op.timestamp <= to
      ensures forall x :: multiset(ops)[x] ==
                if from <= x.timestamp <= to then multiset(FindAllByAccountId(accountId))[x] else 0
      ensures IsSubsequence(ops, FindAllByAccountId(accountId))
    {
      FilterMembers(FindAllByAccountId(accountId), Between(from, to));
      FilterCounts(FindAllByAccountId(accountId), Between(from, to));
      FilterSubsequence(FindAllByAccountId(accountId), Between(from, to));
      Filter(FindAllByAccountId(accountId), Between(from, to))
    }

    /** `save(account, operation)`: appends the operation to the account's
        list and returns it. */
    method Save(account: BankAccount, op: BankOperation) returns (saved: BankOperation)
      modifies this
      ensures operations == old(operations)[account.id := old(FindAllByAccountId(account.id)) + [op]]
      ensures saved == op
    {
      operations := operations[account.id := FindAllByAccountId(account.id) + [op]];
      saved := op;
    }
  }
}
