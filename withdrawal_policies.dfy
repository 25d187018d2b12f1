/** The withdrawal policies and the factory that selects one from the
    account's authorised overdraft. */
module WithdrawalPolicies {
  import opened Results
  import opened Errors
  import opened Amounts

  /** `NoOverdraftPolicy` or `AuthorizedOverdraftPolicy`; neither holds state. */
  datatype WithdrawalPolicy = NoOverdraft | AuthorizedOverdraft

  /** `NoOverdraftPolicy.checkWithdrawal`: refuses a withdrawal larger than
      the balance; taking the balance to exactly zero is allowed. */
  function NoOverdraftCheck(balance: int, amount: Money): (r: Outcome<Error>)
    ensures r.Fail? <==> balance < amount.amount
    ensures r.Fail? ==> r.error == InsufficientBalance(BalanceTooLow)
  {
    if balance < amount.amount then Fail(InsufficientBalance(BalanceTooLow)) else Pass
  }

  /** `AuthorizedOverdraftPolicy.checkWithdrawal`: refuses a withdrawal that
      would leave the balance below minus the overdraft; landing exactly on
      that floor is allowed. */
  function AuthorizedOverdraftCheck(balance: int, overdraft: Money, amount: Money): (r: Outcome<Error>)
    ensures r.Fail? <==> balance - amount.amount < -(overdraft.amount as int)
    ensures r.Fail? ==> r.error == InsufficientBalance(OverdraftLimitReached)
  {
    var finalBalance := balance - amount.amount;
    var maxOverdraft: int := overdraft.amount;
    if finalBalance < -maxOverdraft then Fail(InsufficientBalance(OverdraftLimitReached)) else Pass
  }

  /** `WithdrawalPolicy.checkWithdrawal(account, amount)`, given the account's
      balance and authorised overdraft: the policy's own check. */
  function CheckWithdrawal(policy: WithdrawalPolicy, balance: int, overdraft: Money, amount: Money): (r: Outcome<Error>)
    ensures policy == NoOverdraft ==>
      (r.Fail? <==> balance < amount.amount) && (r.Fail? ==> r.error == InsufficientBalance(BalanceTooLow))
    ensures policy == AuthorizedOverdraft ==>
      (r.Fail? <==> balance - amount.amount < -(overdraft.amount as int))
      && (r.Fail? ==> r.error == InsufficientBalance(OverdraftLimitReached))
  {
    match policy
    case NoOverdraft => NoOverdraftCheck(balance, amount)
    case AuthorizedOverdraft => AuthorizedOverdraftCheck(balance, overdraft, amount)
  }

  /** `WithdrawalPolicyFactory.create(account)`: an overdraft above zero
      selects the overdraft policy, otherwise no overdraft is allowed. */
  function Create(overdraft: Money): (p: WithdrawalPolicy)
    ensures p == AuthorizedOverdraft <==> overdraft.amount > 0
  {
    if overdraft.amount > 0 then AuthorizedOverdraft else NoOverdraft
  }

  /** The selected policy accepts a withdrawal exactly when the balance after
      it stays at or above minus the authorised overdraft. */
  lemma SelectedPolicyFloor(balance: int, overdraft: Money, amount: Money)
    ensures CheckWithdrawal(Create(overdraft), balance, overdraft, amount).Pass?
        <==> balance - amount.amount >= -(overdraft.amount as int)
  {
  }

  /** With a zero overdraft both policies accept the same withdrawals; only
      their messages differ. */
  lemma ZeroOverdraftPoliciesAgree(balance: int, amount: Money)
    ensures CheckWithdrawal(NoOverdraft, balance, Zero, amount).Pass?
        <==> CheckWithdrawal(AuthorizedOverdraft, balance, Zero, amount).Pass?
  {
  }

  /** A larger overdraft never refuses a withdrawal that a smaller one accepts. */
  lemma OverdraftMonotone(balance: int, small: Money, large: Money, amount: Money)
    requires small.amount <= large.amount
    requires CheckWithdrawal(Create(small), balance, small, amount).Pass?
    ensures CheckWithdrawal(Create(large), balance, large, amount).Pass?
  {
  }

  /** The boundary cases the tests exercise: with an overdraft of 100 and a
      zero balance, withdrawing 100 is accepted and 101 is refused; without
      overdraft, 100 cannot be taken from 50 but can be taken from 100. */
  lemma BoundaryCases()
    ensures CheckWithdrawal(Create(Money(100)), 0, Money(100), Money(100)) == Pass
    ensures CheckWithdrawal(Create(Money(100)), 0, Money(100), Money(101)) == Fail(InsufficientBalance(OverdraftLimitReached))
    ensures CheckWithdrawal(Create(Zero), 50, Zero, Money(100)) == Fail(InsufficientBalance(BalanceTooLow))
    ensures CheckWithdrawal(Create(Zero), 100, Zero, Money(100)) == Pass
  {
  }
}
