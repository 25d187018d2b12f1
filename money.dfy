/** The `Money` record: an exact, non-negative amount (counted in the smallest
    currency unit, so BigDecimal's scale plays no part). */
module Amounts {
  import opened Results
  import opened Errors

  /** A `Money` value. The record's constructor refuses a missing or negative
      amount, so every value that exists carries a natural number. */
  datatype Money = Money(amount: nat) {

    /** `add`: the exact sum, again a valid Money. */
    function Add(other: Money): (r: Money)
      ensures r.amount == amount + other.amount
      ensures r.amount >= amount && r.amount >= other.amount
    {
      Money(amount + other.amount)
    }

    /** `subtract`: refuses to go below zero, otherwise the exact difference. */
    function Subtract(other: Money): (r: Result<Money, Error>)
      ensures r.Failure? <==> amount < other.amount
      ensures r.Failure? ==> r.error == InsufficientBalance(BalanceTooLow)
      ensures r.Success? ==> r.value.amount + other.amount == amount
    {
      if amount < other.amount then Failure(InsufficientBalance(BalanceTooLow))
      else Of(Some(amount - other.amount))
    }
  }

  /** `Money.zero()`. */
  const Zero: Money := Money(0)

  /** The record's validating constructor (`new Money(x)`, `Money.of(x)`). */
  function Of(amount: Option<int>): (r: Result<Money, Error>)
    ensures r.Success? <==> amount.Some? && amount.value >= 0
    ensures r.Success? ==> r.value.amount == amount.value
    ensures r.Failure? ==> r.error == InvalidAmount(AmountMustBePositive)
  {
    if amount.None? || amount.value < 0 then Failure(InvalidAmount(AmountMustBePositive))
    else Success(Money(amount.value))
  }

  /** Wrapping an existing amount and reading it back gives that amount. */
  lemma OfAmount(m: Money)
    ensures Of(Some(m.amount)) == Success(m)
  {
  }

  /** `a.add(b).subtract(b)` gives back `a`. */
  lemma AddThenSubtract(a: Money, b: Money)
    ensures a.Add(b).Subtract(b) == Success(a)
  {
  }

  /** `a.subtract(b).add(b)` gives back `a` whenever the subtraction succeeds. */
  lemma SubtractThenAdd(a: Money, b: Money)
    requires a.Subtract(b).Success?
    ensures a.Subtract(b).value.Add(b) == a
  {
  }
}
