/** The account-creation request: `CreateAccountRequestDTO`, its field
    constraints and the class-level `CreateAccountValidator`. */
module Requests {
  import opened Results

  /** `CreateAccountRequestDTO` once its compact constructor has run, so the
      overdraft is never null. */
  datatype CreateAccountRequest = CreateAccountRequest(
    initialBalance: Option<int>,
    authorizedOverdraft: int,
    accountType: Option<string>)

  /** A reported constraint violation: the property it is attached to and
      its message template. */
  datatype Violation = Violation(property: string, template: string)

  const CurrentAccount: string := "COMPTE_COURANT"
  const SavingsAccount: string := "LIVRET"

  /** The compact constructor: a null overdraft becomes zero, the other
      fields are kept as given. */
  function NewRequest(initialBalance: Option<int>, authorizedOverdraft: Option<int>, accountType: Option<string>)
    : (r: CreateAccountRequest)
    ensures authorizedOverdraft.None? ==> r.authorizedOverdraft == 0
    ensures authorizedOverdraft.Some? ==> r.authorizedOverdraft == authorizedOverdraft.value
    ensures r.initialBalance == initialBalance && r.accountType == accountType
  {
    CreateAccountRequest(initialBalance, if authorizedOverdraft.Some? then authorizedOverdraft.value else 0, accountType)
  }

  /** `of(initialBalance, authorizedOverdraft)`: a current-account request. */
  function Of(initialBalance: Option<int>, authorizedOverdraft: Option<int>): (r: CreateAccountRequest)
    ensures r.accountType == Some(CurrentAccount)
    ensures r.initialBalance == initialBalance
    ensures r.authorizedOverdraft == authorizedOverdraft.GetOr(0)
  {
    NewRequest(initialBalance, authorizedOverdraft, Some(CurrentAccount))
  }

  /** `@DecimalMin(value = "0.0", inclusive = true)` on a value that may be
      null: a null value passes, as Bean Validation has it. */
  predicate AtLeastZero(v: Option<int>) {
    v.None? || v.value >= 0
  }

  /** `@Pattern(regexp = "COMPTE_COURANT|LIVRET")`: the whole string must be
      one of the two names; a null value passes. */
  predicate IsKnownAccountType(t: Option<string>) {
    t.None? || t.value == CurrentAccount || t.value == SavingsAccount
  }

  /** The field constraints of the record, each with its template. */
  function FieldViolations(dto: CreateAccountRequest): (vs: set<Violation>)
    ensures Violation("initialBalance", "{bank.operation.balance.positive}") in vs <==> !AtLeastZero(dto.initialBalance)
    ensures Violation("authorizedOverdraft", "{bank.operation.authorizedOverdraft.positive}") in vs <==> dto.authorizedOverdraft < 0
    ensures Violation("accountType", "{bank.account.type.invalid}") in vs <==> !IsKnownAccountType(dto.accountType)
    ensures |vs| <= 3
    ensures vs == {} <==> AtLeastZero(dto.initialBalance) && dto.authorizedOverdraft >= 0 && IsKnownAccountType(dto.accountType)
  {
    (if AtLeastZero(dto.initialBalance) then {} else {Violation("initialBalance", "{bank.operation.balance.positive}")})
    + (if dto.authorizedOverdraft >= 0 then {} else {Violation("authorizedOverdraft", "{bank.operation.authorizedOverdraft.positive}")})
    + (if IsKnownAccountType(dto.accountType) then {} else {Violation("accountType", "{bank.account.type.invalid}")})
  }

  /** What `isValid` returns, with the violations it adds to the context. */
  datatype ValidationOutcome = ValidationOutcome(valid: bool, violations: seq<Violation>)

  /** `CreateAccountValidator.isValid`: a LIVRET with an overdraft above zero
      is refused, with one violation on `authorizedOverdraft`; anything else is
      accepted and nothing is reported. */
  function IsValid(dto: CreateAccountRequest): (r: ValidationOutcome)
    ensures !r.valid <==> dto.accountType == Some(SavingsAccount) && dto.authorizedOverdraft > 0
    ensures !r.valid ==> r.violations == [Violation("authorizedOverdraft", "{bank.account.livret.overdraft}")]
    ensures r.valid ==> r.violations == []
  {
    if dto.accountType == Some(SavingsAccount) && dto.authorizedOverdraft > 0 then
      ValidationOutcome(false, [Violation("authorizedOverdraft", "{bank.account.livret.overdraft}")])
    else
      ValidationOutcome(true, [])
  }

  /** A request that passes both the field constraints and the validator
      asks for a non-negative overdraft, and for none at all on a LIVRET. */
  lemma AcceptedRequestOverdraft(dto: CreateAccountRequest)
    requires FieldViolations(dto) == {} && IsValid(dto).valid
    ensures dto.authorizedOverdraft >= 0
    ensures dto.accountType == Some(SavingsAccount) ==> dto.authorizedOverdraft == 0
  {
  }

  /** A request built without an overdraft never violates the overdraft
      constraint nor the LIVRET rule. */
  lemma MissingOverdraftAccepted(initialBalance: Option<int>, accountType: Option<string>)
    ensures var dto := NewRequest(initialBalance, None, accountType);
            Violation("authorizedOverdraft", "{bank.operation.authorizedOverdraft.positive}") !in FieldViolations(dto)
            && IsValid(dto).valid
  {
  }
}
