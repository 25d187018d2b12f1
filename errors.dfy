/** The exceptions thrown by the bank-account code, each with the message the
    source gives it. */
module Errors {

  datatype Error =
    | InvalidAmount(message: string)        // InvalidAmountException
    | InsufficientBalance(message: string)  // InsufficientBalanceException
    | Functional(message: string)           // FunctionalException
    | AccountNotFound(message: string)      // AccountNotFoundException
    | IllegalArgument(message: string)      // Enum.valueOf on an unknown name
    | NullPointer(message: string)          // a null dereference or Objects.requireNonNull

  // Messages of InvalidAmountException
  const AmountMustBePositive: string := "Le montant doit être positif et non nul."
  const OperationIdRequired: string := "L'identifiant de l'opération est requis."
  const OperationDateRequired: string := "La date de l'opération est requise."
  const InitialBalanceRequired: string := "Le solde initial est obligatoire."
  const SavingsCeilingExceeded: string := "Le plafond du livret est dépassé."

  // Messages of InsufficientBalanceException
  const BalanceTooLow: string := "Solde insuffisant."
  const OverdraftLimitReached: string := "Limite de découvert atteinte"

  // Messages of FunctionalException
  const OperationsMustNotBeNull: string := "La liste des opérations ne peut pas être nulle."
  const PeriodStartAfterEnd: string := "La date de début doit être antérieure à la date de fin."

  // Message prefix of AccountNotFoundException
  const NotFoundPrefix: string := "Aucun compte trouvé pour l'identifiant : "

  // Messages of Objects.requireNonNull in BankAccountService
  const OperationRepositoryRequired: string := "Le operation repository ne doit pas être nul."
  const AccountRepositoryRequired: string := "Le account repository ne doit pas être nul."
  const OperationFactoryRequired: string := "La factory d'opérations ne doit pas être nulle."
  const ClockRequired: string := "L'horloge (Clock) ne doit pas être nulle."

  /** `new AccountNotFoundException(id)`: the constructor puts the prefix in
      front of whatever it is given. */
  function AccountNotFoundException(id: string): (e: Error)
    ensures e.AccountNotFound? && e.message == NotFoundPrefix + id
  {
    AccountNotFound(NotFoundPrefix + id)
  }

  /** What the services throw AS WRITTEN: they hand the constructor a message
      that already carries the prefix, so the prefix appears twice. */
  function NotFoundAsWritten(accountId: string): (e: Error)
    ensures e == AccountNotFound(NotFoundPrefix + NotFoundPrefix + accountId)
  {
    AccountNotFoundException(NotFoundPrefix + accountId)
  }

  /** The error the services evidently intend (and the one the rest of the
      model throws): the prefix once, then the account id. */
  function NotFound(accountId: string): (e: Error)
    ensures e.AccountNotFound?
    ensures e.message == NotFoundPrefix + accountId
  {
    AccountNotFoundException(accountId)
  }

  /** The message as written differs from the intended one for EVERY id, so
      the expectation "Aucun compte trouvé pour l'identifiant : not-exist-id"
      cannot be met. */
  lemma NotFoundMessageDoubled(accountId: string)
    ensures NotFoundAsWritten(accountId) != NotFound(accountId)
    ensures NotFoundAsWritten(accountId).message[..|NotFoundPrefix|] == NotFoundPrefix
  {
    var written := NotFoundAsWritten(accountId).message;
    var intended := NotFound(accountId).message;
    assert |written| == |intended| + |NotFoundPrefix|;
  }

  /** The statement service's own wording, which also goes through the
      prefixing constructor. */
  const StatementNotFoundWording: string := "Aucun compte trouvé avec l’ID : "

  /** What the statement service throws AS WRITTEN: the prefix, then a second
      sentence saying the same, then the id. */
  function StatementNotFoundAsWritten(accountId: string): (e: Error)
    ensures e == AccountNotFound(NotFoundPrefix + StatementNotFoundWording + accountId)
  {
    AccountNotFoundException(StatementNotFoundWording + accountId)
  }

  /** The statement service's message is never the intended one either. */
  lemma StatementNotFoundDiffers(accountId: string)
    ensures StatementNotFoundAsWritten(accountId) != NotFound(accountId)
  {
    var written := StatementNotFoundAsWritten(accountId).message;
    var intended := NotFound(accountId).message;
    assert |written| == |intended| + |StatementNotFoundWording|;
  }

  /** The id the service test uses, seen through both versions: the test
      expects the prefix once followed by the id. */
  lemma NotFoundCounterexample()
    ensures NotFound("not-exist-id").message == NotFoundPrefix + "not-exist-id"
    ensures NotFoundAsWritten("not-exist-id").message != NotFoundPrefix + "not-exist-id"
  {
    NotFoundMessageDoubled("not-exist-id");
  }
}
