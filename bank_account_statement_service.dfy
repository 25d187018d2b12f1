/** `BankAccountStatementService`: resolves the period of a statement and
    assembles it from the stored account and the operation store. */
module StatementService {
  import opened Results
  import opened Errors
  import opened Time
  import opened Operations
  import opened Ledger
  import opened Accounts
  import opened Repositories
  import opened Statements

  class BankAccountStatementService {
    const accountRepository: AccountRepository
    const operationRepository: OperationRepository

    constructor (accountRepository: AccountRepository, operationRepository: OperationRepository)
      ensures this.accountRepository == accountRepository && this.operationRepository == operationRepository
    {
      this.accountRepository := accountRepository;
      this.operationRepository := operationRepository;
    }

    /** `generateStatementForPeriod(accountId, from, to)`. `now` is the wall
        clock at the call and `monthBeforeNow` is `now.minusMonths(1)`. The
        account lookup comes first; a missing `from` is a month before now and
        a missing `to` is now; an inverted period is refused before the store
        is queried; the statement is issued at the resolved end, with the
        account's balance at the time of the call. */
    function GenerateStatementForPeriod(accountId: string, from: Option<Instant>, to: Option<Instant>,
                                        now: Instant, monthBeforeNow: Instant)
      : (r: Result<AccountStatement, Error>)
      reads accountRepository, operationRepository, accountRepository.Footprint(accountId)
      ensures accountId !in accountRepository.accounts ==> r == Failure(NotFound(accountId))
      ensures accountId in accountRepository.accounts ==>
        var periodFrom := from.GetOr(monthBeforeNow);
        var periodTo := to.GetOr(now);
        && (r.Failure? <==> periodFrom > periodTo)
        && (r.Failure? ==> r.error == Functional(PeriodStartAfterEnd))
        && (r.Success? ==>
              var account := accountRepository.accounts[accountId];
              && r.value.accountId == account.id && r.value.accountType == account.accountType
              && r.value.currentBalance == account.balance
              && r.value.issuedAt == periodTo && r.value.from == periodFrom && r.value.to == periodTo
              && r.value.operations == operationRepository.FindAllByAccountIdBetweenDates(accountId, periodFrom, periodTo))
    {
      match accountRepository.FindById(accountId)
      case None => Failure(NotFound(accountId))
      case Some(account) =>
        var periodFrom := if from.Some? then from.value else monthBeforeNow;
        var periodTo := if to.Some? then to.value else now;
        if periodFrom > periodTo then Failure(Functional(PeriodStartAfterEnd))
        else
          var operations := operationRepository.FindAllByAccountIdBetweenDates(accountId, periodFrom, periodTo);
          Success(AccountStatement(account.id, account.accountType, account.balance, periodTo, periodFrom, periodTo, operations))
    }
  }

  /** With neither bound given, the period is the month before now, which is
      never inverted; and every operation in a statement lies in its period. */
  lemma DefaultPeriodAccepted(service: BankAccountStatementService, accountId: string, now: Instant, monthBeforeNow: Instant)
    requires accountId in service.accountRepository.accounts
    requires monthBeforeNow <= now
    ensures var r := service.GenerateStatementForPeriod(accountId, None, None, now, monthBeforeNow);
            && r.Success? && r.value.from == monthBeforeNow && r.value.to == now && r.value.issuedAt == now
            && forall op :: op in r.value.operations ==> monthBeforeNow <= op.timestamp <= now
  {
  }

  /** A period that starts and ends at the same instant is accepted. */
  lemma SingleInstantPeriodAccepted(service: BankAccountStatementService, accountId: string, t: Instant,
                                    now: Instant, monthBeforeNow: Instant)
    requires accountId in service.accountRepository.accounts
    ensures service.GenerateStatementForPeriod(accountId, Some(t), Some(t), now, monthBeforeNow).Success?
  {
  }
}
