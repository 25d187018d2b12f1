/** The persistence records `BankOperationEntity` and `BankAccountEntity`, as
    plain values. Every column may be null, except where noted. */
module Entities {
  import opened Results
  import opened Time
  import opened Accounts

  /** `BankOperationEntity`. The link to the owning account entity is kept as
      that entity's id. */
  datatype BankOperationEntity = BankOperationEntity(
    id: Option<string>,
    kind: Option<string>,
    amount: Option<int>,
    timestamp: Option<Instant>,
    parentId: Option<string>)

  /** `BankAccountEntity`. The id and the account type are taken as present. */
  datatype BankAccountEntity = BankAccountEntity(
    id: string,
    currency: Option<string>,
    authorizedOverdraft: Option<int>,
    accountType: AccountType,
    depositCeiling: Option<int>,
    operations: seq<BankOperationEntity>)
}
