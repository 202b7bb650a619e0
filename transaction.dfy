/** The ledger entry (package `transaction`, record `Transaction`). */
module Transactions {
  import opened Amounts

  /** java.util.UUID: only compared for equality. */
  type AccountId(==, !new)

  /** java.time.LocalDateTime: only compared for equality and handed to a date renderer. */
  type DateTime(==, !new)

  /** The enum TypeTransaction; Java's `type` component is called `kind` here. */
  datatype TypeTransaction = DEPOSIT | WITHDRAWAL

  /** The immutable record; equality is component-wise, as for a Java record. */
  datatype Transaction = Transaction(
    accountId: AccountId,
    date: DateTime,
    amount: Amount,
    balanceAfterExecution: Amount,
    kind: TypeTransaction)

  /** The enum constant's `toString`: its name. */
  function TypeName(kind: TypeTransaction): (s: string)
    ensures |s| <= 10
  {
    match kind
    case DEPOSIT => "DEPOSIT"
    case WITHDRAWAL => "WITHDRAWAL"
  }
}
