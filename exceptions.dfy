/** The two business-rule exceptions of the ledger, as an error value. */
module Exceptions {

  datatype LedgerError =
    | NegativeAmount   // NegativeAmountException
    | NotEnoughMoney   // NotEnoughMoneyException

  /** The message each exception carries. */
  function Message(e: LedgerError): string
  {
    match e
    case NegativeAmount => "The amount value cannot be negative."
    case NotEnoughMoney => "The withdrawal cannot be greater than the balance."
  }

  /** The messages tell the two errors apart. */
  lemma MessagesDistinguishErrors(e1: LedgerError, e2: LedgerError)
    ensures Message(e1) == Message(e2) <==> e1 == e2
  {
  }
}
