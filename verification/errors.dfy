/** The failures a bookkeeping step can report. */
module Errors {
  import opened Primitives

  datatype LedgerError =
    | InsufficientFunds(amount: int, balance: int)
    | AccountLocked(client: ClientId)
    | TxNotFound(tx: TxId)
    | TxDuplicated(tx: TxId)
    | ValueOverflow
      /** The amount string was refused by the decimal parser. */
    | MalformedAmount

  /** The result of an operation that returns nothing on success. */
  datatype Outcome = Pass | Fail(error: LedgerError)

  /** The result of an operation that yields a value on success. */
  datatype Result<+T> = Ok(value: T) | Err(error: LedgerError)
}
