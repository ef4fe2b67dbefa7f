/**
 * Scalar types shared by the ledger: the integer widths of client and
 * transaction identifiers, and monetary amounts with the overflow-checked
 * arithmetic of a 96-bit-mantissa decimal.
 *
 * An amount is an exact integer count of one fixed smallest unit.  The
 * decimal library keeps a 96-bit mantissa, so a value whose magnitude exceeds
 * 2^96 - 1 cannot be represented; its checked addition and subtraction fail
 * only in that case, never because a result is negative.
 */
module Primitives {

  /** A client identifier, an unsigned 16-bit integer. */
  type ClientId = c: int | 0 <= c < 0x1_0000

  /** A transaction identifier, an unsigned 32-bit integer. */
  type TxId = t: int | 0 <= t < 0x1_0000_0000

  datatype Option<+T> = None | Some(value: T)

  /** The largest magnitude of a 96-bit mantissa, 2^96 - 1. */
  const MAX_AMOUNT: int := 79_228_162_514_264_337_593_543_950_335

  predicate InRange(v: int) {
    -MAX_AMOUNT <= v <= MAX_AMOUNT
  }

  /**
   * Text-to-amount conversion of the decimal library.  Which strings it
   * accepts is not modelled: every operation takes the parser as a value.
   */
  type Parser = string -> Option<int>

  /**
   * Parses an amount string.  The decimal library refuses any number that
   * does not fit its mantissa, so a value out of range is a parse failure.
   */
  function ParseAmount(parse: Parser, s: string): (r: Option<int>)
    ensures r.Some? ==> InRange(r.value) && parse(s) == r
    ensures parse(s).Some? && InRange(parse(s).value) ==> r == parse(s)
  {
    match parse(s)
    case None => None
    case Some(v) => if InRange(v) then Some(v) else None
  }

  /** Checked addition: fails only when the exact sum leaves the range. */
  function CheckedAdd(a: int, b: int): (r: Option<int>) {
    if InRange(a + b) then Some(a + b) else None
  }

  /** Checked subtraction: fails only when the exact difference leaves the range. */
  function CheckedSub(a: int, b: int): (r: Option<int>) {
    if InRange(a - b) then Some(a - b) else None
  }
}
