/**
 * Per-client bookkeeping: the balance record and its five operations
 * (deposit, withdraw, dispute, resolve, chargeback), and the transaction
 * record read from the input.
 *
 * Every operation first refuses a locked account, then parses its amount
 * string, then runs checked arithmetic and sign tests, writing fields as it
 * goes.  Deposit, dispute and resolve write their first field before the
 * second checked addition; when that addition overflows, the first write
 * stays in place.  Withdraw and chargeback compute both fields before writing
 * either.
 */
module Models {
  import opened Primitives
  import opened Errors

  datatype TransactionType = Deposit | Withdrawal | Dispute | Resolve | Chargeback

  /** An input record.  Dispute-family records carry an empty amount. */
  datatype Transaction = Transaction(tx: TxId, client: ClientId, amount: string, kind: TransactionType)

  /** The fields of a client balance at one point in time. */
  datatype Balance = Balance(client: ClientId, available: int, held: int, total: int, locked: bool)

  /** A balance after an operation, with what the operation returned. */
  datatype Step = Step(after: Balance, outcome: Outcome)

  function NewBalance(client: ClientId): (b: Balance) {
    Balance(client, 0, 0, 0, false)
  }

  /** Total funds are the available plus the held funds. */
  predicate Consistent(b: Balance) {
    b.total == b.available + b.held
  }

  /** Every amount field fits the decimal mantissa. */
  predicate Bounded(b: Balance) {
    InRange(b.available) && InRange(b.held) && InRange(b.total)
  }

  predicate NonNegative(b: Balance) {
    0 <= b.available && 0 <= b.held && 0 <= b.total
  }

  function ValidateIsUnlocked(b: Balance): (r: Outcome)
    ensures r.Pass? <==> !b.locked
    ensures r.Fail? ==> r.error == AccountLocked(b.client)
  {
    if b.locked then Fail(AccountLocked(b.client)) else Pass
  }

  /** The amount an operation parsed, for stating contracts. */
  function Parsed(parse: Parser, amount: string): (a: int)
    requires ParseAmount(parse, amount).Some?
  {
    ParseAmount(parse, amount).value
  }

  /**
   * Deposit adds the amount to available and total funds.  There is no sign
   * check, so a negative amount is accepted.
   */
  function Deposited(b: Balance, amount: string, parse: Parser): (r: Step)
    ensures r.after.client == b.client && r.after.held == b.held && r.after.locked == b.locked
    ensures b.locked ==> r == Step(b, Fail(AccountLocked(b.client)))
    ensures r.outcome.Pass? <==>
              !b.locked && ParseAmount(parse, amount).Some?
              && InRange(b.available + Parsed(parse, amount))
              && InRange(b.total + Parsed(parse, amount))
    ensures r.outcome.Pass? ==>
              ParseAmount(parse, amount).Some?
              && r.after.available == b.available + Parsed(parse, amount)
              && r.after.total == b.total + Parsed(parse, amount)
    ensures r.outcome.Fail? && r.outcome != Fail(ValueOverflow) ==> r.after == b
    ensures r.outcome == Fail(ValueOverflow) ==>
              ParseAmount(parse, amount).Some?
              && (r.after == b || r.after == b.(available := b.available + Parsed(parse, amount)))
    ensures !b.locked && ParseAmount(parse, amount).None? ==> r == Step(b, Fail(MalformedAmount))
    ensures !b.locked && ParseAmount(parse, amount).Some?
            && !InRange(b.available + Parsed(parse, amount)) ==>
              r == Step(b, Fail(ValueOverflow))
    ensures !b.locked && ParseAmount(parse, amount).Some?
            && InRange(b.available + Parsed(parse, amount))
            && !InRange(b.total + Parsed(parse, amount)) ==>
              r == Step(b.(available := b.available + Parsed(parse, amount)), Fail(ValueOverflow))
  {
    if b.locked then Step(b, ValidateIsUnlocked(b))
    else match ParseAmount(parse, amount)
      case None => Step(b, Fail(MalformedAmount))
      case Some(a) =>
        match CheckedAdd(b.available, a)
        case None => Step(b, Fail(ValueOverflow))
        case Some(available) =>
          var b1 := b.(available := available);
          match CheckedAdd(b.total, a)
          case None => Step(b1, Fail(ValueOverflow))
          case Some(total) => Step(b1.(total := total), Pass)
  }

  /**
   * Withdraw subtracts the amount from available and total funds, and is
   * refused, leaving the balance as it was, when either would go negative.
   */
  function Withdrawn(b: Balance, amount: string, parse: Parser): (r: Step)
    ensures b.locked ==> r == Step(b, Fail(AccountLocked(b.client)))
    ensures r.outcome.Fail? ==> r.after == b
    ensures r.outcome.Pass? <==>
              !b.locked && ParseAmount(parse, amount).Some?
              && 0 <= b.available - Parsed(parse, amount) <= MAX_AMOUNT
              && 0 <= b.total - Parsed(parse, amount) <= MAX_AMOUNT
    ensures r.outcome.Pass? ==>
              ParseAmount(parse, amount).Some?
              && r.after == b.(available := b.available - Parsed(parse, amount),
                               total := b.total - Parsed(parse, amount))
    ensures r.outcome.Fail? && !b.locked && ParseAmount(parse, amount).Some? ==>
              r.outcome.error.InsufficientFunds?
              && r.outcome.error.amount == Parsed(parse, amount)
    ensures !b.locked && ParseAmount(parse, amount).None? ==> r == Step(b, Fail(MalformedAmount))
  {
    if b.locked then Step(b, ValidateIsUnlocked(b))
    else match ParseAmount(parse, amount)
      case None => Step(b, Fail(MalformedAmount))
      case Some(a) =>
        match CheckedSub(b.available, a)
        case None => Step(b, Fail(InsufficientFunds(a, b.available)))
        case Some(available) =>
          match CheckedSub(b.total, a)
          case None => Step(b, Fail(InsufficientFunds(a, b.total)))
          case Some(total) =>
            if total < 0 then Step(b, Fail(InsufficientFunds(a, total)))
            else if available < 0 then Step(b, Fail(InsufficientFunds(a, available)))
            else Step(b.(available := available, total := total), Pass)
  }

  /**
   * Dispute moves the amount from available to held funds, and is refused
   * when available funds would go negative.
   */
  function Disputed(b: Balance, amount: string, parse: Parser): (r: Step)
    ensures r.after.client == b.client && r.after.total == b.total && r.after.locked == b.locked
    ensures b.locked ==> r == Step(b, Fail(AccountLocked(b.client)))
    ensures r.outcome.Pass? <==>
              !b.locked && ParseAmount(parse, amount).Some?
              && 0 <= b.available - Parsed(parse, amount) <= MAX_AMOUNT
              && InRange(b.held + Parsed(parse, amount))
    ensures r.outcome.Pass? ==>
              ParseAmount(parse, amount).Some?
              && r.after.available == b.available - Parsed(parse, amount)
              && r.after.held == b.held + Parsed(parse, amount)
    ensures r.outcome.Fail? && r.outcome != Fail(ValueOverflow) ==> r.after == b
    ensures r.outcome == Fail(ValueOverflow) ==>
              !b.locked && ParseAmount(parse, amount).Some?
              && 0 <= b.available - Parsed(parse, amount) <= MAX_AMOUNT
              && !InRange(b.held + Parsed(parse, amount))
              && r.after == b.(available := b.available - Parsed(parse, amount))
    ensures !b.locked && ParseAmount(parse, amount).None? ==> r == Step(b, Fail(MalformedAmount))
    ensures !b.locked && ParseAmount(parse, amount).Some?
            && 0 <= b.available - Parsed(parse, amount) <= MAX_AMOUNT
            && !InRange(b.held + Parsed(parse, amount)) ==>
              r == Step(b.(available := b.available - Parsed(parse, amount)), Fail(ValueOverflow))
    ensures r.outcome.Fail? && r.outcome != Fail(ValueOverflow) && !b.locked && ParseAmount(parse, amount).Some? ==>
              r.outcome.error.InsufficientFunds? && r.outcome.error.amount == Parsed(parse, amount)
  {
    if b.locked then Step(b, ValidateIsUnlocked(b))
    else match ParseAmount(parse, amount)
      case None => Step(b, Fail(MalformedAmount))
      case Some(a) =>
        match CheckedSub(b.available, a)
        case None => Step(b, Fail(InsufficientFunds(a, b.available)))
        case Some(available) =>
          if available < 0 then Step(b, Fail(InsufficientFunds(a, available)))
          else
            var b1 := b.(available := available);
            match CheckedAdd(b.held, a)
            case None => Step(b1, Fail(ValueOverflow))
            case Some(held) => Step(b1.(held := held), Pass)
  }

  /**
   * Resolve moves the amount from held back to available funds, and is
   * refused when held funds would go negative.
   */
  function Resolved(b: Balance, amount: string, parse: Parser): (r: Step)
    ensures r.after.client == b.client && r.after.total == b.total && r.after.locked == b.locked
    ensures b.locked ==> r == Step(b, Fail(AccountLocked(b.client)))
    ensures r.outcome.Pass? <==>
              !b.locked && ParseAmount(parse, amount).Some?
              && 0 <= b.held - Parsed(parse, amount) <= MAX_AMOUNT
              && InRange(b.available + Parsed(parse, amount))
    ensures r.outcome.Pass? ==>
              ParseAmount(parse, amount).Some?
              && r.after.held == b.held - Parsed(parse, amount)
              && r.after.available == b.available + Parsed(parse, amount)
    ensures r.outcome.Fail? && r.outcome != Fail(ValueOverflow) ==> r.after == b
    ensures r.outcome == Fail(ValueOverflow) ==>
              !b.locked && ParseAmount(parse, amount).Some?
              && 0 <= b.held - Parsed(parse, amount) <= MAX_AMOUNT
              && !InRange(b.available + Parsed(parse, amount))
              && r.after == b.(held := b.held - Parsed(parse, amount))
    ensures !b.locked && ParseAmount(parse, amount).None? ==> r == Step(b, Fail(MalformedAmount))
    ensures !b.locked && ParseAmount(parse, amount).Some?
            && 0 <= b.held - Parsed(parse, amount) <= MAX_AMOUNT
            && !InRange(b.available + Parsed(parse, amount)) ==>
              r == Step(b.(held := b.held - Parsed(parse, amount)), Fail(ValueOverflow))
    ensures r.outcome.Fail? && r.outcome != Fail(ValueOverflow) && !b.locked && ParseAmount(parse, amount).Some? ==>
              r.outcome.error.InsufficientFunds? && r.outcome.error.amount == Parsed(parse, amount)
  {
    if b.locked then Step(b, ValidateIsUnlocked(b))
    else match ParseAmount(parse, amount)
      case None => Step(b, Fail(MalformedAmount))
      case Some(a) =>
        match CheckedSub(b.held, a)
        case None => Step(b, Fail(InsufficientFunds(a, b.held)))
        case Some(held) =>
          if held < 0 then Step(b, Fail(InsufficientFunds(a, b.held)))
          else
            var b1 := b.(held := held);
            match CheckedAdd(b.available, a)
            case None => Step(b1, Fail(ValueOverflow))
            case Some(available) => Step(b1.(available := available), Pass)
  }

  /**
   * Chargeback removes the amount from held and total funds and locks the
   * account; it is refused, leaving the balance as it was, when held or
   * total funds would go negative.
   */
  function ChargedBack(b: Balance, amount: string, parse: Parser): (r: Step)
    ensures b.locked ==> r == Step(b, Fail(AccountLocked(b.client)))
    ensures r.outcome.Fail? ==> r.after == b
    ensures r.outcome.Pass? <==>
              !b.locked && ParseAmount(parse, amount).Some?
              && 0 <= b.held - Parsed(parse, amount) <= MAX_AMOUNT
              && 0 <= b.total - Parsed(parse, amount) <= MAX_AMOUNT
    ensures r.outcome.Pass? ==>
              ParseAmount(parse, amount).Some?
              && r.after == b.(held := b.held - Parsed(parse, amount),
                               total := b.total - Parsed(parse, amount),
                               locked := true)
    ensures !b.locked && ParseAmount(parse, amount).None? ==> r == Step(b, Fail(MalformedAmount))
    ensures r.outcome.Fail? && !b.locked && ParseAmount(parse, amount).Some? ==>
              r.outcome.error.InsufficientFunds? && r.outcome.error.amount == Parsed(parse, amount)
  {
    if b.locked then Step(b, ValidateIsUnlocked(b))
    else match ParseAmount(parse, amount)
      case None => Step(b, Fail(MalformedAmount))
      case Some(a) =>
        match CheckedSub(b.held, a)
        case None => Step(b, Fail(InsufficientFunds(a, b.held)))
        case Some(held) =>
          match CheckedSub(b.total, a)
          case None => Step(b, Fail(InsufficientFunds(a, b.total)))
          case Some(total) =>
            if held < 0 then Step(b, Fail(InsufficientFunds(a, b.held)))
            else if total < 0 then Step(b, Fail(InsufficientFunds(a, b.total)))
            else Step(b.(held := held, total := total, locked := true), Pass)
  }

  /** The balance operation a transaction type selects. */
  function Operate(kind: TransactionType, b: Balance, amount: string, parse: Parser): (r: Step) {
    match kind
    case Deposit => Deposited(b, amount, parse)
    case Withdrawal => Withdrawn(b, amount, parse)
    case Dispute => Disputed(b, amount, parse)
    case Resolve => Resolved(b, amount, parse)
    case Chargeback => ChargedBack(b, amount, parse)
  }

  /** A client's balance, updated in place by the five operations. */
  class ClientBalance {
    const client: ClientId
    var available: int
    var held: int
    var total: int
    var locked: bool

    function Snapshot(): (b: Balance)
      reads this
    {
      Balance(client, available, held, total, locked)
    }

    constructor (client: ClientId)
      ensures this.client == client
      ensures available == 0 && held == 0 && total == 0 && !locked
      ensures Snapshot() == NewBalance(client)
    {
      this.client := client;
      available, held, total := 0, 0, 0;
      locked := false;
    }

    method Deposit(amount: string, parse: Parser) returns (r: Outcome)
      modifies this
      ensures Snapshot() == Deposited(old(Snapshot()), amount, parse).after
      ensures r == Deposited(old(Snapshot()), amount, parse).outcome
    {
      r := ValidateIsUnlocked(Snapshot());
      if r.Fail? { return; }
      var parsed := ParseAmount(parse, amount);
      if parsed.None? { return Fail(MalformedAmount); }
      var a := parsed.value;
      var sum := CheckedAdd(available, a);
      if sum.None? { return Fail(ValueOverflow); }
      available := sum.value;
      sum := CheckedAdd(total, a);
      if sum.None? { return Fail(ValueOverflow); }
      total := sum.value;
    }

    method Withdraw(amount: string, parse: Parser) returns (r: Outcome)
      modifies this
      ensures Snapshot() == Withdrawn(old(Snapshot()), amount, parse).after
      ensures r == Withdrawn(old(Snapshot()), amount, parse).outcome
    {
      r := ValidateIsUnlocked(Snapshot());
      if r.Fail? { return; }
      var parsed := ParseAmount(parse, amount);
      if parsed.None? { return Fail(MalformedAmount); }
      var a := parsed.value;
      var newAvailable := CheckedSub(available, a);
      if newAvailable.None? { return Fail(InsufficientFunds(a, available)); }
      var newTotal := CheckedSub(total, a);
      if newTotal.None? { return Fail(InsufficientFunds(a, total)); }
      if newTotal.value < 0 { return Fail(InsufficientFunds(a, newTotal.value)); }
      if newAvailable.value < 0 { return Fail(InsufficientFunds(a, newAvailable.value)); }
      available := newAvailable.value;
      total := newTotal.value;
    }

    method Dispute(amount: string, parse: Parser) returns (r: Outcome)
      modifies this
      ensures Snapshot() == Disputed(old(Snapshot()), amount, parse).after
      ensures r == Disputed(old(Snapshot()), amount, parse).outcome
    {
      r := ValidateIsUnlocked(Snapshot());
      if r.Fail? { return; }
      var parsed := ParseAmount(parse, amount);
      if parsed.None? { return Fail(MalformedAmount); }
      var a := parsed.value;
      var newAvailable := CheckedSub(available, a);
      if newAvailable.None? { return Fail(InsufficientFunds(a, available)); }
      if newAvailable.value < 0 { return Fail(InsufficientFunds(a, newAvailable.value)); }
      available := newAvailable.value;
      var newHeld := CheckedAdd(held, a);
      if newHeld.None? { return Fail(ValueOverflow); }
      held := newHeld.value;
    }

    method Resolve(amount: string, parse: Parser) returns (r: Outcome)
      modifies this
      ensures Snapshot() == Resolved(old(Snapshot()), amount, parse).after
      ensures r == Resolved(old(Snapshot()), amount, parse).outcome
    {
      r := ValidateIsUnlocked(Snapshot());
      if r.Fail? { return; }
      var parsed := ParseAmount(parse, amount);
      if parsed.None? { return Fail(MalformedAmount); }
      var a := parsed.value;
      var newHeld := CheckedSub(held, a);
      if newHeld.None? { return Fail(InsufficientFunds(a, held)); }
      if newHeld.value < 0 { return Fail(InsufficientFunds(a, held)); }
      held := newHeld.value;
      var newAvailable := CheckedAdd(available, a);
      if newAvailable.None? { return Fail(ValueOverflow); }
      available := newAvailable.value;
    }

    method Chargeback(amount: string, parse: Parser) returns (r: Outcome)
      modifies this
      ensures Snapshot() == ChargedBack(old(Snapshot()), amount, parse).after
      ensures r == ChargedBack(old(Snapshot()), amount, parse).outcome
    {
      r := ValidateIsUnlocked(Snapshot());
      if r.Fail? { return; }
      var parsed := ParseAmount(parse, amount);
      if parsed.None? { return Fail(MalformedAmount); }
      var a := parsed.value;
      var newHeld := CheckedSub(held, a);
      if newHeld.None? { return Fail(InsufficientFunds(a, held)); }
      var newTotal := CheckedSub(total, a);
      if newTotal.None? { return Fail(InsufficientFunds(a, total)); }
      if newHeld.value < 0 { return Fail(InsufficientFunds(a, held)); }
      if newTotal.value < 0 { return Fail(InsufficientFunds(a, total)); }
      held := newHeld.value;
      total := newTotal.value;
      locked := true;
    }
  }
}
