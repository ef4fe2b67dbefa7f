/**
 * Properties of the client balance operations: the locked state is
 * terminal, the operations keep the balance equation and the mantissa
 * range, a dispute followed by a resolve of the same amount restores the
 * balance, and the two places where the operations depart from an atomic,
 * sign-checked design.
 */
module ModelProperties {
  import opened Primitives
  import opened Errors
  import opened Models

  /** On a locked balance every operation fails with AccountLocked and changes nothing. */
  lemma LockedAccountIsFrozen(kind: TransactionType, b: Balance, amount: string, parse: Parser)
    requires b.locked
    ensures Operate(kind, b, amount, parse) == Step(b, Fail(AccountLocked(b.client)))
  {
  }

  /**
   * Every operation keeps total == available + held, except when it fails
   * with ValueOverflow after its first write.
   */
  lemma ConsistencyPreserved(kind: TransactionType, b: Balance, amount: string, parse: Parser)
    requires Consistent(b)
    ensures Operate(kind, b, amount, parse).outcome != Fail(ValueOverflow) ==>
              Consistent(Operate(kind, b, amount, parse).after)
  {
  }

  /** Every field an operation writes fits the mantissa, whatever the outcome. */
  lemma BoundsPreserved(kind: TransactionType, b: Balance, amount: string, parse: Parser)
    requires Bounded(b)
    ensures Bounded(Operate(kind, b, amount, parse).after)
  {
  }

  /**
   * With non-negative amounts no field ever becomes negative, including
   * after a partial write.
   */
  lemma NonNegativityPreserved(kind: TransactionType, b: Balance, amount: string, parse: Parser)
    requires NonNegative(b)
    requires ParseAmount(parse, amount).Some? ==> 0 <= ParseAmount(parse, amount).value
    ensures NonNegative(Operate(kind, b, amount, parse).after)
  {
  }

  /** A deposit does not check the sign of its amount. */
  lemma NegativeDepositAccepted(client: ClientId, amount: string, parse: Parser)
    requires parse(amount) == Some(-1)
    ensures Deposited(NewBalance(client), amount, parse) == Step(Balance(client, -1, 0, -1, false), Pass)
    ensures !NonNegative(Deposited(NewBalance(client), amount, parse).after)
  {
  }

  /**
   * Overflow in a deposit's second addition keeps the first write: from a
   * new balance, depositing and disputing the largest amount and then
   * depositing one unit fails with ValueOverflow, yet available funds have
   * grown and total funds have not.
   */
  lemma OverflowLeavesPartialWrite(client: ClientId, largest: string, one: string, parse: Parser)
    requires parse(largest) == Some(MAX_AMOUNT) && parse(one) == Some(1)
    ensures var b1 := Deposited(NewBalance(client), largest, parse);
            var b2 := Disputed(b1.after, largest, parse);
            var b3 := Deposited(b2.after, one, parse);
            && b1.outcome == Pass && b2.outcome == Pass
            && Consistent(b2.after)
            && b3 == Step(Balance(client, 1, MAX_AMOUNT, MAX_AMOUNT, false), Fail(ValueOverflow))
            && !Consistent(b3.after)
  {
  }

  /** Resolving the amount just disputed gives back the balance before the dispute. */
  lemma DisputeThenResolveRestores(b: Balance, amount: string, parse: Parser)
    requires 0 <= b.held && Bounded(b)
    requires Disputed(b, amount, parse).outcome.Pass?
    ensures Resolved(Disputed(b, amount, parse).after, amount, parse) == Step(b, Pass)
  {
  }

  /** After a successful chargeback every operation is refused. */
  lemma ChargebackLocksForever(b: Balance, amount: string, kind: TransactionType, next: string, parse: Parser)
    requires ChargedBack(b, amount, parse).outcome.Pass?
    ensures var after := ChargedBack(b, amount, parse).after;
            after.locked && after.available == b.available
            && Operate(kind, after, next, parse) == Step(after, Fail(AccountLocked(b.client)))
  {
  }

  // Worked scenarios; amounts count ten-thousandths of a currency unit.

  lemma DepositScenario(parse: Parser)
    requires parse("100.1234") == Some(1001234) && parse("0.1") == Some(1000)
    requires parse("1.0") == Some(10000) && parse("1.1") == Some(11000)
    ensures var s1 := Deposited(NewBalance(1), "100.1234", parse).after;
            var s2 := Deposited(s1, "0.1", parse).after;
            var s3 := Deposited(s2, "1.0", parse).after;
            var s4 := Deposited(s3, "1.1", parse).after;
            s4 == Balance(1, 1023234, 0, 1023234, false)
  {
  }

  lemma WithdrawScenario(parse: Parser)
    requires parse("200.5000") == Some(2005000) && parse("50.5000") == Some(505000)
    ensures var s1 := Deposited(NewBalance(1), "200.5000", parse).after;
            Withdrawn(s1, "50.5000", parse) == Step(Balance(1, 1500000, 0, 1500000, false), Pass)
  {
  }

  lemma InsufficientWithdrawScenario(parse: Parser)
    requires parse("50") == Some(500000) && parse("100") == Some(1000000)
    ensures var s1 := Deposited(NewBalance(1), "50", parse).after;
            Withdrawn(s1, "100", parse) == Step(s1, Fail(InsufficientFunds(1000000, -500000)))
  {
  }

  lemma DisputeAndResolveScenario(parse: Parser)
    requires parse("200") == Some(2000000) && parse("80") == Some(800000) && parse("90") == Some(900000)
    ensures var s1 := Deposited(NewBalance(1), "200", parse).after;
            var s2 := Disputed(s1, "80", parse);
            && s2 == Step(Balance(1, 1200000, 800000, 2000000, false), Pass)
            && Resolved(s2.after, "90", parse) == Step(s2.after, Fail(InsufficientFunds(900000, 800000)))
            && Resolved(s2.after, "80", parse) == Step(s1, Pass)
  {
  }

  lemma ChargebackScenario(parse: Parser)
    requires parse("120") == Some(1200000) && parse("50") == Some(500000) && parse("51") == Some(510000)
    ensures var s1 := Deposited(NewBalance(1), "120", parse).after;
            var s2 := Disputed(s1, "50", parse).after;
            && ChargedBack(s2, "51", parse).outcome.Fail?
            && ChargedBack(s2, "50", parse) == Step(Balance(1, 700000, 0, 700000, true), Pass)
  {
  }
}
