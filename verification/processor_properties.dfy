/**
 * Properties of one bookkeeping step: the history lookup of the dispute
 * family never misses, a rejection leaves the client's balance alone,
 * locked clients and the balance equation survive a step.
 */
module ProcessorProperties {
  import opened Primitives
  import opened Errors
  import opened Models
  import opened Processor
  import opened ModelProperties

  predicate AllConsistent(clients: map<ClientId, Balance>) {
    forall c :: c in clients ==> Consistent(clients[c])
  }

  predicate AllBounded(clients: map<ClientId, Balance>) {
    forall c :: c in clients ==> Bounded(clients[c])
  }

  /**
   * TxNotFound is never raised: the transaction's id is stored before the
   * dispute family looks it up.
   */
  lemma TxNotFoundUnreachable(l: Ledger, tx: Transaction, parse: Parser)
    ensures var step := ClientStep(l, tx, parse);
            !(step.outcome.Fail? && step.outcome.error.TxNotFound?)
  {
    var h := Recorded(l.history, tx);
    var b := Current(l.clients, tx.client);
    assert tx.tx in h;
    match tx.kind
    case Deposit =>
    case Withdrawal =>
    case Dispute => assert ClientStep(l, tx, parse) == Disputed(b, h[tx.tx].amount, parse);
    case Resolve => assert ClientStep(l, tx, parse) == Resolved(b, h[tx.tx].amount, parse);
    case Chargeback => assert ClientStep(l, tx, parse) == ChargedBack(b, h[tx.tx].amount, parse);
  }

  /**
   * A dispute, resolve or chargeback under an id already in the history acts
   * with the stored transaction's amount, whichever client that
   * transaction belonged to.
   */
  lemma DisputeUsesStoredAmount(l: Ledger, tx: Transaction, parse: Parser)
    requires !IsFunding(tx.kind) && tx.tx in l.history
    ensures ClientStep(l, tx, parse) ==
              Operate(tx.kind, Current(l.clients, tx.client), l.history[tx.tx].amount, parse)
  {
  }

  /**
   * A dispute, resolve or chargeback under an unseen id is stored first and
   * then acts with its own amount; with the usual empty amount it is
   * rejected as a malformed amount, not as a missing transaction.
   */
  lemma UnseenDisputeUsesOwnAmount(l: Ledger, tx: Transaction, parse: Parser)
    requires !IsFunding(tx.kind) && tx.tx !in l.history
    ensures ClientStep(l, tx, parse) == Operate(tx.kind, Current(l.clients, tx.client), tx.amount, parse)
    ensures ParseAmount(parse, tx.amount).None? && !Current(l.clients, tx.client).locked ==>
              ClientStep(l, tx, parse) == Step(Current(l.clients, tx.client), Fail(MalformedAmount))
    ensures Bookkeeping(l, tx, parse).Ok? && Bookkeeping(l, tx, parse).value.history[tx.tx] == tx
  {
  }

  /**
   * A rejected transaction leaves its client's balance as it was, unless
   * the rejection is an overflow after a first write.
   */
  lemma RejectionLeavesBalance(l: Ledger, tx: Transaction, parse: Parser)
    requires Bookkeeping(l, tx, parse).Ok?
    requires Bookkeeping(l, tx, parse).value.rejected == l.rejected + [tx.tx]
    requires ClientStep(l, tx, parse).outcome != Fail(ValueOverflow)
    ensures Bookkeeping(l, tx, parse).value.clients[tx.client] == Current(l.clients, tx.client)
  {
    var step := ClientStep(l, tx, parse);
    var b := Current(l.clients, tx.client);
    var h := Recorded(l.history, tx);
    assert step.outcome.Fail?;
    if IsFunding(tx.kind) {
      assert step == Operate(tx.kind, b, tx.amount, parse);
    } else {
      assert step == Operate(tx.kind, b, h[tx.tx].amount, parse);
    }
  }

  /**
   * A client seen for the first time is created with a new balance, and
   * keeps exactly that balance when its first transaction is rejected.
   */
  lemma NewClientCreatedEvenIfRejected(l: Ledger, tx: Transaction, parse: Parser)
    requires tx.client !in l.clients && !(tx.tx in l.history && IsFunding(tx.kind))
    ensures Bookkeeping(l, tx, parse).Ok?
    ensures tx.client in Bookkeeping(l, tx, parse).value.clients
    ensures ClientStep(l, tx, parse).outcome.Fail? ==>
              Bookkeeping(l, tx, parse).value.clients[tx.client] == NewBalance(tx.client)
              && Bookkeeping(l, tx, parse).value.rejected == l.rejected + [tx.tx]
  {
    var step := ClientStep(l, tx, parse);
    if step.outcome.Fail? {
      // a new balance has nothing to overflow: every first write that
      // succeeds leaves a second one that succeeds as well
      assert step.outcome != Fail(ValueOverflow);
      RejectionLeavesBalance(l, tx, parse);
    }
  }

  /** The balances of locked clients are unchanged by any step. */
  lemma LockedClientsFrozen(l: Ledger, tx: Transaction, parse: Parser)
    requires Bookkeeping(l, tx, parse).Ok?
    ensures forall c :: c in l.clients && l.clients[c].locked ==>
              Bookkeeping(l, tx, parse).value.clients[c] == l.clients[c]
  {
    var next := Bookkeeping(l, tx, parse).value;
    if tx.client in l.clients && l.clients[tx.client].locked {
      var b := l.clients[tx.client];
      var h := Recorded(l.history, tx);
      if IsFunding(tx.kind) {
        LockedAccountIsFrozen(tx.kind, b, tx.amount, parse);
      } else {
        LockedAccountIsFrozen(tx.kind, b, h[tx.tx].amount, parse);
      }
    }
  }

  /** A step keeps every balance within the mantissa range. */
  lemma LedgerBoundsPreserved(l: Ledger, tx: Transaction, parse: Parser)
    requires AllBounded(l.clients)
    requires Bookkeeping(l, tx, parse).Ok?
    ensures AllBounded(Bookkeeping(l, tx, parse).value.clients)
  {
    var b := Current(l.clients, tx.client);
    var h := Recorded(l.history, tx);
    if IsFunding(tx.kind) {
      BoundsPreserved(tx.kind, b, tx.amount, parse);
    } else {
      BoundsPreserved(tx.kind, b, h[tx.tx].amount, parse);
    }
  }

  /**
   * A step keeps total == available + held for every client, unless its
   * operation fails with ValueOverflow after a first write.
   */
  lemma LedgerConsistencyPreserved(l: Ledger, tx: Transaction, parse: Parser)
    requires AllConsistent(l.clients)
    requires Bookkeeping(l, tx, parse).Ok?
    requires ClientStep(l, tx, parse).outcome != Fail(ValueOverflow)
    ensures AllConsistent(Bookkeeping(l, tx, parse).value.clients)
  {
    var b := Current(l.clients, tx.client);
    var h := Recorded(l.history, tx);
    if IsFunding(tx.kind) {
      ConsistencyPreserved(tx.kind, b, tx.amount, parse);
    } else {
      ConsistencyPreserved(tx.kind, b, h[tx.tx].amount, parse);
    }
  }

  /**
   * The history is not filtered by client: a dispute naming client 2 under
   * the id of client 1's deposit moves that deposit's amount within client
   * 2's balance.
   */
  lemma CrossClientDisputeHonoured(parse: Parser)
    requires parse("5.0") == Some(50000)
    ensures var l := Ledger(map[2 := Balance(2, 50000, 0, 50000, false)],
                            map[7 := Transaction(7, 1, "5.0", Deposit)], [7, 7], []);
            var next := Bookkeeping(l, Transaction(7, 2, "", Dispute), parse);
            && next.Ok?
            && next.value.clients == map[2 := Balance(2, 0, 50000, 50000, false)]
            && next.value.rejected == []
  {
    var l := Ledger(map[2 := Balance(2, 50000, 0, 50000, false)],
                    map[7 := Transaction(7, 1, "5.0", Deposit)], [7, 7], []);
    var tx := Transaction(7, 2, "", Dispute);
    DisputeUsesStoredAmount(l, tx, parse);
    assert ClientStep(l, tx, parse) == Step(Balance(2, 0, 50000, 50000, false), Pass);
  }
}
