/**
 * The engine's run: every transaction of the input is applied in order,
 * the first fatal error ends the run, and only a run that reaches the end
 * of its input exports the balances.
 */
module Engine {
  import opened Primitives
  import opened Errors
  import opened Models
  import opened Processor
  import opened ProcessorProperties

  /** Applies the transactions in order, stopping at the first fatal error. */
  function Replay(l: Ledger, txs: seq<Transaction>, parse: Parser): (r: Result<Ledger>)
    decreases |txs|
  {
    if txs == [] then Ok(l)
    else match Bookkeeping(l, txs[0], parse)
      case Err(e) => Err(e)
      case Ok(next) => Replay(next, txs[1..], parse)
  }

  /**
   * Applies every transaction to the accountant; on a fatal error returns
   * it and writes nothing, otherwise exports every client's balance.
   */
  method Run(accountant: Processor.Accountant, txs: seq<Transaction>) returns (r: Outcome, records: seq<Balance>)
    requires accountant.Valid()
    modifies accountant, accountant.clients.Values
    ensures accountant.Valid()
    ensures var run := Replay(old(accountant.State()), txs, accountant.parse);
            && (run.Err? ==> r == Fail(run.error) && records == [])
            && (run.Ok? ==> r == Pass && accountant.State() == run.value)
    ensures r.Pass? ==> |records| == |accountant.clients|
    ensures r.Pass? ==> forall c :: c in accountant.Balances() ==>
              exists i :: 0 <= i < |records| && records[i] == accountant.Balances()[c]
  {
    ghost var start := accountant.State();
    var i := 0;
    while i < |txs|
      invariant 0 <= i <= |txs|
      invariant accountant.Valid()
      invariant fresh(accountant.clients.Values - old(accountant.clients.Values))
      invariant Replay(start, txs, accountant.parse) == Replay(accountant.State(), txs[i..], accountant.parse)
    {
      ghost var before := accountant.State();
      assert txs[i..][0] == txs[i] && txs[i..][1..] == txs[i + 1..];
      var outcome := accountant.ApplyBookkeeping(txs[i]);
      if outcome.Fail? {
        return outcome, [];
      }
      i := i + 1;
    }
    assert txs[i..] == [];
    r := Pass;
    records := accountant.Export();
  }

  /** The history only grows over a run, and keeps every stored transaction. */
  lemma {:induction false} ReplayHistoryInsertOnly(l: Ledger, txs: seq<Transaction>, parse: Parser)
    decreases |txs|
    requires Replay(l, txs, parse).Ok?
    ensures forall id :: id in l.history ==>
              id in Replay(l, txs, parse).value.history
              && Replay(l, txs, parse).value.history[id] == l.history[id]
  {
    if txs != [] {
      var next := Bookkeeping(l, txs[0], parse).value;
      ReplayHistoryInsertOnly(next, txs[1..], parse);
    }
  }

  /** Clients are never removed over a run. */
  lemma {:induction false} ReplayClientsKept(l: Ledger, txs: seq<Transaction>, parse: Parser)
    decreases |txs|
    requires Replay(l, txs, parse).Ok?
    ensures l.clients.Keys <= Replay(l, txs, parse).value.clients.Keys
  {
    if txs != [] {
      var next := Bookkeeping(l, txs[0], parse).value;
      ReplayClientsKept(next, txs[1..], parse);
    }
  }

  /** A locked client's balance never changes again over a run. */
  lemma {:induction false} ReplayLockedFrozen(l: Ledger, txs: seq<Transaction>, parse: Parser)
    decreases |txs|
    requires Replay(l, txs, parse).Ok?
    ensures forall c :: c in l.clients && l.clients[c].locked ==>
              c in Replay(l, txs, parse).value.clients
              && Replay(l, txs, parse).value.clients[c] == l.clients[c]
  {
    if txs != [] {
      var next := Bookkeeping(l, txs[0], parse).value;
      LockedClientsFrozen(l, txs[0], parse);
      ReplayLockedFrozen(next, txs[1..], parse);
    }
  }

  /** Rejections are only ever appended, one id per rejected transaction. */
  lemma {:induction false} ReplayRejectedExtends(l: Ledger, txs: seq<Transaction>, parse: Parser)
    decreases |txs|
    requires Replay(l, txs, parse).Ok?
    ensures var rejected := Replay(l, txs, parse).value.rejected;
            |l.rejected| <= |rejected| <= |l.rejected| + |txs|
            && rejected[..|l.rejected|] == l.rejected
            && forall k :: |l.rejected| <= k < |rejected| ==> exists j :: 0 <= j < |txs| && txs[j].tx == rejected[k]
  {
    if txs != [] {
      var next := Bookkeeping(l, txs[0], parse).value;
      ReplayRejectedExtends(next, txs[1..], parse);
      var rejected := Replay(l, txs, parse).value.rejected;
      assert rejected == Replay(next, txs[1..], parse).value.rejected;
      assert next.rejected[..|l.rejected|] == l.rejected;
      forall k | |l.rejected| <= k < |rejected|
        ensures exists j :: 0 <= j < |txs| && txs[j].tx == rejected[k]
      {
        if k < |next.rejected| {
          assert rejected[k] == next.rejected[k] == txs[0].tx;
        } else {
          var j :| 0 <= j < |txs[1..]| && txs[1..][j].tx == rejected[k];
          assert txs[j + 1].tx == rejected[k];
        }
      }
    }
  }

  /** Every balance stays within the mantissa range over a run. */
  lemma {:induction false} ReplayBounded(l: Ledger, txs: seq<Transaction>, parse: Parser)
    decreases |txs|
    requires AllBounded(l.clients)
    requires Replay(l, txs, parse).Ok?
    ensures AllBounded(Replay(l, txs, parse).value.clients)
  {
    if txs != [] {
      LedgerBoundsPreserved(l, txs[0], parse);
      ReplayBounded(Bookkeeping(l, txs[0], parse).value, txs[1..], parse);
    }
  }

  /** The only fatal error of a run is a repeated deposit or withdrawal id. */
  lemma {:induction false} ReplayFatalIsDuplicate(l: Ledger, txs: seq<Transaction>, parse: Parser)
    decreases |txs|
    requires Replay(l, txs, parse).Err?
    ensures exists j :: 0 <= j < |txs| && IsFunding(txs[j].kind)
              && Replay(l, txs, parse).error == TxDuplicated(txs[j].tx)
  {
    match Bookkeeping(l, txs[0], parse)
    case Err(e) =>
      assert IsFunding(txs[0].kind) && e == TxDuplicated(txs[0].tx);
    case Ok(next) =>
      ReplayFatalIsDuplicate(next, txs[1..], parse);
      var j :| 0 <= j < |txs[1..]| && IsFunding(txs[1..][j].kind)
               && Replay(next, txs[1..], parse).error == TxDuplicated(txs[1..][j].tx);
      assert txs[j + 1] == txs[1..][j];
  }

  /** Running two inputs one after the other is running them joined. */
  lemma {:induction false} ReplayAppend(l: Ledger, first: seq<Transaction>, second: seq<Transaction>, parse: Parser)
    decreases |first|
    ensures Replay(l, first + second, parse) ==
              match Replay(l, first, parse)
              case Err(e) => Err(e)
              case Ok(mid) => Replay(mid, second, parse)
  {
    if first != [] {
      assert (first + second)[0] == first[0] && (first + second)[1..] == first[1..] + second;
      if Bookkeeping(l, first[0], parse).Ok? {
        ReplayAppend(Bookkeeping(l, first[0], parse).value, first[1..], second, parse);
      }
    } else {
      assert first + second == second;
    }
  }

  /** Two deposits to client 1, the first one disputed. */
  function ScenarioFirstHalf(): seq<Transaction> {
    [Transaction(1, 1, "400.0", Deposit), Transaction(1, 1, "", Dispute), Transaction(2, 1, "200.0", Deposit)]
  }

  /** The second deposit disputed and charged back, then a third deposit. */
  function ScenarioSecondHalf(): seq<Transaction> {
    [Transaction(2, 1, "", Dispute), Transaction(2, 1, "", Chargeback), Transaction(3, 1, "500.0", Deposit)]
  }

  /** The ledger after two deposits to client 1, the first disputed. */
  predicate ScenarioMidpoint(m: Ledger) {
    && m.clients == map[1 := Balance(1, 2000000, 4000000, 6000000, false)]
    && 2 in m.history && m.history[2].amount == "200.0"
    && 3 !in m.history
    && m.rejected == []
  }

  /** The first half of the scenario reaches the midpoint. */
  lemma DepositAfterChargebackFirstHalf(parse: Parser)
    requires parse("400.0") == Some(4000000) && parse("200.0") == Some(2000000)
    ensures var run := Replay(EmptyLedger, ScenarioFirstHalf(), parse);
            run.Ok? && ScenarioMidpoint(run.value)
  {
  }

  /** From the midpoint, the second half locks client 1 and rejects the last deposit. */
  lemma DepositAfterChargebackSecondHalf(m: Ledger, parse: Parser)
    requires ScenarioMidpoint(m)
    requires parse("200.0") == Some(2000000) && parse("500.0") == Some(5000000)
    ensures var run := Replay(m, ScenarioSecondHalf(), parse);
            && run.Ok?
            && run.value.clients == map[1 := Balance(1, 0, 4000000, 4000000, true)]
            && run.value.rejected == [3]
  {
  }

  /**
   * Two deposits, each disputed, the second charged back: the client ends
   * locked with the first deposit held, and a later deposit is rejected.
   * Amounts count ten-thousandths of a currency unit.
   */
  lemma DepositAfterChargebackScenario(parse: Parser)
    requires parse("400.0") == Some(4000000) && parse("200.0") == Some(2000000)
    requires parse("500.0") == Some(5000000)
    ensures var run := Replay(EmptyLedger, ScenarioFirstHalf() + ScenarioSecondHalf(), parse);
            && run.Ok?
            && run.value.clients == map[1 := Balance(1, 0, 4000000, 4000000, true)]
            && run.value.rejected == [3]
  {
    DepositAfterChargebackFirstHalf(parse);
    DepositAfterChargebackSecondHalf(Replay(EmptyLedger, ScenarioFirstHalf(), parse).value, parse);
    ReplayAppend(EmptyLedger, ScenarioFirstHalf(), ScenarioSecondHalf(), parse);
  }
}
