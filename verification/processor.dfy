/**
 * The accountant: applies one transaction at a time to an insert-only
 * history of transactions and to the client balances, and records the
 * transactions whose balance operation failed.
 *
 * A deposit or withdrawal whose id is already in the history is a fatal
 * error.  Any other transaction is stored under its id if that id is new,
 * its client's balance is created if absent, and the balance operation is
 * run; a failing operation only appends the id to the rejected list.  The
 * dispute family acts with the amount of the history entry under its own
 * id; since a new id is stored before that lookup, the lookup never misses.
 */
module Processor {
  import opened Primitives
  import opened Errors
  import opened Models

  /** The accountant's state as values. */
  datatype Ledger = Ledger(
    clients: map<ClientId, Balance>,
    history: map<TxId, Transaction>,
    historical: seq<TxId>,
    rejected: seq<TxId>)

  const EmptyLedger := Ledger(map[], map[], [], [])

  predicate IsFunding(kind: TransactionType) {
    kind == Deposit || kind == Withdrawal
  }

  /** The history once a transaction's id is stored; a known id keeps its entry. */
  function Recorded(history: map<TxId, Transaction>, tx: Transaction): (h: map<TxId, Transaction>)
    ensures tx.tx in h && h.Keys == history.Keys + {tx.tx}
    ensures forall id :: id in history ==> h[id] == history[id]
    ensures tx.tx !in history ==> h[tx.tx] == tx
  {
    if tx.tx in history then history else history[tx.tx := tx]
  }

  /** The balance of a client, or a new one if the client has not been seen. */
  function Current(clients: map<ClientId, Balance>, client: ClientId): (b: Balance) {
    if client in clients then clients[client] else NewBalance(client)
  }

  /**
   * Runs the balance operation a transaction selects.  A deposit or
   * withdrawal uses the transaction's own amount; the dispute family uses
   * the amount of the history entry under the transaction's id.
   */
  function Updated(history: map<TxId, Transaction>, b: Balance, tx: Transaction, parse: Parser): (r: Step)
    ensures IsFunding(tx.kind) ==> r == Operate(tx.kind, b, tx.amount, parse)
    ensures !IsFunding(tx.kind) && tx.tx in history ==>
              r == Operate(tx.kind, b, history[tx.tx].amount, parse)
    ensures !IsFunding(tx.kind) && tx.tx !in history ==> r == Step(b, Fail(TxNotFound(tx.tx)))
  {
    match tx.kind
    case Deposit => Deposited(b, tx.amount, parse)
    case Withdrawal => Withdrawn(b, tx.amount, parse)
    case Dispute =>
      if tx.tx in history then Disputed(b, history[tx.tx].amount, parse)
      else Step(b, Fail(TxNotFound(tx.tx)))
    case Resolve =>
      if tx.tx in history then Resolved(b, history[tx.tx].amount, parse)
      else Step(b, Fail(TxNotFound(tx.tx)))
    case Chargeback =>
      if tx.tx in history then ChargedBack(b, history[tx.tx].amount, parse)
      else Step(b, Fail(TxNotFound(tx.tx)))
  }

  /** The balance operation a non-duplicate transaction runs on its client. */
  function ClientStep(l: Ledger, tx: Transaction, parse: Parser): (r: Step) {
    Updated(Recorded(l.history, tx), Current(l.clients, tx.client), tx, parse)
  }

  /** One application of bookkeeping to a transaction. */
  function Bookkeeping(l: Ledger, tx: Transaction, parse: Parser): (r: Result<Ledger>)
    // a repeated deposit or withdrawal id is the one fatal error, and changes nothing
    ensures r.Err? <==> tx.tx in l.history && IsFunding(tx.kind)
    ensures r.Err? ==> r.error == TxDuplicated(tx.tx)
    // the history only grows, and keeps the first transaction stored under an id
    ensures r.Ok? ==> r.value.history.Keys == l.history.Keys + {tx.tx}
    ensures r.Ok? ==> forall id :: id in l.history ==> r.value.history[id] == l.history[id]
    ensures r.Ok? && tx.tx !in l.history ==> r.value.history[tx.tx] == tx
    // the transaction's client is present afterwards, and no other client changes
    ensures r.Ok? ==> r.value.clients.Keys == l.clients.Keys + {tx.client}
    ensures r.Ok? ==> forall c :: c in l.clients && c != tx.client ==> r.value.clients[c] == l.clients[c]
    // a failed operation appends the id to the rejected list, a successful one leaves it
    ensures r.Ok? ==> r.value.rejected == l.rejected + [tx.tx] || r.value.rejected == l.rejected
    ensures r.Ok? ==> (r.value.rejected == l.rejected + [tx.tx] <==> ClientStep(l, tx, parse).outcome.Fail?)
    ensures r.Ok? ==> r.value.clients[tx.client] == ClientStep(l, tx, parse).after
  {
    if tx.tx in l.history && IsFunding(tx.kind) then Err(TxDuplicated(tx.tx))
    else
      var historical := if tx.tx in l.history then l.historical else l.historical + [tx.tx];
      var step := ClientStep(l, tx, parse);
      Ok(Ledger(
        l.clients[tx.client := step.after],
        Recorded(l.history, tx),
        historical + [tx.tx],
        if step.outcome.Fail? then l.rejected + [tx.tx] else l.rejected))
  }

  /**
   * The accountant.  Each balance is an object of its own, owned by the
   * map under its client's id.
   */
  class Accountant {
    var clients: map<ClientId, ClientBalance>
    var transactions: map<TxId, Transaction>
    var historical: seq<TxId>
    var rejected: seq<TxId>
    /** The decimal parser every balance operation uses. */
    const parse: Parser

    /** Each balance sits under its own client's id, and no two ids share one. */
    ghost predicate Valid()
      reads this, clients.Values
    {
      && (forall c :: c in clients ==> clients[c].client == c)
      && (forall c, d :: c in clients && d in clients && c != d ==> clients[c] != clients[d])
    }

    ghost function Balances(): (m: map<ClientId, Balance>)
      reads this, clients.Values
    {
      map c | c in clients :: clients[c].Snapshot()
    }

    ghost function State(): (l: Ledger)
      reads this, clients.Values
    {
      Ledger(Balances(), transactions, historical, rejected)
    }

    constructor (parse: Parser)
      ensures Valid() && State() == EmptyLedger && this.parse == parse
    {
      clients, transactions, historical, rejected := map[], map[], [], [];
      this.parse := parse;
    }

    /** Dispatches a transaction to the operation of the balance it names. */
    static method UpdateClientBalance(transactions: map<TxId, Transaction>, client: ClientBalance,
                                      tx: Transaction, parse: Parser) returns (r: Outcome)
      modifies client
      ensures client.Snapshot() == Updated(transactions, old(client.Snapshot()), tx, parse).after
      ensures r == Updated(transactions, old(client.Snapshot()), tx, parse).outcome
    {
      match tx.kind
      case Deposit => r := client.Deposit(tx.amount, parse);
      case Withdrawal => r := client.Withdraw(tx.amount, parse);
      case Dispute =>
        if tx.tx !in transactions { return Fail(TxNotFound(tx.tx)); }
        r := client.Dispute(transactions[tx.tx].amount, parse);
      case Resolve =>
        if tx.tx !in transactions { return Fail(TxNotFound(tx.tx)); }
        r := client.Resolve(transactions[tx.tx].amount, parse);
      case Chargeback =>
        if tx.tx !in transactions { return Fail(TxNotFound(tx.tx)); }
        r := client.Chargeback(transactions[tx.tx].amount, parse);
    }

    method ApplyBookkeeping(tx: Transaction) returns (r: Outcome)
      requires Valid()
      modifies this, clients.Values
      ensures Valid()
      ensures fresh(clients.Values - old(clients.Values))
      ensures var next := Bookkeeping(old(State()), tx, parse);
              && (next.Ok? ==> r == Pass && State() == next.value)
              && (next.Err? ==> r == Fail(next.error) && State() == old(State()))
    {
      ghost var l := old(State());
      var id := tx.tx;
      if id !in transactions {
        transactions := transactions[id := tx];
        historical := historical + [id];
      } else if tx.kind == Deposit || tx.kind == Withdrawal {
        return Fail(TxDuplicated(id));
      }
      historical := historical + [id];
      assert transactions == Recorded(l.history, tx);
      assert Balances() == l.clients;
      ghost var step := ClientStep(l, tx, parse);
      ApplyToClient(tx);
      assert Balances() == l.clients[tx.client := step.after];
      assert rejected == if step.outcome.Fail? then l.rejected + [id] else l.rejected;
      r := Pass;
    }

    /**
     * Runs the transaction on its client's balance, creating the balance
     * first if the client is new, and records a failure as a rejection.
     */
    method ApplyToClient(tx: Transaction)
      requires Valid()
      modifies this`clients, this`rejected, clients.Values
      ensures Valid()
      ensures fresh(clients.Values - old(clients.Values))
      ensures var step := Updated(transactions, Current(old(Balances()), tx.client), tx, parse);
              && Balances() == old(Balances())[tx.client := step.after]
              && rejected == if step.outcome.Fail? then old(rejected) + [tx.tx] else old(rejected)
    {
      ghost var before := Balances();
      var clientId := tx.client;
      var client: ClientBalance;
      if clientId in clients {
        client := clients[clientId];
      } else {
        client := new ClientBalance(clientId);
      }
      assert client.Snapshot() == Current(before, clientId);
      ghost var step := Updated(transactions, Current(before, clientId), tx, parse);
      var outcome := UpdateClientBalance(transactions, client, tx, parse);
      if outcome.Fail? {
        rejected := rejected + [tx.tx];
      }
      clients := clients[clientId := client];
      ghost var expected := before[clientId := step.after];
      assert Balances().Keys == expected.Keys;
      forall c | c in clients
        ensures Balances()[c] == expected[c]
      {
        if c != clientId {
          assert clients[c] == old(clients[c]) && clients[c] != client;
        }
      }
      assert Balances() == expected;
    }

    /** Writes one record per client to the sink, in no particular order. */
    method Export() returns (records: seq<Balance>)
      requires Valid()
      ensures |records| == |clients|
      ensures forall i :: 0 <= i < |records| ==>
                records[i].client in Balances() && Balances()[records[i].client] == records[i]
      ensures forall i, j :: 0 <= i < j < |records| ==> records[i].client != records[j].client
      ensures forall c :: c in Balances() ==> exists i :: 0 <= i < |records| && records[i] == Balances()[c]
    {
      records := [];
      var remaining := clients.Keys;
      while remaining != {}
        invariant remaining <= clients.Keys
        invariant |records| + |remaining| == |clients|
        invariant forall i :: 0 <= i < |records| ==>
                    records[i].client in clients.Keys - remaining
                    && Balances()[records[i].client] == records[i]
        invariant forall i, j :: 0 <= i < j < |records| ==> records[i].client != records[j].client
        invariant forall c :: c in clients.Keys - remaining ==>
                    exists i :: 0 <= i < |records| && records[i] == Balances()[c]
        decreases |remaining|
      {
        var c :| c in remaining;
        ghost var written := records;
        records := records + [clients[c].Snapshot()];
        assert records[|written|] == Balances()[c];
        assert forall i :: 0 <= i < |written| ==> records[i] == written[i];
        remaining := remaining - {c};
      }
    }
  }
}
