/** What every run of the server keeps about authentication transactions: each is queued until processed,
    can be finished through one address at a time, and is freed by whichever side acts second. */
module ServerTransactions {
  import opened SharedPtr
  import opened ClientList
  import opened ServerWorld

  type Transactions = map<Tid, Transaction>

  ghost predicate Unprocessed(transactions: Transactions, t: Tid) {
    t in transactions && transactions[t].state != Done && transactions[t].consumer.Some?
  }

  ghost predicate Finishable(transactions: Transactions, t: Tid) {
    t in transactions && transactions[t].state != Cancelled
  }

  ghost predicate Queued(q: seq<AuthMessage>, t: Tid) {
    exists i :: 0 <= i < |q| && q[i].transaction == t
  }

  /** The transactions in the auth queue are exactly those not yet processed, once each. */
  ghost predicate QueueInv(q: seq<AuthMessage>, transactions: Transactions) {
    && (forall i :: 0 <= i < |q| ==> Unprocessed(transactions, q[i].transaction))
    && (forall i, j :: 0 <= i < j < |q| ==> q[i].transaction != q[j].transaction)
    && (forall t :: t in transactions && transactions[t].state == Done ==> transactions[t].consumer.None?)
    && (forall t :: t in transactions && transactions[t].state != Done ==> Queued(q, t))
  }

  /** A finish message is the only one for a transaction that exists and has not been finished. */
  ghost predicate FinishInv(q: seq<ServerMessage>, transactions: Transactions) {
    && (forall i :: 0 <= i < |q| && q[i].FinishAuth? && q[i].transaction.Some? ==>
          Finishable(transactions, q[i].transaction.value))
    && (forall i, j :: 0 <= i < j < |q| && q[i].FinishAuth? && q[j].FinishAuth? && q[i].transaction.Some? ==>
          q[i].transaction != q[j].transaction)
  }

  /** A client's transaction exists, is not finished nor about to be, is nobody else's, and until it is
      processed carries a reference to that client. */
  ghost predicate OwnerInv(slots: Slots, clients: map<Ptr, Client>, q: seq<ServerMessage>, transactions: Transactions) {
    && (forall p :: p in clients && clients[p].transaction.Some? ==>
          Owns(slots, q, transactions, p, clients[p].transaction.value))
    && (forall p, r :: p in clients && r in clients && p != r && clients[p].transaction.Some? ==>
          clients[p].transaction != clients[r].transaction)
  }

  ghost predicate Owns(slots: Slots, q: seq<ServerMessage>, transactions: Transactions, p: Ptr, t: Tid) {
    && Finishable(transactions, t)
    && FinishAuth(Some(t)) !in q
    && (transactions[t].consumer.Some? ==> Refers(slots, transactions[t].consumer.value, p))
  }

  /** The reference n is to client p. */
  predicate Refers(slots: Slots, n: nat, p: Ptr) { Get(slots, Message(n)) == Some(p) }

  ghost predicate TransactionsInv(w: World) {
    && QueueInv(w.authQ, w.transactions)
    && FinishInv(w.serverQ, w.transactions)
    && OwnerInv(w.store.slots, w.clients, w.serverQ, w.transactions)
  }

  // ---------------------------------------------------------------- what changes and what does not

  /** The references that owned transactions carry are still there. */
  ghost predicate ConsumersKept(slots: Slots, after: Slots, transactions: Transactions) {
    forall t :: t in transactions && transactions[t].consumer.Some? ==>
      Message(transactions[t].consumer.value) in slots ==>
        Get(after, Message(transactions[t].consumer.value)) == Get(slots, Message(transactions[t].consumer.value))
  }

  /** Some clients may be gone, and states may have changed; transactions are as before. */
  ghost predicate SameTransactions(clients: map<Ptr, Client>, after: map<Ptr, Client>) {
    forall p :: p in after ==> p in clients && after[p].transaction == clients[p].transaction
  }

  lemma OwnersKept(slots: Slots, after: Slots, clients: map<Ptr, Client>, left: map<Ptr, Client>,
        q: seq<ServerMessage>, transactions: Transactions)
    requires OwnerInv(slots, clients, q, transactions)
    requires ConsumersKept(slots, after, transactions) && SameTransactions(clients, left)
    ensures OwnerInv(after, left, q, transactions)
  {
  }

  /** Messages other than finishes do not matter to who owns what. */
  lemma ServerQueueGrows(slots: Slots, clients: map<Ptr, Client>, q: seq<ServerMessage>, transactions: Transactions, m: ServerMessage)
    requires FinishInv(q, transactions) && OwnerInv(slots, clients, q, transactions)
    requires !m.FinishAuth? || m.transaction.None?
    ensures FinishInv(q + [m], transactions) && OwnerInv(slots, clients, q + [m], transactions)
  {
  }

  /** Handing a client's transaction to a finish message. */
  lemma FinishQueued(slots: Slots, clients: map<Ptr, Client>, q: seq<ServerMessage>, transactions: Transactions, p: Ptr, state: ClientState)
    requires FinishInv(q, transactions) && OwnerInv(slots, clients, q, transactions) && p in clients
    ensures FinishInv(q + [FinishAuth(clients[p].transaction)], transactions)
    ensures OwnerInv(slots, clients[p := Client(state, None)], q + [FinishAuth(clients[p].transaction)], transactions)
  {
    var after, more := clients[p := Client(state, None)], q + [FinishAuth(clients[p].transaction)];
    if clients[p].transaction.Some? {
      assert Owns(slots, q, transactions, p, clients[p].transaction.value);
    }
    forall r | r in after && after[r].transaction.Some?
      ensures Owns(slots, more, transactions, r, after[r].transaction.value)
    {
      assert Owns(slots, q, transactions, r, clients[r].transaction.value);
    }
  }

  /** A submission: a new transaction, queued, with its address stored in the client it refers to. */
  lemma TransactionSubmitted(slots: Slots, clients: map<Ptr, Client>, sq: seq<ServerMessage>, aq: seq<AuthMessage>,
        transactions: Transactions, p: Ptr, t: Tid, c: nat, n: nat)
    requires QueueInv(aq, transactions) && FinishInv(sq, transactions) && OwnerInv(slots, clients, sq, transactions)
    requires p in clients && t !in transactions && Refers(slots, n, p)
    ensures var more := transactions[t := Transaction(Processing, Some(n))];
      && QueueInv(aq + [ProcessCredentials(c, t)], more)
      && FinishInv(sq, more)
      && OwnerInv(slots, clients[p := clients[p].(transaction := Some(t))], sq, more)
  {
    var more := transactions[t := Transaction(Processing, Some(n))];
    var aq' := aq + [ProcessCredentials(c, t)];
    var owners := clients[p := clients[p].(transaction := Some(t))];
    assert aq'[|aq|].transaction == t;
    forall r | r in more && more[r].state != Done
      ensures Queued(aq', r)
    {
      if r != t {
        var i :| 0 <= i < |aq| && aq[i].transaction == r;
        assert aq'[i].transaction == r;
      }
    }
    forall r | r in owners && owners[r].transaction.Some?
      ensures Owns(slots, sq, more, r, owners[r].transaction.value)
    {
      if r != p {
        assert Owns(slots, sq, transactions, r, clients[r].transaction.value);
      }
    }
  }

  /** A finish that finds the transaction unprocessed cancels it; one that finds it done frees it. */
  lemma TransactionFinished(slots: Slots, clients: map<Ptr, Client>, sq: seq<ServerMessage>, aq: seq<AuthMessage>,
        transactions: Transactions, t: Tid)
    requires QueueInv(aq, transactions) && sq != [] && sq[0] == FinishAuth(Some(t))
    requires FinishInv(sq, transactions) && OwnerInv(slots, clients, sq, transactions)
    ensures t in transactions && transactions[t].state != Cancelled
    ensures var after := if transactions[t].state == Done then transactions - {t}
                         else transactions[t := transactions[t].(state := Cancelled)];
      QueueInv(aq, after) && FinishInv(sq[1..], after) && OwnerInv(slots, clients, sq[1..], after)
  {
    assert Finishable(transactions, t);
    var after := if transactions[t].state == Done then transactions - {t}
                 else transactions[t := transactions[t].(state := Cancelled)];
    forall r | r in after && after[r].state != Done
      ensures Queued(aq, r)
    {
      assert Queued(aq, r);
    }
    forall p | p in clients && clients[p].transaction.Some?
      ensures Owns(slots, sq[1..], after, p, clients[p].transaction.value)
    {
      assert Owns(slots, sq, transactions, p, clients[p].transaction.value);
      assert sq[0] in sq;
    }
  }

  /** Processing takes the transaction off the queue, and frees it if it had been finished already. */
  lemma TransactionProcessed(slots: Slots, clients: map<Ptr, Client>, sq: seq<ServerMessage>, aq: seq<AuthMessage>,
        transactions: Transactions)
    requires QueueInv(aq, transactions) && aq != []
    requires FinishInv(sq, transactions) && OwnerInv(slots, clients, sq, transactions)
    ensures Unprocessed(transactions, aq[0].transaction)
    ensures var t := aq[0].transaction;
      var after := if transactions[t].state == Cancelled then transactions - {t}
                   else transactions[t := Transaction(Done, None)];
      QueueInv(aq[1..], after) && FinishInv(sq, after) && OwnerInv(slots, clients, sq, after)
  {
    var t := aq[0].transaction;
    var after := if transactions[t].state == Cancelled then transactions - {t}
                 else transactions[t := Transaction(Done, None)];
    forall r | r in after && after[r].state != Done
      ensures Queued(aq[1..], r)
    {
      var i :| 0 <= i < |aq| && aq[i].transaction == r;
      assert aq[1..][i - 1].transaction == r;
    }
    forall p | p in clients && clients[p].transaction.Some?
      ensures Owns(slots, sq, after, p, clients[p].transaction.value)
    {
      assert Owns(slots, sq, transactions, p, clients[p].transaction.value);
    }
  }
}
