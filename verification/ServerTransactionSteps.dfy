/** Step by step: the transaction invariant is kept, and a client that is being logged in is vouched for by
    something still in flight, so it is never destroyed in that state. */
module ServerTransactionSteps {
  import opened SharedPtr
  import opened ClientList
  import opened ServerWorld
  import opened ServerReferences
  import opened ServerTransactions
  import opened ServerSteps
  import opened ServerReferenceSteps

  // ---------------------------------------------------------------- slots that change

  /** Slots may be added, and one that is not a message slot emptied. */
  ghost predicate MessagesKept(slots: Slots, after: Slots) {
    forall k: Slot :: k.Message? && k in slots ==> Get(after, k) == Get(slots, k)
  }

  lemma MessagesKeepConsumers(slots: Slots, after: Slots, transactions: Transactions)
    requires MessagesKept(slots, after)
    ensures ConsumersKept(slots, after, transactions)
  {
  }

  /** What a handler holds is no queued transaction's reference. */
  lemma HeldNotConsumer(w: World, k: Slot, t: Tid)
    requires RefsInv(w.store.slots, Carried(w), w.next) && QueueInv(w.authQ, w.transactions) && k in w.held
    requires t in w.transactions && w.transactions[t].consumer.Some?
    ensures k != Message(w.transactions[t].consumer.value)
  {
    assert w.transactions[t].state != Done && Queued(w.authQ, t);
    var i :| 0 <= i < |w.authQ| && w.authQ[i].transaction == t;
    assert Unprocessed(w.transactions, w.authQ[i].transaction);
    ConsumerCarried(w.authQ, w.transactions, i);
    assert Carried(w)[k] >= w.held[k] + InAuthQ(w.authQ, w.transactions)[k];
  }

  lemma DroppedConsumers(w: World, k: Slot)
    requires ReferencesInv(w) && QueueInv(w.authQ, w.transactions) && k in w.held
    ensures ConsumersKept(w.store.slots, Release(w.store, k).slots, w.transactions)
  {
    assert Releases(w.store, k, Release(w.store, k));
    forall t | t in w.transactions && w.transactions[t].consumer.Some?
      ensures k != Message(w.transactions[t].consumer.value)
    {
      HeldNotConsumer(w, k, t);
    }
    ReleaseKeepsOthers(w.store, k, Release(w.store, k), w.transactions);
  }

  lemma ReleaseKeepsOthers(s: Store, k: Slot, t: Store, transactions: Transactions)
    requires Releases(s, k, t)
    requires forall x :: x in transactions && transactions[x].consumer.Some? ==> k != Message(transactions[x].consumer.value)
    ensures ConsumersKept(s.slots, t.slots, transactions)
  {
  }

  lemma DroppedKeepsTransactions(w: World, k: Slot)
    requires ReferencesInv(w) && TransactionsInv(w) && k in w.held
    ensures TransactionsInv(Dropped(w, k))
  {
    hide ReferencesInv;
    var v := Dropped(w, k);
    DroppedConsumers(w, k);
    OwnersKept(w.store.slots, v.store.slots, w.clients, v.clients, w.serverQ, w.transactions);
  }

  lemma ReleasedKeepsTransactions(w: World, k: Slot)
    requires w.store.Counted() && TransactionsInv(w) && !k.Message?
    ensures TransactionsInv(WithStore(w, Release(w.store, k)))
  {
    var t := Release(w.store, k);
    var v := WithStore(w, t);
    ReleasedKeepsMessages(w.store, k, t);
    MessagesKeepConsumers(w.store.slots, t.slots, w.transactions);
    OwnersKept(w.store.slots, t.slots, w.clients, v.clients, w.serverQ, w.transactions);
  }

  // ---------------------------------------------------------------- the client module

  lemma AuthStartedKeepsTransactions(w: World, p: Ptr)
    requires TransactionsInv(w) && HasCredentials(w, p) && Message(w.next) !in w.store.slots
    ensures TransactionsInv(AuthStarted(w, p))
  {
    var v := AuthStarted(w, p);
    assert MessagesKept(w.store.slots, v.store.slots);
    MessagesKeepConsumers(w.store.slots, v.store.slots, w.transactions);
    OwnersKept(w.store.slots, v.store.slots, w.clients, v.clients, w.serverQ, w.transactions);
    ServerQueueGrows(v.store.slots, v.clients, w.serverQ, w.transactions, StartAuth(w.next, w.next + 1));
  }

  lemma OpenedKeepsTransactions(w: World, p: Ptr, c: Ptr)
    requires TransactionsInv(w) && p !in w.clients && Message(w.next) !in w.store.slots
    ensures TransactionsInv(Opened(w, p, c))
  {
    var v := Opened(w, p, c);
    assert MessagesKept(w.store.slots, v.store.slots);
    MessagesKeepConsumers(w.store.slots, v.store.slots, w.transactions);
    OwnersKept(w.store.slots, v.store.slots, w.clients, w.clients, w.serverQ, w.transactions);
    NewClientOwnsNothing(v.store.slots, w.clients, w.serverQ, w.transactions, p);
  }

  lemma NewClientOwnsNothing(slots: Slots, clients: map<Ptr, Client>, q: seq<ServerMessage>, transactions: Transactions, p: Ptr)
    requires OwnerInv(slots, clients, q, transactions) && p !in clients
    ensures OwnerInv(slots, clients[p := Client(AuthInit, None)], q, transactions)
  {
  }

  lemma AdvisedKeepsTransactions(w: World, p: Ptr, advice: AuthStep)
    requires w.store.Counted() && TransactionsInv(w) && p in w.clients
    ensures TransactionsInv(Advised(w, p, advice))
  {
    var state := StateAfter(advice);
    FinishQueued(w.store.slots, w.clients, w.serverQ, w.transactions, p, state);
    var finished := w.(clients := w.clients[p := Client(state, None)], serverQ := w.serverQ + [FinishAuth(w.clients[p].transaction)]);
    assert TransactionsInv(finished);
    if advice == Authenticated {
      ReleasedKeepsTransactions(finished, Credentials(p));
    }
  }

  lemma StateOnlyKeepsTransactions(w: World, p: Ptr, state: ClientState)
    requires TransactionsInv(w) && p in w.clients
    ensures TransactionsInv(WithClient(w, p, w.clients[p].(state := state)))
  {
  }

  lemma ProcessedKeepsTransactions(w: World, p: Ptr, kind: EventKind)
    requires TransactionsInv(w) && p in w.clients && Message(w.next) !in w.store.slots
    requires StartsLogin(w.clients[p].state, kind) ==> HasCredentials(w, p)
    ensures TransactionsInv(Processed(w, p, kind))
  {
    hide TransactionsInv;
    var state := StateOnEvent(w.clients[p].state, kind);
    StateOnlyKeepsTransactions(w, p, state);
    if StartsLogin(w.clients[p].state, kind) {
      AuthStartedKeepsTransactions(WithClient(w, p, w.clients[p].(state := state)), p);
    }
  }

  lemma ClosedKeepsTransactions(w: World, p: Ptr)
    requires TransactionsInv(w) && Linked(w.store.slots, w.listed) && p in w.listed
    ensures TransactionsInv(Closed(w, p))
  {
    var v := Closed(w, p);
    forall k: Slot | k.Message? && k in w.store.slots
      ensures Get(v.store.slots, k) == Get(w.store.slots, k)
    {
      UnlinkedFrame(w.store.slots, w.listed, p, k);
    }
    MessagesKeepConsumers(w.store.slots, v.store.slots, w.transactions);
    OwnersKept(w.store.slots, v.store.slots, w.clients, v.clients, w.serverQ, w.transactions);
  }

  // ---------------------------------------------------------------- the server and auth modules

  lemma SharedClientKeepsTransactions(w: World, p: Ptr)
    requires TransactionsInv(w) && p in w.store.counts && Message(w.next) !in w.store.slots
    ensures TransactionsInv(SharedClient(w, p))
  {
  }

  lemma TakenServerKeepsTransactions(w: World)
    requires TransactionsInv(w) && w.serverQ != []
    ensures TransactionsInv(TakenServer(w))
  {
  }

  lemma SubmittedKeepsTransactions(w: World, n: nat, c: nat, t: Tid)
    requires TransactionsInv(w) && LiveClient(w, n) && t !in w.transactions && Message(w.next) !in w.store.slots
    ensures TransactionsInv(Submitted(w, n, c, t))
  {
    var p := w.Of(n);
    var a := SharedClient(w, p);
    SharedClientKeepsTransactions(w, p);
    TransactionSubmitted(a.store.slots, a.clients, a.serverQ, a.authQ, a.transactions, p, t, c, w.next);
  }

  lemma FinishedKeepsTransactions(w: World)
    requires TransactionsInv(w) && w.serverQ != [] && w.serverQ[0].FinishAuth? && w.serverQ[0].transaction.Some?
    ensures w.serverQ[0].transaction.value in w.transactions
    ensures TransactionsInv(Finished(TakenServer(w), w.serverQ[0].transaction.value))
  {
    TransactionFinished(w.store.slots, w.clients, w.serverQ, w.authQ, w.transactions, w.serverQ[0].transaction.value);
  }

  /** The auth thread's decision before any release. */
  lemma ConsideringKeepsTransactions(w: World)
    requires TransactionsInv(w) && w.authQ != []
    ensures Unprocessed(w.transactions, w.authQ[0].transaction)
    ensures var t := w.authQ[0].transaction;
      var after := if w.transactions[t].state == Cancelled then w.transactions - {t}
                   else w.transactions[t := Transaction(Done, None)];
      TransactionsInv(Considering(w, after))
  {
    TransactionProcessed(w.store.slots, w.clients, w.serverQ, w.authQ, w.transactions);
  }

  lemma DecidedKeepsTransactions(w: World, result: AuthStep)
    requires ReferencesInv(w) && TransactionsInv(w) && w.authQ != []
    requires Unprocessed(w.transactions, w.authQ[0].transaction)
    ensures TransactionsInv(Decided(w, result))
  {
    hide ReferencesInv;
    var t := w.authQ[0].transaction;
    var consumer := w.transactions[t].consumer.value;
    ConsideringKeepsTransactions(w);
    if w.transactions[t].state == Cancelled {
      ConsideringKeeps(w, w.transactions - {t});
      DroppedKeepsTransactions(Considering(w, w.transactions - {t}), Message(consumer));
    } else {
      var v := Considering(w, w.transactions[t := Transaction(Done, None)]);
      ServerQueueGrows(v.store.slots, v.clients, v.serverQ, v.transactions, AuthResult(result, consumer));
    }
  }

  // ---------------------------------------------------------------- every step

  lemma ClientsHandleKeepsTransactions(w: World, step: Step)
    requires ReferencesInv(w) && TransactionsInv(w) && step.ClientsHandle? && Proceeds(w, step) && Safe(w, step)
    ensures TransactionsInv(Handled(w, step))
  {
    hide ReferencesInv, TransactionsInv, Store.Counted, Linked, Opened, AuthStarted, Advised, Processed, Closed;
    NextIsFree(w);
    var taken := TakenClients(w);
    ClientsQueueTaken(w);
    match w.clientsQ[0]
    case OpenClient =>
      OpenedHasCredentials(taken, step.newClient, step.newCredentials);
      OpenClientKeepsTransactions(taken, step.newClient, step.newCredentials);
    case AuthEvent(advice, n) => AdvisedKeepsTransactions(taken, w.Of(n), advice);
    case IncomingEvent(kind, n) => ProcessedKeepsTransactions(taken, w.Of(n), kind);
    case ConnectionClosed(n) => ClosedKeepsTransactions(taken, w.Of(n));
  }

  lemma OpenedTakesOneName(w: World, p: Ptr, c: Ptr)
    requires Message(w.next + 1) !in w.store.slots
    ensures Message(w.next + 1) !in Opened(w, p, c).store.slots
  {
  }

  lemma OpenClientKeepsTransactions(w: World, p: Ptr, c: Ptr)
    requires TransactionsInv(w) && p !in w.clients && Message(w.next) !in w.store.slots && Message(w.next + 1) !in w.store.slots
    requires HasCredentials(Opened(w, p, c), p)
    ensures TransactionsInv(AuthStarted(Opened(w, p, c), p))
  {
    hide TransactionsInv, AuthStarted;
    OpenedKeepsTransactions(w, p, c);
    OpenedTakesOneName(w, p, c);
    AuthStartedKeepsTransactions(Opened(w, p, c), p);
  }

  lemma OpenedHasCredentials(w: World, p: Ptr, c: Ptr)
    requires p !in w.store.counts && c !in w.store.counts && p != c
    ensures HasCredentials(Opened(w, p, c), p)
  {
  }

  lemma ClientsQueueTaken(w: World)
    requires TransactionsInv(w) && w.clientsQ != []
    ensures TransactionsInv(TakenClients(w))
  {
  }

  lemma ServerHandleKeepsTransactions(w: World, step: Step)
    requires ReferencesInv(w) && TransactionsInv(w) && step.ServerHandle? && Proceeds(w, step) && Safe(w, step)
    ensures TransactionsInv(Handled(w, step))
  {
    hide ReferencesInv, TransactionsInv;
    NextIsFree(w);
    TakenServerKeepsTransactions(w);
    match w.serverQ[0]
    case StartAuth(n, c) => SubmittedKeepsTransactions(TakenServer(w), n, c, step.newTransaction);
    case FinishAuth(transaction) => FinishedKeepsTransactions(w);
    case AuthResult(advice, n) => ClientsQueueIrrelevant(TakenServer(w), AuthEvent(advice, n));
  }

  lemma ClientsQueueIrrelevant(w: World, m: ClientsMessage)
    requires TransactionsInv(w)
    ensures TransactionsInv(PutClients(w, m))
  {
  }

  lemma CallbackKeepsTransactions(w: World, p: Ptr, m: ClientsMessage)
    requires ReferencesInv(w) && TransactionsInv(w) && p in w.store.counts
    ensures TransactionsInv(PutClients(SharedClient(w, p), m))
    ensures SharedClient(w, p).store.Counted()
  {
    hide ReferencesInv, TransactionsInv;
    NextIsFree(w);
    SharedCounted(w.store, p, Message(w.next));
    SharedClientKeepsTransactions(w, p);
    ClientsQueueIrrelevant(SharedClient(w, p), m);
  }

  lemma HandlingKeepsTransactions(w: World, step: Step)
    requires AtRest(w) && Proceeds(w, step) && Safe(w, step)
    ensures TransactionsInv(Handled(w, step))
  {
    hide ReferencesInv, TransactionsInv;
    match step
    case AcceptConnection => ClientsQueueIrrelevant(w, OpenClient);
    case ConnectionDelivers(p, kind) => CallbackKeepsTransactions(w, p, IncomingEvent(kind, w.next));
    case ConnectionCloses(p) => CallbackKeepsTransactions(w, p, ConnectionClosed(w.next));
    case ClientsHandle(_, _) => ClientsHandleKeepsTransactions(w, step);
    case ServerHandle(_) => ServerHandleKeepsTransactions(w, step);
    case AuthReads => ReadingMovesNothing(w);
    case AuthHandle(result) =>
      AuthHeadUnprocessed(w);
      DecidedKeepsTransactions(w, result);
  }

  lemma ReadingMovesNothing(w: World)
    requires TransactionsInv(w)
    ensures TransactionsInv(w.(reading := true))
  {
  }

  lemma AuthHeadUnprocessed(w: World)
    requires TransactionsInv(w) && w.authQ != []
    ensures Unprocessed(w.transactions, w.authQ[0].transaction)
  {
  }

  lemma StepKeepsTransactions(w: World, step: Step)
    requires AtRest(w) && Proceeds(w, step) && Safe(w, step)
    ensures TransactionsInv(After(w, step))
  {
    hide ReferencesInv, TransactionsInv;
    HandlingKeepsTransactions(w, step);
    if step.ConnectionCloses? {
      CallbackKeepsTransactions(w, step.p, ConnectionClosed(w.next));
      ReleasedKeepsTransactions(Handled(w, step), Connection(step.p));
      HeldIrrelevant(WithStore(Handled(w, step), Release(Handled(w, step).store, Connection(step.p))), After(w, step));
    } else {
      HandlingIsTidy(w, step);
      if GivenUp(w, step).Some? {
        DroppedKeepsTransactions(Handled(w, step), GivenUp(w, step).value);
      }
    }
  }

  lemma HeldIrrelevant(w: World, v: World)
    requires TransactionsInv(w) && v == w.(held := v.held)
    ensures TransactionsInv(v)
  {
  }

  lemma StepKeepsRest(w: World, step: Step)
    requires AtRest(w) && Proceeds(w, step)
    ensures Safe(w, step) && AtRest(After(w, step))
  {
    hide ReferencesInv, TransactionsInv;
    StepIsSafe(w, step);
    StepKeepsReferences(w, step);
    StepKeepsTransactions(w, step);
  }
}
