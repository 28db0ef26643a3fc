/** Clients that wait: where each submission is handled only with no answer outstanding for its client, every
    transaction is finished once and by its own client, and none is lost. */
module ServerPatience {
  import opened SharedPtr
  import opened ClientList
  import opened ServerWorld
  import opened ServerReferences
  import opened ServerTransactions
  import opened ServerSteps
  import opened ServerReferenceSteps
  import opened ServerTransactionSteps
  import opened ServerPinning
  import opened ServerRuns
  import opened ServerOrphans
  import opened ServerReading
  import opened ServerFaults

  // ---------------------------------------------------------------- answers that are due

  /** The reference n is in a message that asks for a transaction. */
  ghost predicate Starting(w: World, n: nat) { exists m :: m in w.serverQ && m.StartAuth? && m.n == n }

  /** The reference n is in a transaction, or in a message that carries its result. */
  ghost predicate Answering(w: World, n: nat) {
    || (exists m :: m in w.serverQ && m.AuthResult? && m.n == n)
    || (exists m :: m in w.clientsQ && m.AuthEvent? && m.n == n)
    || (exists t :: t in w.transactions && w.transactions[t].consumer == Some(n))
  }

  ghost predicate Due(w: World, n: nat) { Starting(w, n) || Answering(w, n) }

  /** An answer is outstanding for the client. */
  ghost predicate Outstanding(w: World, p: Ptr) {
    exists n :: Due(w, n) && Refers(w.store.slots, n, p)
  }

  /** Every client has at most one answer due; it has the address of its transaction from when that is
      submitted until it is told the result; and only done transactions are finished. */
  ghost predicate AnswersInv(w: World) {
    && (forall m, n :: Due(w, m) && Due(w, n) && m != n ==> Differ(w.store.slots, m, n))
    && (forall n :: Starting(w, n) ==> !Answering(w, n))
    && (forall n, p :: Starting(w, n) && Refers(w.store.slots, n, p) && p in w.clients ==> w.clients[p].transaction == None)
    && (forall n, p :: Answering(w, n) && Refers(w.store.slots, n, p) && p in w.clients ==> w.clients[p].transaction.Some?)
    && FinishesInv(w.serverQ, w.transactions)
  }

  predicate Differ(slots: Slots, m: nat, n: nat) { Get(slots, Message(m)) != Get(slots, Message(n)) }

  ghost predicate FinishesInv(q: seq<ServerMessage>, transactions: Transactions) {
    && (forall t :: t in transactions ==> transactions[t].state != Cancelled)
    && (forall t :: FinishAuth(Some(t)) in q ==> t in transactions && transactions[t].state == Done)
    && FinishAuth(None) !in q
  }

  // ---------------------------------------------------------------- what keeps it

  /** Nothing new is due, what is due refers to whom it did, and owners are as they were. */
  ghost predicate NothingNewDue(w: World, v: World) {
    && (forall n :: Starting(v, n) ==> Starting(w, n))
    && (forall n :: Answering(v, n) ==> Answering(w, n))
    && (forall n :: Due(v, n) ==> Get(v.store.slots, Message(n)) == Get(w.store.slots, Message(n)))
    && (forall p :: p in v.clients && p in w.clients ==> v.clients[p].transaction == w.clients[p].transaction)
    && (forall n, p :: Due(v, n) && Refers(v.store.slots, n, p) && p in v.clients ==> p in w.clients)
  }

  lemma AnswersStill(w: World, v: World)
    requires AnswersInv(w) && NothingNewDue(w, v) && FinishesInv(v.serverQ, v.transactions)
    ensures AnswersInv(v)
  {
    hide FinishesInv, Starting, Answering;
    forall m, n | Due(v, m) && Due(v, n) && m != n
      ensures Differ(v.store.slots, m, n)
    {
      assert Due(w, m) && Due(w, n) && Differ(w.store.slots, m, n);
    }
    forall n, p | Starting(v, n) && Refers(v.store.slots, n, p) && p in v.clients
      ensures v.clients[p].transaction == None
    {
      assert Due(v, n) && Starting(w, n) && Refers(w.store.slots, n, p);
    }
    forall n, p | Answering(v, n) && Refers(v.store.slots, n, p) && p in v.clients
      ensures v.clients[p].transaction.Some?
    {
      assert Due(v, n) && Answering(w, n) && Refers(w.store.slots, n, p);
    }
  }

  /** The queues and transactions are the same, and message slots are kept. */
  lemma SameQueuesKeep(w: World, v: World)
    requires AnswersInv(w) && DueHeld(w)
    requires v.serverQ == w.serverQ && v.transactions == w.transactions
    requires forall m :: m in v.clientsQ && m.AuthEvent? ==> m in w.clientsQ
    requires MessagesKept(w.store.slots, v.store.slots)
    requires forall p :: p in v.clients && p in w.clients ==> v.clients[p].transaction == w.clients[p].transaction
    requires forall k: Slot :: k.Message? && k in w.store.slots ==> w.store.slots[k] in w.clients
    ensures AnswersInv(v) && forall n :: Due(v, n) ==> Due(w, n)
  {
    hide FinishesInv, AnswersInv;
    assert forall n :: Starting(v, n) ==> Starting(w, n);
    assert forall n :: Answering(v, n) ==> Answering(w, n);
    forall n | Due(v, n)
      ensures Get(v.store.slots, Message(n)) == Get(w.store.slots, Message(n))
    {
      assert Due(w, n);
    }
    FinishesOf(w);
    AnswersStill(w, v);
  }

  lemma FinishesOf(w: World)
    requires AnswersInv(w)
    ensures FinishesInv(w.serverQ, w.transactions)
  {
  }

  /** What is due is a reference that is there. */
  ghost predicate DueHeld(w: World) { forall n :: Due(w, n) ==> Message(n) in w.store.slots }

  lemma DueIsHeld(w: World)
    requires ReferencesInv(w) && QueueInv(w.authQ, w.transactions)
    ensures DueHeld(w)
  {
    hide ReferencesInv, QueueInv, InClientsQ, InServerQ, InAuthQ;
    forall n | Due(w, n)
      ensures Message(n) in w.store.slots
    {
      DueIsQueued(w, n);
      CarriedIsLive(w, n);
    }
  }

  function InQueues(w: World): multiset<Slot> {
    InClientsQ(w.clientsQ) + InServerQ(w.serverQ) + InAuthQ(w.authQ, w.transactions)
  }

  lemma DueIsQueued(w: World, n: nat)
    requires QueueInv(w.authQ, w.transactions) && Due(w, n)
    ensures InQueues(w)[Message(n)] >= 1
  {
    hide InClientsQ, InServerQ, InAuthQ, QueueInv;
    if m :| m in w.serverQ && Announces(m) && m.n == n {
      var i :| 0 <= i < |w.serverQ| && w.serverQ[i] == m;
      AnnouncementCarried(w.serverQ, i);
    } else if m :| m in w.clientsQ && m.AuthEvent? && m.n == n {
      var i :| 0 <= i < |w.clientsQ| && w.clientsQ[i] == m;
      NoticeCarried(w.clientsQ, i);
    } else {
      var t :| t in w.transactions && w.transactions[t].consumer == Some(n);
      ConsumerIsCarried(w.authQ, w.transactions, t);
    }
  }

  lemma ConsumerIsCarried(q: seq<AuthMessage>, transactions: Transactions, t: Tid)
    requires QueueInv(q, transactions) && t in transactions && transactions[t].consumer.Some?
    ensures InAuthQ(q, transactions)[Message(transactions[t].consumer.value)] >= 1
  {
    hide InAuthQ;
    assert Queued(q, t);
    var i :| 0 <= i < |q| && q[i].transaction == t;
    assert Unprocessed(transactions, q[i].transaction);
    ConsumerCarried(q, transactions, i);
  }

  /** A reference that the handler holds is not due any more. */
  lemma HeldIsNotDue(w: World, n: nat)
    requires RefsInv(w.store.slots, Carried(w), w.next) && QueueInv(w.authQ, w.transactions) && Message(n) in w.held
    ensures !Due(w, n)
  {
    hide InClientsQ, InServerQ, InAuthQ, QueueInv, Due;
    assert Carried(w)[Message(n)] == w.held[Message(n)] + InQueues(w)[Message(n)];
    if Due(w, n) {
      DueIsQueued(w, n);
    }
  }

  /** A client none of whose answers is due gets one. */
  lemma StartedKeeps(w: World, p: Ptr)
    requires AnswersInv(w) && DueHeld(w) && HasCredentials(w, p) && Message(w.next) !in w.store.slots
    requires !Outstanding(w, p) && p in w.clients && w.clients[p].transaction == None
    ensures AnswersInv(AuthStarted(w, p))
  {
    var v := AuthStarted(w, p);
    var m := StartAuth(w.next, w.next + 1);
    assert v.serverQ == w.serverQ + [m];
    assert forall n :: Starting(v, n) <==> Starting(w, n) || n == w.next by {
      assert m in v.serverQ;
    }
    assert forall n :: Answering(v, n) <==> Answering(w, n);
    StartedKeepsFinishes(w.serverQ, w.transactions, m);
    hide Starting, Answering, FinishesInv;
    assert !Due(w, w.next);
    assert forall n :: Due(w, n) ==> Get(v.store.slots, Message(n)) == Get(w.store.slots, Message(n));
    forall a, b | Due(v, a) && Due(v, b) && a != b
      ensures Differ(v.store.slots, a, b)
    {
      if a == w.next {
        assert Due(w, b) && !Refers(w.store.slots, b, p);
      } else if b == w.next {
        assert Due(w, a) && !Refers(w.store.slots, a, p);
      } else {
        assert Differ(w.store.slots, a, b);
      }
    }
    assert v.clients == w.clients;
  }

  lemma StartedKeepsFinishes(q: seq<ServerMessage>, transactions: Transactions, m: ServerMessage)
    requires FinishesInv(q, transactions) && m.StartAuth?
    ensures FinishesInv(q + [m], transactions)
  {
  }

  // ---------------------------------------------------------------- each handler

  lemma MessageTargets(w: World)
    requires ReferencesInv(w)
    ensures forall k: Slot :: k.Message? && k in w.store.slots ==> w.store.slots[k] in w.clients
  {
  }

  /** What a step starts from. */
  ghost predicate Sound(w: World) { ReferencesInv(w) && TransactionsInv(w) && PinnedInv(w) && AnswersInv(w) }

  lemma SoundFacts(w: World)
    requires Sound(w)
    ensures DueHeld(w) && AnswersInv(w) && QueueInv(w.authQ, w.transactions)
    ensures w.store.Counted() && Linked(w.store.slots, w.listed) && w.clients.Keys <= w.store.counts.Keys
    ensures forall n :: n >= w.next ==> Message(n) !in w.store.slots && Secret(n) !in w.store.slots
    ensures forall k: Slot :: k.Message? && k in w.store.slots ==> w.store.slots[k] in w.clients
  {
    hide ReferencesInv, AnswersInv, PinnedInv, FinishInv, OwnerInv, QueueInv;
    NextIsFree(w);
    DueIsHeld(w);
    MessageTargets(w);
  }

  lemma CallbackKeeps(w: World, p: Ptr, m: ClientsMessage)
    requires Sound(w) && p in w.store.counts && !m.AuthEvent?
    ensures AnswersInv(PutClients(SharedClient(w, p), m))
  {
    hide Sound, AnswersInv, DueHeld, Store.Counted, Linked;
    SoundFacts(w);
    SameQueuesKeep(w, PutClients(SharedClient(w, p), m));
  }

  lemma AcceptKeepsAnswers(w: World)
    requires Sound(w)
    ensures AnswersInv(w.(clientsQ := w.clientsQ + [OpenClient]))
  {
    hide Sound, AnswersInv, DueHeld, Store.Counted, Linked;
    SoundFacts(w);
    SameQueuesKeep(w, w.(clientsQ := w.clientsQ + [OpenClient]));
  }

  lemma OpeningKeeps(w: World, p: Ptr, c: Ptr)
    requires Sound(w) && w.clientsQ != [] && w.clientsQ[0].OpenClient?
    requires p !in w.store.counts && c !in w.store.counts && p != c
    ensures HasCredentials(Opened(TakenClients(w), p, c), p) && AnswersInv(AuthStarted(Opened(TakenClients(w), p, c), p))
  {
    hide Sound, AnswersInv, DueHeld, Due, Store.Counted, Linked, Opened, MessagesKept, HasCredentials;
    SoundFacts(w);
    var taken := TakenClients(w);
    OpenedFrame(taken, p, c);
    OpenedNames(taken, p, c);
    var v := Opened(taken, p, c);
    SameQueuesKeep(w, v);
    NewcomerIsFree(w, v, p);
    StartedKeeps(v, p);
  }

  lemma NewcomerIsFree(w: World, v: World, p: Ptr)
    requires DueHeld(w) && p !in w.clients && MessagesKept(w.store.slots, v.store.slots)
    requires forall k: Slot :: k.Message? && k in w.store.slots ==> w.store.slots[k] in w.clients
    requires forall n :: Due(v, n) ==> Due(w, n)
    ensures DueHeld(v) && !Outstanding(v, p)
  {
    hide Due;
    forall n | Due(v, n)
      ensures Message(n) in v.store.slots && !Refers(v.store.slots, n, p)
    {
      assert Due(w, n) && Message(n) in w.store.slots;
      assert Get(v.store.slots, Message(n)) == Get(w.store.slots, Message(n));
    }
  }

  /** With no answer outstanding a client has no transaction either. */
  lemma IdleHasNone(w: World, p: Ptr)
    requires Sound(w) && p in w.clients && !Outstanding(w, p)
    ensures w.clients[p].transaction == None
  {
    hide ReferencesInv, TransactionsInv, AnswersInv;
    if Vouched(w, p) {
      VouchedIsDue(w, p);
    }
  }

  lemma VouchedIsDue(w: World, p: Ptr)
    requires Vouched(w, p)
    ensures Outstanding(w, p)
  {
    if m :| m in w.clientsQ && m.AuthEvent? && Refers(w.store.slots, m.n, p) {
      assert Due(w, m.n);
    } else if m :| m in w.serverQ && Announces(m) && Refers(w.store.slots, m.n, p) {
      assert Due(w, m.n);
    } else {
      var t :| Standing(w, t) && Refers(w.store.slots, w.transactions[t].consumer.value, p);
      assert Due(w, w.transactions[t].consumer.value);
    }
  }

  lemma ProcessingKeeps(w: World, n: nat, p: Ptr, kind: EventKind)
    requires Sound(w) && w.clientsQ != [] && w.clientsQ[0] == IncomingEvent(kind, n) && LiveClient(w, n) && p == w.Of(n)
    requires StartsLogin(w.clients[p].state, kind) ==> HasCredentials(w, p) && !Outstanding(w, p)
    ensures AnswersInv(Processed(TakenClients(w), p, kind))
  {
    hide Sound, AnswersInv, DueHeld, Due, Store.Counted, Linked, Vouched;
    SoundFacts(w);
    var state := StateOnEvent(w.clients[p].state, kind);
    var stated := WithClient(TakenClients(w), p, w.clients[p].(state := state));
    SameQueuesKeep(w, stated);
    if StartsLogin(w.clients[p].state, kind) {
      IdleHasNone(w, p);
      StillNoneOutstanding(w, stated, p);
      StartedKeeps(stated, p);
    }
  }

  lemma StillNoneOutstanding(w: World, v: World, p: Ptr)
    requires !Outstanding(w, p) && DueHeld(w) && v.store == w.store && forall n :: Due(v, n) ==> Due(w, n)
    ensures !Outstanding(v, p) && DueHeld(v)
  {
    hide Due;
  }

  lemma ClosingKeeps(w: World, p: Ptr)
    requires Sound(w) && w.clientsQ != [] && w.clientsQ[0].ConnectionClosed? && p in w.listed
    ensures AnswersInv(Closed(TakenClients(w), p))
  {
    hide Sound, AnswersInv, DueHeld, Store.Counted, Linked, Unlinked;
    SoundFacts(w);
    forall k: Slot | k.Message? && k in w.store.slots
      ensures Get(Unlinked(w.store.slots, p), k) == Get(w.store.slots, k)
    {
      UnlinkedFrame(w.store.slots, w.listed, p, k);
    }
    SameQueuesKeep(w, Closed(TakenClients(w), p));
  }

  lemma TakenClientsHoldsHead(w: World)
    requires ReferencesInv(w) && QueueInv(w.authQ, w.transactions) && w.clientsQ != [] && !w.clientsQ[0].OpenClient?
    ensures !Due(TakenClients(w), w.clientsQ[0].n)
  {
    hide ReferencesInv, QueueInv;
    TakenClientsKeeps(w);
    RefsOf(TakenClients(w));
    HeldIsNotDue(TakenClients(w), w.clientsQ[0].n);
  }

  lemma TakenServerHoldsHead(w: World)
    requires ReferencesInv(w) && QueueInv(w.authQ, w.transactions) && w.serverQ != [] && w.serverQ[0].StartAuth?
    ensures !Due(TakenServer(w), w.serverQ[0].n)
  {
    hide ReferencesInv, QueueInv;
    TakenServerKeeps(w);
    RefsOf(TakenServer(w));
    HeldIsNotDue(TakenServer(w), w.serverQ[0].n);
  }

  lemma RefsOf(w: World)
    requires ReferencesInv(w)
    ensures RefsInv(w.store.slots, Carried(w), w.next)
  {
  }

  /** Told its result, a client has no answer due, and its transaction is done. */
  lemma AdvisingKeeps(w: World, n: nat, p: Ptr, advice: AuthStep)
    requires Sound(w) && w.clientsQ != [] && w.clientsQ[0] == AuthEvent(advice, n) && LiveClient(w, n) && p == w.Of(n)
    ensures AnswersInv(Advised(TakenClients(w), p, advice))
    ensures w.clients[p].transaction.Some?
  {
    hide ReferencesInv, PinnedInv, FinishInv, OwnerInv, QueueInv, FinishesInv, Starting, Answering, DueHeld, Store.Counted, Linked, Release;
    SoundFacts(w);
    var v := Advised(TakenClients(w), p, advice);
    HeadIsAnswering(w, n);
    AdvisedDue(w, p, advice);
    TakenClientsHoldsHead(w);
    forall m | Due(v, m)
      ensures Due(w, m) && m != n && !Refers(w.store.slots, m, p)
    {
      assert Due(w, m) && Due(w, n);
      assert m != n ==> Differ(w.store.slots, m, n);
    }
    forall m: nat
      ensures Get(v.store.slots, Message(m)) == Get(w.store.slots, Message(m))
    {
      ReleaseLeavesMessages(w.store, Credentials(p), Message(m));
    }
    AdvisedFinishes(w, n, p);
    FinishAppended(w, v, p);
    forall m, r | Starting(v, m) && Refers(v.store.slots, m, r) && r in v.clients
      ensures v.clients[r].transaction == None
    {
      assert Due(v, m) && r != p;
    }
    forall m, r | Answering(v, m) && Refers(v.store.slots, m, r) && r in v.clients
      ensures v.clients[r].transaction.Some?
    {
      assert Due(v, m) && r != p;
    }
  }

  lemma HeadIsAnswering(w: World, n: nat)
    requires w.clientsQ != [] && w.clientsQ[0].AuthEvent? && w.clientsQ[0].n == n
    ensures Answering(w, n)
  {
    assert w.clientsQ[0] in w.clientsQ;
  }

  lemma AdvisedDue(w: World, p: Ptr, advice: AuthStep)
    requires w.clientsQ != [] && p in w.clients
    ensures var v := Advised(TakenClients(w), p, advice);
      && (forall m :: Starting(v, m) ==> Starting(w, m))
      && (forall m :: Answering(v, m) ==> Answering(w, m))
      && (forall m :: Due(v, m) ==> Due(TakenClients(w), m))
  {
    hide Release;
  }

  /** The told client's transaction has been processed: were it not, its own reference to the client would
      be a second answer due. */
  lemma AdvisedFinishes(w: World, n: nat, p: Ptr)
    requires Sound(w) && w.clientsQ != [] && w.clientsQ[0].AuthEvent? && w.clientsQ[0].n == n && LiveClient(w, n) && p == w.Of(n)
    ensures w.clients[p].transaction.Some?
    ensures var t := w.clients[p].transaction.value; t in w.transactions && w.transactions[t].state == Done
  {
    hide ReferencesInv, PinnedInv, QueueInv, FinishesInv;
    HeadIsAnswering(w, n);
    TakenClientsHoldsHead(w);
    var t := w.clients[p].transaction.value;
    assert Owns(w.store.slots, w.serverQ, w.transactions, p, t);
    var consumer := w.transactions[t].consumer;
    ConsumerIsDue(w, t);
    assert Due(w, n) && Refers(w.store.slots, n, p);
    assert consumer.Some? ==> Refers(w.store.slots, consumer.value, p);
    assert consumer.Some? && consumer.value != n ==> Differ(w.store.slots, consumer.value, n);
    UndoneHasConsumer(w.authQ, w.transactions, t);
  }

  lemma ConsumerIsDue(w: World, t: Tid)
    requires t in w.transactions && w.clientsQ != []
    ensures var consumer := w.transactions[t].consumer;
      consumer.Some? ==> Due(w, consumer.value) && Due(TakenClients(w), consumer.value)
  {
  }

  lemma UndoneHasConsumer(q: seq<AuthMessage>, transactions: Transactions, t: Tid)
    requires QueueInv(q, transactions) && t in transactions
    ensures transactions[t].state != Done ==> transactions[t].consumer.Some?
  {
    assert transactions[t].state != Done ==> Queued(q, t);
    assert transactions[t].state != Done ==> Unprocessed(transactions, t);
  }

  lemma FinishAppended(w: World, v: World, p: Ptr)
    requires FinishesInv(w.serverQ, w.transactions) && p in w.clients && w.clients[p].transaction.Some?
    requires v.serverQ == w.serverQ + [FinishAuth(w.clients[p].transaction)] && v.transactions == w.transactions
    requires w.clients[p].transaction.value in w.transactions && w.transactions[w.clients[p].transaction.value].state == Done
    ensures FinishesInv(v.serverQ, v.transactions)
  {
  }

  /** The start message's client owns nothing yet, so nothing is overwritten. */
  lemma SubmittingKeeps(w: World, n: nat, c: nat, t: Tid)
    requires Sound(w) && w.serverQ != [] && w.serverQ[0] == StartAuth(n, c) && LiveClient(w, n) && t !in w.transactions
    ensures AnswersInv(Submitted(TakenServer(w), n, c, t))
    ensures w.clients[w.Of(n)].transaction == None
  {
    hide ReferencesInv, PinnedInv, FinishInv, OwnerInv, QueueInv, FinishesInv, Starting, Answering, DueHeld, Store.Counted, Linked;
    SoundFacts(w);
    var p, v := w.Of(n), Submitted(TakenServer(w), n, c, t);
    HeadIsStarting(w, n);
    TakenServerHoldsHead(w);
    SubmittedDue(w, n, c, t);
    SubmittedKeepsFinishes(w, n, c, t);
    assert !Due(w, w.next) by {
      hide Due;
      assert DueHeld(w);
      NotHeldNotDue(w, w.next);
    }
    forall m | Due(v, m) && m != w.next
      ensures Due(w, m) && !Refers(w.store.slots, m, p) && Get(v.store.slots, Message(m)) == Get(w.store.slots, Message(m))
    {
      assert Due(w, m) && Due(w, n) && m != n && Differ(w.store.slots, m, n);
    }
    assert Refers(v.store.slots, w.next, p);
    forall a, b | Due(v, a) && Due(v, b) && a != b
      ensures Differ(v.store.slots, a, b)
    {
      assert a != w.next && b != w.next ==> Differ(w.store.slots, a, b);
    }
    forall m, r | Starting(v, m) && Refers(v.store.slots, m, r) && r in v.clients
      ensures v.clients[r].transaction == None
    {
      assert Due(v, m) && Starting(w, m) && m != w.next && r != p;
    }
    forall m, r | Answering(v, m) && Refers(v.store.slots, m, r) && r in v.clients
      ensures v.clients[r].transaction.Some?
    {
      assert Due(v, m) && (m != w.next ==> Answering(w, m) && r != p);
    }
  }

  lemma NotHeldNotDue(w: World, n: nat)
    requires DueHeld(w) && Message(n) !in w.store.slots
    ensures !Due(w, n)
  {
  }

  lemma HeadIsStarting(w: World, n: nat)
    requires w.serverQ != [] && w.serverQ[0].StartAuth? && w.serverQ[0].n == n
    ensures Starting(w, n)
  {
    assert w.serverQ[0] in w.serverQ;
  }

  lemma SubmittedDue(w: World, n: nat, c: nat, t: Tid)
    requires w.serverQ != [] && LiveClient(w, n) && t !in w.transactions
    ensures var v := Submitted(TakenServer(w), n, c, t);
      && (forall m :: Starting(v, m) ==> Starting(w, m))
      && (forall m :: Answering(v, m) ==> Answering(w, m) || m == w.next)
      && (forall m :: Due(v, m) && m != w.next ==> Due(TakenServer(w), m))
  {
    hide Shared;
  }

  lemma SubmittedKeepsFinishes(w: World, n: nat, c: nat, t: Tid)
    requires FinishesInv(w.serverQ, w.transactions) && w.serverQ != [] && LiveClient(w, n) && t !in w.transactions
    ensures var v := Submitted(TakenServer(w), n, c, t); FinishesInv(v.serverQ, v.transactions)
  {
    hide Shared;
  }

  lemma FinishingKeeps(w: World, t: Tid)
    requires Sound(w) && w.serverQ != [] && w.serverQ[0] == FinishAuth(Some(t)) && t in w.transactions
    ensures AnswersInv(Finished(TakenServer(w), t))
  {
    hide ReferencesInv, PinnedInv;
    assert w.serverQ[0] in w.serverQ;
    var v := Finished(TakenServer(w), t);
    assert FinishesInv(v.serverQ, v.transactions) by {
      FinishesApart(w.serverQ, w.transactions);
    }
    assert forall n :: Starting(v, n) ==> Starting(w, n);
    assert forall n :: Answering(v, n) ==> Answering(w, n);
    AnswersStill(w, v);
  }

  lemma FinishesApart(q: seq<ServerMessage>, transactions: Transactions)
    requires FinishInv(q, transactions) && q != [] && q[0].FinishAuth? && q[0].transaction.Some?
    ensures q[0] !in q[1..]
  {
  }

  lemma ResultKeeps(w: World)
    requires Sound(w) && w.serverQ != [] && w.serverQ[0].AuthResult?
    ensures AnswersInv(PutClients(TakenServer(w), AuthEvent(w.serverQ[0].step, w.serverQ[0].n)))
  {
    hide ReferencesInv, PinnedInv, TransactionsInv;
    assert w.serverQ[0] in w.serverQ;
    var v := PutClients(TakenServer(w), AuthEvent(w.serverQ[0].step, w.serverQ[0].n));
    assert forall n :: Starting(v, n) ==> Starting(w, n);
    assert forall n :: Answering(v, n) ==> Answering(w, n);
    AnswersStill(w, v);
  }

  lemma DecidingKeeps(w: World, result: AuthStep)
    requires Sound(w) && Proceeds(w, AuthHandle(result)) && Safe(w, AuthHandle(result))
    ensures AnswersInv(Decided(w, result))
  {
    hide ReferencesInv, PinnedInv, TransactionsInv;
    var t := w.authQ[0].transaction;
    var v := Decided(w, result);
    var m := AuthResult(result, w.transactions[t].consumer.value);
    assert v.serverQ == w.serverQ + [m];
    assert forall n :: Starting(v, n) ==> Starting(w, n);
    assert forall n :: Answering(v, n) ==> Answering(w, n);
    AnswersStill(w, v);
  }

  lemma ReadingKeeps(w: World)
    requires Sound(w)
    ensures AnswersInv(w.(reading := true))
  {
    hide ReferencesInv, PinnedInv, TransactionsInv;
    var v := w.(reading := true);
    assert forall n :: Starting(v, n) ==> Starting(w, n);
    assert forall n :: Answering(v, n) ==> Answering(w, n);
    AnswersStill(w, v);
  }

  /** The last release takes no reference that is due. */
  lemma DroppingKeeps(w: World, k: Slot)
    requires w.store.Counted() && AnswersInv(w) && (forall n :: Due(w, n) ==> k != Message(n))
    ensures AnswersInv(Dropped(w, k))
  {
    hide AnswersInv, FinishesInv, Release;
    var v := Dropped(w, k);
    assert forall n :: Starting(v, n) <==> Starting(w, n);
    assert forall n :: Answering(v, n) <==> Answering(w, n);
    forall n | Due(v, n)
      ensures Get(v.store.slots, Message(n)) == Get(w.store.slots, Message(n))
    {
      assert Due(w, n);
      ReleaseLeavesMessages(w.store, k, Message(n));
    }
    FinishesOf(w);
    AnswersStill(w, v);
  }

  // ---------------------------------------------------------------- every step

  /** The step takes no submission of a client for which an answer is outstanding. */
  ghost predicate Patient(w: World, step: Step) {
    step.ClientsHandle? ==> forall p :: NextSubmits(w, p) ==> !Outstanding(w, p)
  }

  lemma ClientsKeepAnswers(w: World, step: Step)
    requires Sound(w) && step.ClientsHandle? && Proceeds(w, step) && Safe(w, step) && Patient(w, step)
    ensures AnswersInv(Handled(w, step))
  {
    hide Sound, AnswersInv, Outstanding, Opened, AuthStarted, Advised, Processed, Closed;
    match w.clientsQ[0]
    case OpenClient => OpeningKeeps(w, step.newClient, step.newCredentials);
    case AuthEvent(advice, n) => AdvisingKeeps(w, n, w.Of(n), advice);
    case IncomingEvent(kind, n) =>
      assert Submits(kind) ==> NextSubmits(w, w.Of(n));
      ProcessingKeeps(w, n, w.Of(n), kind);
    case ConnectionClosed(n) => ClosingKeeps(w, w.Of(n));
  }

  lemma ServerKeepsAnswers(w: World, t: Tid)
    requires Sound(w) && Proceeds(w, ServerHandle(t)) && Safe(w, ServerHandle(t))
    ensures AnswersInv(Handled(w, ServerHandle(t)))
  {
    hide Sound, AnswersInv, Submitted, Finished;
    match w.serverQ[0]
    case StartAuth(n, c) => SubmittingKeeps(w, n, c, t);
    case FinishAuth(x) => FinishingKeeps(w, x.value);
    case AuthResult(_, _) => ResultKeeps(w);
  }

  lemma HandlingKeepsAnswers(w: World, step: Step)
    requires Sound(w) && Proceeds(w, step) && Safe(w, step) && Patient(w, step)
    ensures AnswersInv(Handled(w, step))
  {
    hide Sound, AnswersInv, Decided;
    match step
    case AcceptConnection => AcceptKeepsAnswers(w);
    case ConnectionDelivers(p, kind) => CallbackKeeps(w, p, IncomingEvent(kind, w.next));
    case ConnectionCloses(p) => CallbackKeeps(w, p, ConnectionClosed(w.next));
    case ClientsHandle(_, _) => ClientsKeepAnswers(w, step);
    case ServerHandle(t) => ServerKeepsAnswers(w, t);
    case AuthReads => ReadingKeeps(w);
    case AuthHandle(result) => DecidingKeeps(w, result);
  }

  lemma GivenUpIsNotDue(w: World, step: Step)
    requires Inv(w) && Proceeds(w, step) && Safe(w, step) && GivenUp(w, step).Some?
    ensures Handled(w, step).store.Counted()
    ensures forall n :: Due(Handled(w, step), n) ==> GivenUp(w, step).value != Message(n)
  {
    hide ReferencesInv, TransactionsInv, PinnedInv, Handled, Due, Store.Counted;
    var v := Handled(w, step);
    if step.ConnectionCloses? {
      CallbackCounted(w, step.p);
    } else {
      HandlingIsTidy(w, step);
      NextIsFree(v);
      HandlingKeepsTransactions(w, step);
      NoHeldIsDue(v);
    }
  }

  lemma NoHeldIsDue(v: World)
    requires ReferencesInv(v) && TransactionsInv(v)
    ensures forall n :: Due(v, n) ==> Message(n) !in v.held
  {
    hide ReferencesInv, Due;
    RefsOf(v);
    forall n | Message(n) in v.held
      ensures !Due(v, n)
    {
      HeldIsNotDue(v, n);
    }
  }

  lemma CallbackCounted(w: World, p: Ptr)
    requires Inv(w) && Proceeds(w, ConnectionCloses(p)) && Safe(w, ConnectionCloses(p))
    ensures Handled(w, ConnectionCloses(p)).store.Counted()
  {
    hide ReferencesInv, TransactionsInv, PinnedInv;
    CallbackKeepsTransactions(w, p, ConnectionClosed(w.next));
  }

  lemma StepKeepsAnswers(w: World, step: Step)
    requires Reachable(w) && AnswersInv(w) && Proceeds(w, step) && Safe(w, step) && Patient(w, step)
    ensures AnswersInv(After(w, step))
  {
    hide Reachable, ReferencesInv, TransactionsInv, PinnedInv, AnswersInv, Handled, Dropped, Patient;
    ReachableInv(w);
    HandlingKeepsAnswers(w, step);
    if GivenUp(w, step).Some? {
      GivenUpIsNotDue(w, step);
      DroppingKeeps(Handled(w, step), GivenUp(w, step).value);
    }
  }

  // ---------------------------------------------------------------- the theorems

  /** A run in which every client waits: no step takes its submission while an answer is outstanding. */
  ghost predicate PatientRun(w: World, steps: seq<Step>, v: World)
    decreases |steps|
  {
    if steps == [] then w == v
    else
      && Proceeds(w, steps[0]) && Safe(w, steps[0]) && Patient(w, steps[0])
      && PatientRun(After(w, steps[0]), steps[1..], v)
  }

  lemma {:induction false} PatientRunKeepsAnswers(w: World, steps: seq<Step>, v: World)
    requires Reachable(w) && AnswersInv(w) && PatientRun(w, steps, v)
    ensures Reachable(v) && AnswersInv(v)
    decreases |steps|
  {
    hide Reachable, AnswersInv;
    if steps != [] {
      StepKeepsAnswers(w, steps[0]);
      NoUseAfterFree(w, steps[0]);
      PatientRunKeepsAnswers(After(w, steps[0]), steps[1..], v);
    }
  }

  lemma InitialAnswers()
    ensures Reachable(Initial()) && AnswersInv(Initial())
  {
    assert Run(Initial(), [], Initial());
  }

  /** Then no step overwrites the address of a transaction. */
  lemma PatienceOverwritesNone(steps: seq<Step>, v: World, step: Step, t: Tid)
    requires PatientRun(Initial(), steps, v) && Proceeds(v, step) && Safe(v, step)
    ensures !Overwrites(v, step, t)
  {
    hide Reachable, AnswersInv;
    InitialAnswers();
    PatientRunKeepsAnswers(Initial(), steps, v);
    NoOverwrite(v, step, t);
  }

  lemma SoundWhenReachable(w: World)
    requires Reachable(w) && AnswersInv(w)
    ensures Sound(w)
  {
    ReachableInv(w);
  }

  lemma SubmitterHasNone(w: World, t: Tid)
    requires Sound(w) && Proceeds(w, ServerHandle(t)) && Safe(w, ServerHandle(t)) && w.serverQ[0].StartAuth?
    ensures w.clients[w.Of(w.serverQ[0].n)].transaction == None
  {
    hide Sound;
    SubmittingKeeps(w, w.serverQ[0].n, w.serverQ[0].c, t);
  }

  /** No transaction is lost, none is finished before it is done, and the server is never asked to finish a
      null one. */
  lemma PatienceFinishesAll(steps: seq<Step>, v: World)
    requires PatientRun(Initial(), steps, v)
    ensures forall t :: !Orphan(v, t)
    ensures FinishAuth(None) !in v.serverQ
    ensures forall t :: FinishAuth(Some(t)) in v.serverQ ==> t in v.transactions && v.transactions[t].state == Done
  {
    hide Reachable, Orphan;
    InitialAnswers();
    PatientRunKeepsAnswers(Initial(), steps, v);
    InitialHasNoOrphans();
    NoneOrphaned(Initial(), steps, v);
  }

  lemma InitialHasNoOrphans()
    ensures forall t :: !Orphan(Initial(), t)
  {
  }

  lemma {:induction false} NoneOrphaned(w: World, steps: seq<Step>, v: World)
    requires Reachable(w) && AnswersInv(w) && PatientRun(w, steps, v)
    requires forall t :: !Orphan(w, t)
    ensures forall t :: !Orphan(v, t)
    decreases |steps|
  {
    hide Orphan, Overwrites, Reachable, AnswersInv, Patient;
    if steps != [] {
      NoUseAfterFree(w, steps[0]);
      ReachableInv(w);
      StepKeepsAnswers(w, steps[0]);
      forall t
        ensures !Orphan(After(w, steps[0]), t)
      {
        if t in w.transactions {
          NoOverwrite(w, steps[0], t);
          OrphanedExactlyBy(w, steps[0], t);
        } else {
          NewIsOwned(w, steps[0], t);
        }
      }
      NoneOrphaned(After(w, steps[0]), steps[1..], v);
    }
  }

  lemma NoOverwrite(w: World, step: Step, t: Tid)
    requires Reachable(w) && AnswersInv(w) && Proceeds(w, step) && Safe(w, step)
    ensures !Overwrites(w, step, t)
  {
    hide Reachable, AnswersInv;
    SoundWhenReachable(w);
    if step.ServerHandle? && w.serverQ[0].StartAuth? {
      SubmitterHasNone(w, step.newTransaction);
    }
  }

  // ---------------------------------------------------------------- what can still go wrong

  /** A client that waits for its answer rewrites no record that the worker is reading: not its own, because
      the answer is outstanding as long as it is read, and nobody else's, because records are not shared. */
  lemma PatienceNeverInterferes(w: World, step: Step)
    requires Reachable(w) && Patient(w, step) && step.ClientsHandle?
    ensures !Interferes(w)
  {
    hide Reachable, Interferes, NextSubmits;
    InterferesExactly(w);
    if p :| ReadsFor(w, p) && NextStarts(w, p) {
      ReadIsOutstanding(w, p);
    }
  }

  lemma ReadIsOutstanding(w: World, p: Ptr)
    requires ReadsFor(w, p)
    ensures Outstanding(w, p)
  {
    assert Due(w, w.transactions[w.authQ[0].transaction].consumer.value);
  }

  /** Where clients wait, one way to go wrong is left, which is to submit again once logged in. */
  lemma PatienceLeavesOneFault(steps: seq<Step>, v: World, step: Step)
    requires PatientRun(Initial(), steps, v) && Enabled(v, step) && Patient(v, step)
    ensures Faults(v, step) <==> step.ClientsHandle? && exists p :: p in v.admitted && NextSubmits(v, p)
  {
    hide Reachable, AnswersInv, Patient, Interferes;
    InitialAnswers();
    PatientRunKeepsAnswers(Initial(), steps, v);
    PatienceFinishesAll(steps, v);
    FaultsExactly(v, step);
    if step.ClientsHandle? {
      PatienceNeverInterferes(v, step);
      NoneReadFor(v);
    }
    assert step.ServerHandle? ==> v.serverQ[0] in v.serverQ;
  }

  lemma NoneReadFor(w: World)
    requires Reachable(w) && !Interferes(w)
    ensures forall p :: ReadsFor(w, p) && NextStarts(w, p) ==> p in w.admitted && NextSubmits(w, p)
  {
    hide Reachable, Interferes;
    InterferesExactly(w);
  }
}
