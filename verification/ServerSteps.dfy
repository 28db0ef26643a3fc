/** Every step of the server keeps the reference invariant, follows only live pointers, and destroys only
    what it may. */
module ServerSteps {
  import opened SharedPtr
  import opened ClientList
  import opened ServerWorld
  import opened ServerReferences
  import opened ServerTransactions

  ghost predicate ReferencesInv(w: World) {
    && StructureInv(w.store, w.clients.Keys, w.listed, w.unlinkedAt, w.clock, w.clientsQ)
    && RefsInv(w.store.slots, Carried(w), w.next)
  }

  // ---------------------------------------------------------------- what handlers are made of

  lemma {:induction false} NoticeCarried(q: seq<ClientsMessage>, i: nat)
    requires i < |q| && !q[i].OpenClient?
    ensures InClientsQ(q)[Message(q[i].n)] >= 1
  {
    if i > 0 {
      NoticeCarried(q[1..], i - 1);
    }
  }

  /** What the invariant says about names not yet given out, and about the clients. */
  lemma NextIsFree(w: World)
    requires ReferencesInv(w)
    ensures forall n :: n >= w.next ==> Message(n) !in w.store.slots && Secret(n) !in w.store.slots
    ensures w.store.Counted() && Linked(w.store.slots, w.listed) && w.clients.Keys <= w.store.counts.Keys
  {
  }

  /** What the handler holds is not in a queue as well. */
  lemma HeldNotQueued(w: World, k: Slot)
    requires RefsInv(w.store.slots, Carried(w), w.next) && k in w.held
    ensures k in w.store.slots && Reference(k) && Carried(w)[k] == 1 && w.held[k] == 1
    ensures forall i :: 0 <= i < |w.clientsQ| && w.clientsQ[i].ConnectionClosed? ==> k != Message(w.clientsQ[i].n)
  {
    assert Carried(w)[k] >= w.held[k] + InClientsQ(w.clientsQ)[k];
    forall i | 0 <= i < |w.clientsQ| && w.clientsQ[i].ConnectionClosed?
      ensures k != Message(w.clientsQ[i].n)
    {
      NoticeCarried(w.clientsQ, i);
    }
  }

  lemma SharedClientKeeps(w: World, p: Ptr)
    requires ReferencesInv(w) && p in w.clients
    ensures ReferencesInv(SharedClient(w, p))
  {
    hide StructureInv, RefsInv, Store.Counted, Linked, InClientsQ, InServerQ, InAuthQ;
    NextIsFree(w);
    SharedKeepsRefs(w.store.slots, Carried(w), w.next, Message(w.next), p);
    SharedKeepsStructure(w.store, w.clients.Keys, w.listed, w.unlinkedAt, w.clock, w.clientsQ, p, Message(w.next));
    assert Carried(SharedClient(w, p)) == Carried(w) + multiset{Message(w.next)};
  }

  lemma SharedSecretKeeps(w: World, c: Ptr)
    requires ReferencesInv(w) && c in w.store.counts && c !in w.clients
    ensures ReferencesInv(SharedSecret(w, c))
  {
    hide StructureInv, RefsInv, Store.Counted, Linked, InClientsQ, InServerQ, InAuthQ;
    NextIsFree(w);
    SharedKeepsRefs(w.store.slots, Carried(w), w.next, Secret(w.next), c);
    SharedKeepsStructure(w.store, w.clients.Keys, w.listed, w.unlinkedAt, w.clock, w.clientsQ, c, Secret(w.next));
    assert Carried(SharedSecret(w, c)) == Carried(w) + multiset{Secret(w.next)};
  }

  lemma WithStoreKeeps(w: World, k: Slot)
    requires StructureInv(w.store, w.clients.Keys, w.listed, w.unlinkedAt, w.clock, w.clientsQ) && !Link(k)
    requires forall i :: 0 <= i < |w.clientsQ| && w.clientsQ[i].ConnectionClosed? ==> k != Message(w.clientsQ[i].n)
    ensures var v := WithStore(w, Release(w.store, k));
      StructureInv(v.store, v.clients.Keys, v.listed, v.unlinkedAt, v.clock, v.clientsQ)
  {
    hide StructureInv, Release;
    var t := Release(w.store, k);
    ReleaseKeepsStructure(w.store, w.clients.Keys, w.listed, w.unlinkedAt, w.clock, w.clientsQ, k);
    assert WithStore(w, t).clients.Keys == w.clients.Keys * t.counts.Keys;
    assert WithStore(w, t).unlinkedAt == Restricted(w.unlinkedAt, t.counts.Keys);
  }

  /** Giving up a reference of the handler's own. */
  lemma DroppedKeeps(w: World, k: Slot)
    requires ReferencesInv(w) && k in w.held
    ensures k in w.store.slots && ReferencesInv(Dropped(w, k))
  {
    hide StructureInv, RefsInv, Release, InClientsQ, InServerQ, InAuthQ;
    HeldNotQueued(w, k);
    WithStoreKeeps(w, k);
    DroppedKeepsRefs(w, k);
  }

  lemma DroppedKeepsRefs(w: World, k: Slot)
    requires StructureInv(w.store, w.clients.Keys, w.listed, w.unlinkedAt, w.clock, w.clientsQ)
    requires RefsInv(w.store.slots, Carried(w), w.next) && k in w.held
    ensures RefsInv(Dropped(w, k).store.slots, Carried(Dropped(w, k)), w.next)
  {
    hide HeapInv, Linked, StaleInv, ConnectionInv, RefsInv, Shrinks, Release, InClientsQ, InServerQ, InAuthQ;
    ReleaseKeepsHeap(w.store, w.clients.Keys, k);
    ReleaseKeepsRefs(w.store, k, Release(w.store, k), Carried(w), w.next);
    assert Carried(Dropped(w, k)) == Carried(w) - multiset{k};
  }

  lemma NotANotice(w: World, k: Slot)
    requires !k.Message?
    ensures forall i :: 0 <= i < |w.clientsQ| && w.clientsQ[i].ConnectionClosed? ==> k != Message(w.clientsQ[i].n)
  {
  }

  /** Giving up a reference that is not in flight: a connection's, or a client's to its credentials. */
  lemma ReleasedKeeps(w: World, k: Slot)
    requires ReferencesInv(w) && (k.Connection? || k.Credentials?)
    ensures ReferencesInv(WithStore(w, Release(w.store, k)))
  {
    NotANotice(w, k);
    WithStoreKeeps(w, k);
    ReleaseKeepsHeap(w.store, w.clients.Keys, k);
    OtherReleaseKeepsRefs(w.store, k, Release(w.store, k), Carried(w), w.next);
    assert Carried(WithStore(w, Release(w.store, k))) == Carried(w);
  }

  lemma TakenClientsKeeps(w: World)
    requires ReferencesInv(w) && w.clientsQ != []
    ensures ReferencesInv(TakenClients(w))
    ensures OfClientsMessage(w.clientsQ[0]) <= TakenClients(w).held
  {
    assert Carried(TakenClients(w)) == Carried(w);
    TailKeepsNotices(w.store.slots, w.listed, w.clientsQ);
  }

  lemma TailKeepsNotices(slots: Slots, listed: seq<Ptr>, q: seq<ClientsMessage>)
    requires ConnectionInv(slots, listed, q) && q != []
    ensures ConnectionInv(slots, listed, q[1..])
  {
  }

  lemma PutClientsKeeps(w: World, m: ClientsMessage)
    requires ReferencesInv(w) && OfClientsMessage(m) <= w.held
    requires m.ConnectionClosed? ==> NewNotice(w.store.slots, w.listed, w.clientsQ, m.n)
    ensures ReferencesInv(PutClients(w, m))
  {
    hide HeapInv, Linked, StaleInv, ConnectionInv, RefsInv, NewNotice, InClientsQ, InServerQ, InAuthQ;
    InClientsQAppend(w.clientsQ, m);
    AppendKeepsNotices(w.store.slots, w.listed, w.clientsQ, m);
    assert Carried(PutClients(w, m)) == Carried(w);
  }

  lemma TakenServerKeeps(w: World)
    requires ReferencesInv(w) && w.serverQ != []
    ensures ReferencesInv(TakenServer(w))
    ensures OfServerMessage(w.serverQ[0]) <= TakenServer(w).held
  {
    hide StructureInv, RefsInv, InClientsQ, InAuthQ;
    assert Carried(TakenServer(w)) == Carried(w);
  }

  lemma PutServerKeeps(w: World, m: ServerMessage)
    requires ReferencesInv(w) && OfServerMessage(m) <= w.held
    ensures ReferencesInv(PutServer(w, m))
  {
    hide StructureInv, RefsInv, InClientsQ, InServerQ, InAuthQ;
    InServerQAppend(w.serverQ, m);
    assert Carried(PutServer(w, m)) == Carried(w);
  }

  lemma WithClientKeeps(w: World, p: Ptr, client: Client)
    requires ReferencesInv(w) && p in w.clients
    ensures ReferencesInv(WithClient(w, p, client))
  {
    assert WithClient(w, p, client).clients.Keys == w.clients.Keys;
  }

  function BothShared(w: World, p: Ptr): World
    requires HasCredentials(w, p)
  {
    SharedSecret(SharedClient(w, p), w.store.slots[Credentials(p)])
  }

  lemma BothSharedKeeps(w: World, p: Ptr)
    requires ReferencesInv(w) && p in w.clients && Credentials(p) in w.store.slots
    ensures HasCredentials(w, p) && ReferencesInv(BothShared(w, p))
  {
    hide ReferencesInv;
    CredentialsLive(w, p);
    SharedClientKeeps(w, p);
    SharedSecretKeeps(SharedClient(w, p), w.store.slots[Credentials(p)]);
  }

  lemma AuthStartedKeeps(w: World, p: Ptr)
    requires ReferencesInv(w) && p in w.clients && Credentials(p) in w.store.slots
    ensures HasCredentials(w, p) && ReferencesInv(AuthStarted(w, p)) && AuthStarted(w, p).held == w.held
  {
    hide ReferencesInv;
    BothSharedKeeps(w, p);
    StartMessageHeld(w, p);
    PutServerKeeps(BothShared(w, p), StartAuth(w.next, w.next + 1));
  }

  lemma StartMessageHeld(w: World, p: Ptr)
    requires HasCredentials(w, p)
    ensures OfServerMessage(StartAuth(w.next, w.next + 1)) <= BothShared(w, p).held
    ensures AuthStarted(w, p).held == w.held
  {
    var added := multiset{Message(w.next), Secret(w.next + 1)};
    assert BothShared(w, p).held == w.held + added;
  }

  lemma CredentialsLive(w: World, p: Ptr)
    requires ReferencesInv(w) && p in w.clients && Credentials(p) in w.store.slots
    ensures HasCredentials(w, p) && w.store.slots[Credentials(p)] !in w.clients
  {
  }

  // ---------------------------------------------------------------- handlers that move clients in and out

  lemma OpenedKeeps(w: World, p: Ptr, c: Ptr)
    requires ReferencesInv(w) && p !in w.store.counts && c !in w.store.counts && p != c
    ensures ReferencesInv(Opened(w, p, c))
    ensures Credentials(p) in Opened(w, p, c).store.slots && p in Opened(w, p, c).clients
  {
    hide StructureInv, RefsInv;
    NextIsFree(w);
    OpenedStructure(w, p, c);
    OpenedHas(w, p, c);
    OpenedRefs(w, p, c);
  }

  lemma OpenedHas(w: World, p: Ptr, c: Ptr)
    ensures Credentials(p) in Opened(w, p, c).store.slots && p in Opened(w, p, c).clients
  {
  }

  lemma OpenedStructure(w: World, p: Ptr, c: Ptr)
    requires StructureInv(w.store, w.clients.Keys, w.listed, w.unlinkedAt, w.clock, w.clientsQ)
    requires p !in w.store.counts && c !in w.store.counts && p != c && Message(w.next) !in w.store.slots
    ensures var v := Opened(w, p, c);
      StructureInv(v.store, v.clients.Keys, v.listed, v.unlinkedAt, v.clock, v.clientsQ)
  {
    hide StructureInv, Appended, Recounted;
    OpenedKeepsStructure(w.store, w.clients.Keys, w.listed, w.unlinkedAt, w.clock, w.clientsQ, p, c, w.next);
    assert Opened(w, p, c).clients.Keys == w.clients.Keys + {p};
  }

  lemma OpenedRefs(w: World, p: Ptr, c: Ptr)
    requires RefsInv(w.store.slots, Carried(w), w.next)
    ensures RefsInv(Opened(w, p, c).store.slots, Carried(Opened(w, p, c)), w.next + 1)
  {
    hide RefsInv, InClientsQ, InServerQ, InAuthQ;
    var v := Opened(w, p, c);
    SharedKeepsRefs(w.store.slots, Carried(w), w.next, Message(w.next), p);
    assert Carried(v) == Carried(w) + multiset{Message(w.next)} by {
      hide Appended, Recounted;
    }
    OpenedReferences(w, p, c);
    LinksKeepRefs(w.store.slots[Message(w.next) := p], v.store.slots, Carried(v), w.next + 1);
  }

  lemma OpenedReferences(w: World, p: Ptr, c: Ptr)
    ensures forall k :: Reference(k) ==> (k in Opened(w, p, c).store.slots <==> k in w.store.slots[Message(w.next) := p])
  {
  }

  /** `w` is the world with the notice already taken from the queue. */
  lemma ClosedKeeps(w: World, n: nat, p: Ptr)
    requires StructureInv(w.store, w.clients.Keys, w.listed, w.unlinkedAt, w.clock, [ConnectionClosed(n)] + w.clientsQ)
    requires RefsInv(w.store.slots, Carried(w), w.next) && Get(w.store.slots, Message(n)) == Some(p)
    ensures p in w.listed && ReferencesInv(Closed(w, p))
  {
    hide StructureInv, RefsInv;
    UnlinkedKeepsStructure(w.store, w.clients.Keys, w.listed, w.unlinkedAt, w.clock, w.clientsQ, p, n);
    ListedIsLinked(w, n);
    ClosedRefs(w, p);
  }

  lemma ListedIsLinked(w: World, n: nat)
    requires StructureInv(w.store, w.clients.Keys, w.listed, w.unlinkedAt, w.clock, [ConnectionClosed(n)] + w.clientsQ)
    ensures Linked(w.store.slots, w.listed)
  {
  }

  lemma ClosedRefs(w: World, p: Ptr)
    requires RefsInv(w.store.slots, Carried(w), w.next) && Linked(w.store.slots, w.listed) && p in w.listed
    ensures RefsInv(Closed(w, p).store.slots, Carried(Closed(w, p)), w.next)
  {
    var v := Closed(w, p);
    forall k {:trigger Reference(k)} | Reference(k)
      ensures k in v.store.slots <==> k in w.store.slots
    {
      UnlinkedFrame(w.store.slots, w.listed, p, k);
      assert Get(v.store.slots, k) == Get(w.store.slots, k);
    }
    assert Carried(v) == Carried(w);
    LinksKeepRefs(w.store.slots, v.store.slots, Carried(w), w.next);
  }

  // ---------------------------------------------------------------- handlers that move transactions

  lemma {:induction false} ConsumerCarried(q: seq<AuthMessage>, transactions: Transactions, i: nat)
    requires i < |q| && Unprocessed(transactions, q[i].transaction)
    ensures InAuthQ(q, transactions)[Message(transactions[q[i].transaction].consumer.value)] >= 1
  {
    if i > 0 {
      ConsumerCarried(q[1..], transactions, i - 1);
    }
  }

  /** The two worlds differ in nothing the reference invariant looks at. */
  predicate Alike(w: World, v: World) {
    && v.store == w.store && v.clients.Keys == w.clients.Keys && v.listed == w.listed && v.unlinkedAt == w.unlinkedAt
    && v.clock == w.clock && v.clientsQ == w.clientsQ && v.next == w.next && Carried(v) == Carried(w)
  }

  lemma AlikeKeeps(w: World, v: World)
    requires ReferencesInv(w) && Alike(w, v)
    ensures ReferencesInv(v)
  {
  }

  lemma QueuedAreUnprocessed(q: seq<AuthMessage>, transactions: Transactions)
    requires QueueInv(q, transactions)
    ensures forall m :: m in q ==> Unprocessed(transactions, m.transaction)
    ensures q != [] ==> forall m :: m in q[1..] ==> m.transaction != q[0].transaction
  {
  }

  /** A new transaction does not disturb what the queued ones carry. */
  lemma SubmissionCarries(q: seq<AuthMessage>, transactions: Transactions, c: nat, n: nat, t: Tid)
    requires QueueInv(q, transactions) && t !in transactions
    ensures var more := transactions[t := Transaction(Processing, Some(n))];
      InAuthQ(q + [ProcessCredentials(c, t)], more) == InAuthQ(q, transactions) + multiset{Secret(c), Message(n)}
  {
    hide QueueInv, InAuthQ;
    var more := transactions[t := Transaction(Processing, Some(n))];
    QueuedAreUnprocessed(q, transactions);
    forall m | m in q
      ensures OfAuthMessage(m, more) == OfAuthMessage(m, transactions)
    {
      assert Unprocessed(transactions, m.transaction);
    }
    InAuthQSame(q, transactions, more);
    InAuthQAppend(q, ProcessCredentials(c, t), more);
  }

  lemma SubmittedHeld(held: multiset<Slot>, c: nat, n: nat)
    requires Secret(c) in held
    ensures held + multiset{Message(n)} - multiset{Message(n), Secret(c)} == held - multiset{Secret(c)}
    ensures held - multiset{Secret(c)} + multiset{Secret(c), Message(n)} == held + multiset{Message(n)}
  {
  }

  lemma SubmittedAlike(w: World, n: nat, c: nat, t: Tid)
    requires QueueInv(w.authQ, w.transactions) && Secret(c) in w.held && t !in w.transactions && LiveClient(w, n)
    ensures Alike(SharedClient(w, w.Of(n)), Submitted(w, n, c, t))
    ensures Submitted(w, n, c, t).held == w.held - multiset{Secret(c)}
  {
    hide QueueInv, InClientsQ, InServerQ, InAuthQ;
    SubmissionCarries(w.authQ, w.transactions, c, w.next, t);
    SubmittedHeld(w.held, c, w.next);
    assert Submitted(w, n, c, t).clients.Keys == w.clients.Keys;
  }

  /** The server queues a transaction with its own share of the client. */
  lemma SubmittedKeeps(w: World, n: nat, c: nat, t: Tid)
    requires ReferencesInv(w) && QueueInv(w.authQ, w.transactions)
    requires Secret(c) in w.held && t !in w.transactions && LiveClient(w, n)
    ensures ReferencesInv(Submitted(w, n, c, t))
    ensures Submitted(w, n, c, t).held == w.held - multiset{Secret(c)}
  {
    hide ReferencesInv, QueueInv, Alike, Submitted, SharedClient;
    SharedClientKeeps(w, w.Of(n));
    SubmittedAlike(w, n, c, t);
    AlikeKeeps(SharedClient(w, w.Of(n)), Submitted(w, n, c, t));
  }

  lemma FinishCarries(q: seq<AuthMessage>, transactions: Transactions, after: Transactions)
    requires QueueInv(q, transactions)
    requires forall t :: t in transactions && transactions[t].state != Done ==>
      t in after && after[t].consumer == transactions[t].consumer
    ensures InAuthQ(q, after) == InAuthQ(q, transactions)
  {
    hide QueueInv, InAuthQ;
    QueuedAreUnprocessed(q, transactions);
    forall m | m in q
      ensures OfAuthMessage(m, after) == OfAuthMessage(m, transactions)
    {
      assert Unprocessed(transactions, m.transaction);
    }
    InAuthQSame(q, transactions, after);
  }

  lemma FinishedAlike(w: World, t: Tid)
    requires QueueInv(w.authQ, w.transactions) && t in w.transactions
    ensures Alike(w, Finished(w, t))
  {
    hide QueueInv, InClientsQ, InServerQ, InAuthQ;
    FinishCarries(w.authQ, w.transactions, Finished(w, t).transactions);
  }

  lemma FinishedKeeps(w: World, t: Tid)
    requires ReferencesInv(w) && QueueInv(w.authQ, w.transactions) && t in w.transactions
    ensures ReferencesInv(Finished(w, t))
  {
    hide ReferencesInv, QueueInv, Alike, Finished;
    FinishedAlike(w, t);
    AlikeKeeps(w, Finished(w, t));
  }

  lemma ProcessingCarries(q: seq<AuthMessage>, transactions: Transactions, after: Transactions)
    requires QueueInv(q, transactions) && q != []
    requires forall t :: t != q[0].transaction && t in transactions ==> t in after && after[t] == transactions[t]
    ensures Unprocessed(transactions, q[0].transaction)
    ensures InAuthQ(q, transactions)
            == InAuthQ(q[1..], after) + multiset{Secret(q[0].c), Message(transactions[q[0].transaction].consumer.value)}
  {
    hide QueueInv;
    QueuedAreUnprocessed(q, transactions);
    assert q[0] in q;
    forall m | m in q[1..]
      ensures OfAuthMessage(m, after) == OfAuthMessage(m, transactions)
    {
      assert m in q;
    }
    RestUndisturbed(q, transactions, after);
  }

  lemma RestUndisturbed(q: seq<AuthMessage>, transactions: Transactions, after: Transactions)
    requires q != [] && Unprocessed(transactions, q[0].transaction)
    requires forall m :: m in q[1..] ==> OfAuthMessage(m, after) == OfAuthMessage(m, transactions)
    ensures InAuthQ(q, transactions)
            == InAuthQ(q[1..], after) + multiset{Secret(q[0].c), Message(transactions[q[0].transaction].consumer.value)}
  {
    InAuthQSame(q[1..], transactions, after);
  }

  /** The auth thread with the message's two references in hand. */
  ghost function Considering(w: World, transactions: Transactions): World
    requires w.authQ != [] && Unprocessed(w.transactions, w.authQ[0].transaction)
  {
    w.(authQ := w.authQ[1..], reading := false, transactions := transactions,
       held := w.held + multiset{Secret(w.authQ[0].c), Message(w.transactions[w.authQ[0].transaction].consumer.value)})
  }

  lemma ConsideringKeeps(w: World, transactions: Transactions)
    requires ReferencesInv(w) && QueueInv(w.authQ, w.transactions) && w.authQ != []
    requires forall t :: t != w.authQ[0].transaction && t in w.transactions ==>
      t in transactions && transactions[t] == w.transactions[t]
    ensures Unprocessed(w.transactions, w.authQ[0].transaction)
    ensures ReferencesInv(Considering(w, transactions))
  {
    hide ReferencesInv, QueueInv, InClientsQ, InServerQ, InAuthQ;
    ProcessingCarries(w.authQ, w.transactions, transactions);
    AlikeKeeps(w, Considering(w, transactions));
  }
}
