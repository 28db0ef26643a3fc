/** Step by step: the reference invariant is kept, and every pointer a step follows is live. */
module ServerReferenceSteps {
  import opened SharedPtr
  import opened ClientList
  import opened ServerWorld
  import opened ServerReferences
  import opened ServerTransactions
  import opened ServerSteps

  /** Between steps no handler holds anything. */
  ghost predicate AtRest(w: World) { ReferencesInv(w) && TransactionsInv(w) && w.held == multiset{} }

  // ---------------------------------------------------------------- what a step follows is live

  lemma CarriedIsLive(w: World, n: nat)
    requires ReferencesInv(w) && Carried(w)[Message(n)] > 0
    ensures LiveClient(w, n)
  {
  }

  lemma ClientsHeadLive(w: World)
    requires ReferencesInv(w) && w.clientsQ != [] && !w.clientsQ[0].OpenClient?
    ensures LiveClient(w, w.clientsQ[0].n)
    ensures w.clientsQ[0].ConnectionClosed? ==> w.Of(w.clientsQ[0].n) in w.listed
  {
    NoticeCarried(w.clientsQ, 0);
    CarriedIsLive(w, w.clientsQ[0].n);
    assert w.clientsQ[0].ConnectionClosed? ==> NoticeOf(w.store.slots, w.listed, w.clientsQ[0].n);
  }

  lemma ServerHeadLive(w: World)
    requires ReferencesInv(w) && w.serverQ != [] && !w.serverQ[0].FinishAuth?
    ensures LiveClient(w, w.serverQ[0].n)
  {
    assert InServerQ(w.serverQ)[Message(w.serverQ[0].n)] > 0;
    CarriedIsLive(w, w.serverQ[0].n);
  }

  lemma AuthHeadLive(w: World)
    requires ReferencesInv(w) && QueueInv(w.authQ, w.transactions) && w.authQ != []
    ensures Unprocessed(w.transactions, w.authQ[0].transaction)
    ensures LiveClient(w, w.transactions[w.authQ[0].transaction].consumer.value)
    ensures LiveSecret(w, w.authQ[0].c)
  {
    assert Unprocessed(w.transactions, w.authQ[0].transaction);
    SecretCarried(w);
    ConsumerCarried(w.authQ, w.transactions, 0);
    CarriedIsLive(w, w.transactions[w.authQ[0].transaction].consumer.value);
  }

  lemma SecretCarried(w: World)
    requires ReferencesInv(w) && w.authQ != []
    ensures LiveSecret(w, w.authQ[0].c)
  {
    assert InAuthQ(w.authQ, w.transactions)[Secret(w.authQ[0].c)] > 0;
  }

  lemma FinishIsDue(q: seq<ServerMessage>, transactions: Transactions)
    requires FinishInv(q, transactions) && q != [] && q[0].FinishAuth? && q[0].transaction.Some?
    ensures Finishable(transactions, q[0].transaction.value)
  {
  }

  lemma ConnectionLive(w: World, p: Ptr)
    requires ReferencesInv(w) && Connection(p) in w.store.slots
    ensures p in w.clients && p in w.store.counts && w.store.slots[Connection(p)] == p
  {
  }

  /** No step follows a dangling pointer: not to a client, not to credentials, not to a transaction. */
  lemma StepIsSafe(w: World, step: Step)
    requires AtRest(w) && Proceeds(w, step)
    ensures Safe(w, step)
  {
    hide ReferencesInv, QueueInv, FinishInv, OwnerInv;
    match step
    case AcceptConnection =>
    case ConnectionDelivers(p, _) => ConnectionLive(w, p);
    case ConnectionCloses(p) => ConnectionLive(w, p);
    case ClientsHandle(_, _) =>
      if !w.clientsQ[0].OpenClient? {
        ClientsHeadLive(w);
        var p := w.Of(w.clientsQ[0].n);
        if Credentials(p) in w.store.slots {
          CredentialsLive(w, p);
        }
      }
    case ServerHandle(_) =>
      if w.serverQ[0].FinishAuth? {
        FinishIsDue(w.serverQ, w.transactions);
      } else {
        ServerHeadLive(w);
      }
    case AuthReads => AuthHeadLive(w);
    case AuthHandle(_) => AuthHeadLive(w);
  }

  // ---------------------------------------------------------------- the connections' callbacks

  lemma DeliversKeeps(w: World, p: Ptr, kind: EventKind)
    requires ReferencesInv(w) && w.held == multiset{} && Proceeds(w, ConnectionDelivers(p, kind)) && Safe(w, ConnectionDelivers(p, kind))
    ensures ReferencesInv(Handled(w, ConnectionDelivers(p, kind)))
    ensures Handled(w, ConnectionDelivers(p, kind)).held == multiset{}
  {
    hide ReferencesInv;
    ConnectionLive(w, p);
    SharedClientKeeps(w, p);
    PutClientsKeeps(SharedClient(w, p), IncomingEvent(kind, w.next));
  }

  /** The callback queues its notice before it releases the connection's own reference; the order does not
      matter to where it ends. */
  lemma ClosesCommutes(w: World, p: Ptr)
    requires Proceeds(w, ConnectionCloses(p)) && Safe(w, ConnectionCloses(p)) && w.held == multiset{}
    ensures var a := SharedClient(w, p);
      After(w, ConnectionCloses(p)) == PutClients(WithStore(a, Release(a.store, Connection(p))), ConnectionClosed(w.next))
    ensures After(w, ConnectionCloses(p)).held == multiset{}
  {
  }

  lemma ReleasedConnectionGone(s: Store, p: Ptr, n: nat)
    requires s.Counted() && Connection(p) in s.slots
    ensures var t := Release(s, Connection(p));
      && Connection(p) !in t.slots
      && forall j: Slot :: j.Message? ==> Get(t.slots, j) == Get(s.slots, j)
  {
    hide Store.Counted, Shrinks;
    assert Releases(s, Connection(p), Release(s, Connection(p)));
    ReleasedKeepsMessages(s, Connection(p), Release(s, Connection(p)));
  }

  lemma ReleasedKeepsMessages(s: Store, k: Slot, t: Store)
    requires Releases(s, k, t) && !k.Message?
    ensures forall j: Slot :: j.Message? ==> Get(t.slots, j) == Get(s.slots, j)
  {
  }

  /** A client whose connection is open has no notice queued yet. */
  lemma NoNoticeYet(slots: Slots, listed: seq<Ptr>, q: seq<ClientsMessage>, p: Ptr)
    requires ConnectionInv(slots, listed, q) && Connection(p) in slots
    ensures p in listed
    ensures forall i :: 0 <= i < |q| && q[i].ConnectionClosed? ==> Message(q[i].n) in slots && slots[Message(q[i].n)] != p
  {
  }

  lemma NoticeIsNew(w: World, p: Ptr)
    requires ReferencesInv(w) && Connection(p) in w.store.slots
    ensures p in w.clients
    ensures var a := SharedClient(w, p);
      NewNotice(Release(a.store, Connection(p)).slots, w.listed, w.clientsQ, w.next)
  {
    hide ReferencesInv, ConnectionInv, Store.Counted, Linked, Release;
    ConnectionLive(w, p);
    NextIsFree(w);
    SharedCounted(w.store, p, Message(w.next));
    ReleasedConnectionGone(SharedClient(w, p).store, p, w.next);
    NoticesKept(w);
    NoNoticeYet(w.store.slots, w.listed, w.clientsQ, p);
    FreshNotice(w.store.slots, Release(SharedClient(w, p).store, Connection(p)).slots, w.listed, w.clientsQ, p, w.next);
  }

  lemma NoticesKept(w: World)
    requires ReferencesInv(w)
    ensures ConnectionInv(w.store.slots, w.listed, w.clientsQ)
  {
  }

  lemma FreshNotice(slots: Slots, after: Slots, listed: seq<Ptr>, q: seq<ClientsMessage>, p: Ptr, n: nat)
    requires p in listed && Connection(p) !in after && Message(n) !in slots
    requires forall j: Slot :: j.Message? ==> Get(after, j) == Get(slots[Message(n) := p], j)
    requires forall i :: 0 <= i < |q| && q[i].ConnectionClosed? ==> Message(q[i].n) in slots && slots[Message(q[i].n)] != p
    ensures NewNotice(after, listed, q, n)
  {
    assert Get(after, Message(n)) == Some(p);
    forall i | 0 <= i < |q| && q[i].ConnectionClosed?
      ensures Get(after, Message(q[i].n)) != Get(after, Message(n))
    {
      assert Get(after, Message(q[i].n)) == Some(slots[Message(q[i].n)]);
    }
  }

  lemma ClosesKeeps(w: World, p: Ptr)
    requires ReferencesInv(w) && w.held == multiset{} && Proceeds(w, ConnectionCloses(p)) && Safe(w, ConnectionCloses(p))
    ensures ReferencesInv(After(w, ConnectionCloses(p))) && After(w, ConnectionCloses(p)).held == multiset{}
  {
    hide ReferencesInv;
    ClosesCommutes(w, p);
    NoticeIsNew(w, p);
    SharedClientKeeps(w, p);
    var a := SharedClient(w, p);
    ReleasedKeeps(a, Connection(p));
    PutClientsKeeps(WithStore(a, Release(a.store, Connection(p))), ConnectionClosed(w.next));
  }

  // ---------------------------------------------------------------- the client module

  /** A handler that leaves the invariant in order, and in hand only the reference it gives up last. */
  ghost predicate LeavesOnly(v: World, k: Slot) {
    ReferencesInv(v) && v.held == multiset{k}
  }

  lemma OpenedHolds(w: World, p: Ptr, c: Ptr)
    ensures Opened(w, p, c).held == w.held + multiset{Message(w.next)}
  {
    hide Created, Shared, Appended, Recounted;
  }

  lemma OpenClientKeeps(w: World, p: Ptr, c: Ptr)
    requires ReferencesInv(w) && w.held == multiset{} && Proceeds(w, ClientsHandle(p, c)) && Safe(w, ClientsHandle(p, c))
    requires w.clientsQ[0].OpenClient?
    ensures LeavesOnly(Handled(w, ClientsHandle(p, c)), Message(w.next))
  {
    hide ReferencesInv, Opened, Shared;
    OpenedHolds(TakenClients(w), p, c);
    TakenClientsKeeps(w);
    OpenedKeeps(TakenClients(w), p, c);
    AuthStartedKeeps(Opened(TakenClients(w), p, c), p);
  }

  lemma HistoryIrrelevant(w: World, v: World)
    requires ReferencesInv(w) && v == w.(admitted := v.admitted)
    ensures ReferencesInv(v)
  {
  }

  lemma AdvisedKeeps(w: World, p: Ptr, advice: AuthStep)
    requires ReferencesInv(w) && p in w.clients
    ensures ReferencesInv(Advised(w, p, advice)) && Advised(w, p, advice).held == w.held
  {
    hide ReferencesInv;
    var stated := WithClient(w, p, Client(StateAfter(advice), None)).(
      admitted := if advice == Authenticated then w.admitted + {p} else w.admitted);
    WithClientKeeps(w, p, Client(StateAfter(advice), None));
    HistoryIrrelevant(WithClient(w, p, Client(StateAfter(advice), None)), stated);
    if advice == Authenticated {
      ReleasedKeeps(stated, Credentials(p));
    }
    var cleared := if advice == Authenticated then WithStore(stated, Release(w.store, Credentials(p))) else stated;
    PutServerKeeps(cleared, FinishAuth(w.clients[p].transaction));
  }

  lemma ProcessedKeeps(w: World, p: Ptr, kind: EventKind)
    requires ReferencesInv(w) && p in w.clients
    requires StartsLogin(w.clients[p].state, kind) ==> HasCredentials(w, p)
    ensures ReferencesInv(Processed(w, p, kind)) && Processed(w, p, kind).held == w.held
  {
    hide ReferencesInv;
    var client := w.clients[p].(state := StateOnEvent(w.clients[p].state, kind));
    WithClientKeeps(w, p, client);
    if StartsLogin(w.clients[p].state, kind) {
      AuthStartedKeeps(WithClient(w, p, client), p);
    }
  }

  lemma TakenNoticeCloses(w: World)
    requires ReferencesInv(w) && w.clientsQ != [] && w.clientsQ[0].ConnectionClosed?
    requires LiveClient(w, w.clientsQ[0].n) && w.Of(w.clientsQ[0].n) in w.listed
    ensures ReferencesInv(Closed(TakenClients(w), w.Of(w.clientsQ[0].n)))
  {
    hide StructureInv, RefsInv, Closed;
    var n := w.clientsQ[0].n;
    assert Carried(TakenClients(w)) == Carried(w);
    assert [ConnectionClosed(n)] + w.clientsQ[1..] == w.clientsQ;
    ClosedKeeps(TakenClients(w), n, w.Of(n));
  }

  lemma ClientsHandleKeeps(w: World, step: Step)
    requires ReferencesInv(w) && w.held == multiset{} && step.ClientsHandle? && Proceeds(w, step) && Safe(w, step)
    ensures LeavesOnly(Handled(w, step), GivenUp(w, step).value)
  {
    hide ReferencesInv;
    var m := w.clientsQ[0];
    TakenClientsKeeps(w);
    match m
    case OpenClient => OpenClientKeeps(w, step.newClient, step.newCredentials);
    case AuthEvent(advice, n) => AdvisedKeeps(TakenClients(w), w.Of(n), advice);
    case IncomingEvent(kind, n) => ProcessedKeeps(TakenClients(w), w.Of(n), kind);
    case ConnectionClosed(n) => TakenNoticeCloses(w);
  }

  // ---------------------------------------------------------------- the server and auth modules

  lemma StartAuthKeeps(w: World, t: Tid)
    requires ReferencesInv(w) && QueueInv(w.authQ, w.transactions) && w.held == multiset{}
    requires Proceeds(w, ServerHandle(t)) && Safe(w, ServerHandle(t)) && w.serverQ[0].StartAuth?
    ensures LeavesOnly(Handled(w, ServerHandle(t)), Message(w.serverQ[0].n))
  {
    hide ReferencesInv;
    TakenServerKeeps(w);
    assert TakenServer(w).held == multiset{Message(w.serverQ[0].n), Secret(w.serverQ[0].c)};
    SubmittedKeeps(TakenServer(w), w.serverQ[0].n, w.serverQ[0].c, t);
  }

  lemma FinishedHeld(w: World, t: Tid)
    requires t in w.transactions
    ensures Finished(w, t).held == w.held
  {
  }

  lemma ServerPassesOn(w: World, t: Tid)
    requires ReferencesInv(w) && QueueInv(w.authQ, w.transactions) && w.held == multiset{}
    requires Proceeds(w, ServerHandle(t)) && Safe(w, ServerHandle(t)) && !w.serverQ[0].StartAuth?
    ensures ReferencesInv(Handled(w, ServerHandle(t))) && Handled(w, ServerHandle(t)).held == multiset{}
  {
    hide ReferencesInv, QueueInv, Finished;
    TakenServerKeeps(w);
    match w.serverQ[0]
    case FinishAuth(transaction) =>
      FinishedHeld(TakenServer(w), transaction.value);
      FinishedKeeps(TakenServer(w), transaction.value);
    case AuthResult(advice, n) => PutClientsKeeps(TakenServer(w), AuthEvent(advice, n));
  }

  lemma DecidedCancelled(w: World, result: AuthStep)
    requires ReferencesInv(w) && QueueInv(w.authQ, w.transactions) && w.held == multiset{} && w.authQ != []
    requires Unprocessed(w.transactions, w.authQ[0].transaction) && w.transactions[w.authQ[0].transaction].state == Cancelled
    ensures LeavesOnly(Decided(w, result), Secret(w.authQ[0].c))
  {
    hide ReferencesInv, QueueInv;
    var t := w.authQ[0].transaction;
    ConsideringKeeps(w, w.transactions - {t});
    DroppedKeeps(Considering(w, w.transactions - {t}), Message(w.transactions[t].consumer.value));
  }

  lemma DecidedDone(w: World, result: AuthStep)
    requires ReferencesInv(w) && QueueInv(w.authQ, w.transactions) && w.held == multiset{} && w.authQ != []
    requires Unprocessed(w.transactions, w.authQ[0].transaction) && w.transactions[w.authQ[0].transaction].state != Cancelled
    ensures LeavesOnly(Decided(w, result), Secret(w.authQ[0].c))
  {
    hide ReferencesInv, QueueInv;
    var t := w.authQ[0].transaction;
    var after := w.transactions[t := Transaction(Done, None)];
    ConsideringKeeps(w, after);
    PutServerKeeps(Considering(w, after), AuthResult(result, w.transactions[t].consumer.value));
  }

  // ---------------------------------------------------------------- every step

  /** What a handler other than the close callback leaves behind before its last release. */
  ghost predicate Tidy(w: World, step: Step)
    requires Proceeds(w, step) && Safe(w, step)
  {
    && ReferencesInv(Handled(w, step))
    && Handled(w, step).held == if GivenUp(w, step).Some? then multiset{GivenUp(w, step).value} else multiset{}
  }

  lemma HandlingIsTidy(w: World, step: Step)
    requires AtRest(w) && Proceeds(w, step) && Safe(w, step) && !step.ConnectionCloses?
    ensures Tidy(w, step)
  {
    hide ReferencesInv, QueueInv, FinishInv, OwnerInv, LeavesOnly;
    match step
    case AcceptConnection => AcceptKeeps(w);
    case ConnectionDelivers(p, kind) => DeliversKeeps(w, p, kind);
    case ClientsHandle(_, _) =>
      ClientsHandleKeeps(w, step);
      LeavingOnlyIsTidy(w, step);
    case ServerHandle(t) =>
      if w.serverQ[0].StartAuth? {
        StartAuthKeeps(w, t);
        LeavingOnlyIsTidy(w, step);
      } else {
        ServerPassesOn(w, t);
      }
    case AuthReads => ReadingIsIrrelevant(w);
    case AuthHandle(result) =>
      AuthHeadLive(w);
      if w.transactions[w.authQ[0].transaction].state == Cancelled {
        DecidedCancelled(w, result);
      } else {
        DecidedDone(w, result);
      }
      LeavingOnlyIsTidy(w, step);
  }

  lemma ReadingIsIrrelevant(w: World)
    requires ReferencesInv(w)
    ensures ReferencesInv(w.(reading := true))
  {
    hide InClientsQ, InServerQ, InAuthQ;
    AlikeKeeps(w, w.(reading := true));
  }

  lemma AcceptKeeps(w: World)
    requires ReferencesInv(w) && w.held == multiset{}
    ensures ReferencesInv(Handled(w, AcceptConnection)) && Handled(w, AcceptConnection).held == multiset{}
  {
    hide ReferencesInv;
    PutClientsKeeps(w, OpenClient);
  }

  lemma LeavingOnlyIsTidy(w: World, step: Step)
    requires Proceeds(w, step) && Safe(w, step) && GivenUp(w, step).Some?
    requires LeavesOnly(Handled(w, step), GivenUp(w, step).value)
    ensures Tidy(w, step)
  {
    hide ReferencesInv, Handled;
  }

  lemma StepKeepsReferences(w: World, step: Step)
    requires AtRest(w) && Proceeds(w, step) && Safe(w, step)
    ensures ReferencesInv(After(w, step)) && After(w, step).held == multiset{}
  {
    hide ReferencesInv;
    if step.ConnectionCloses? {
      ClosesKeeps(w, step.p);
    } else {
      HandlingIsTidy(w, step);
      if GivenUp(w, step).Some? {
        DroppedKeeps(Handled(w, step), GivenUp(w, step).value);
      }
    }
  }
}
