/** The server over whole runs: what holds in every reachable state, whatever the clients send. */
module ServerRuns {
  import opened SharedPtr
  import opened ClientList
  import opened ServerWorld
  import opened ServerReferences
  import opened ServerTransactions
  import opened ServerSteps
  import opened ServerReferenceSteps
  import opened ServerTransactionSteps
  import opened ServerPinning

  ghost predicate Inv(w: World) { AtRest(w) && PinnedInv(w) }

  // ---------------------------------------------------------------- pinning, step by step

  lemma ClientsHandlePinned(w: World, step: Step)
    requires Inv(w) && step.ClientsHandle? && Proceeds(w, step) && Safe(w, step)
    ensures PinnedInv(Handled(w, step))
  {
    hide ReferencesInv, PinnedInv;
    NextIsFree(w);
    match w.clientsQ[0]
    case OpenClient =>
      TakenClientsPinned(w);
      OpenClientPinned(TakenClients(w), step.newClient, step.newCredentials);
    case AuthEvent(advice, n) => AdvisedPinned(w, n, advice);
    case IncomingEvent(kind, n) =>
      TakenClientsPinned(w);
      ProcessedPinned(TakenClients(w), w.Of(n), kind);
    case ConnectionClosed(n) =>
      TakenClientsPinned(w);
      ClosedPinned(TakenClients(w), w.Of(n));
  }

  lemma DecidedPinned(w: World, result: AuthStep)
    requires Inv(w) && Proceeds(w, AuthHandle(result)) && Safe(w, AuthHandle(result))
    ensures PinnedInv(Decided(w, result))
  {
    hide ReferencesInv, TransactionsInv, PinnedInv;
    AuthHeadUnprocessed(w);
    ConsideringPinned(w, result);
    var t := w.authQ[0].transaction;
    if w.transactions[t].state == Cancelled {
      CancelledKeeps(w);
      DroppedSpares(Considering(w, w.transactions - {t}), Message(w.transactions[t].consumer.value));
    }
  }

  lemma CancelledKeeps(w: World)
    requires AtRest(w) && w.authQ != [] && Unprocessed(w.transactions, w.authQ[0].transaction)
    requires w.transactions[w.authQ[0].transaction].state == Cancelled
    ensures var v := Considering(w, w.transactions - {w.authQ[0].transaction});
      ReferencesInv(v) && TransactionsInv(v)
  {
    hide ReferencesInv;
    ConsideringKeeps(w, w.transactions - {w.authQ[0].transaction});
    ConsideringKeepsTransactions(w);
  }

  /** The handler's last release destroys no client that is being logged in, and keeps the rest pinned. */
  lemma DroppedSpares(w: World, k: Slot)
    requires ReferencesInv(w) && TransactionsInv(w) && PinnedInv(w) && k in w.held
    ensures PinnedInv(Dropped(w, k))
    ensures forall p :: p in w.clients && Awaiting(w.clients[p]) ==> p in Dropped(w, k).clients
  {
    hide ReferencesInv, PinnedInv;
    HeldFacts(w, k);
    ReleaseKeepsVouchers(w, k, Dropped(w, k));
    ReleaseSpares(w, k, Dropped(w, k));
    PinnedStill(w, Dropped(w, k));
  }

  lemma HeldFacts(w: World, k: Slot)
    requires ReferencesInv(w) && TransactionsInv(w) && k in w.held
    ensures w.store.Counted()
    ensures forall m :: m in w.clientsQ && m.AuthEvent? ==> k != Message(m.n)
    ensures forall m :: m in w.serverQ && Announces(m) ==> k != Message(m.n)
    ensures forall t :: Standing(w, t) ==> k != Message(w.transactions[t].consumer.value)
  {
    HeldVouchesForNobody(w, k);
  }

  lemma ServerHandlePinned(w: World, t: Tid)
    requires Inv(w) && Proceeds(w, ServerHandle(t)) && Safe(w, ServerHandle(t))
    ensures PinnedInv(Handled(w, ServerHandle(t)))
  {
    hide ReferencesInv, PinnedInv;
    NextIsFree(w);
    match w.serverQ[0]
    case StartAuth(_, _) => SubmittedPinned(w, t);
    case FinishAuth(_) => FinishedPinned(w);
    case AuthResult(_, _) => AuthResultPinned(w);
  }

  lemma ReadingPinned(w: World)
    requires PinnedInv(w)
    ensures PinnedInv(w.(reading := true))
  {
    PinnedStill(w, w.(reading := true));
  }

  lemma AcceptPinned(w: World)
    requires PinnedInv(w)
    ensures PinnedInv(w.(clientsQ := w.clientsQ + [OpenClient]))
  {
  }

  lemma HandlingPinned(w: World, step: Step)
    requires Inv(w) && Proceeds(w, step) && Safe(w, step)
    ensures PinnedInv(Handled(w, step))
  {
    hide ReferencesInv, TransactionsInv, PinnedInv;
    NextIsFree(w);
    match step
    case AcceptConnection => AcceptPinned(w);
    case ConnectionDelivers(p, kind) => CallbackPinned(w, p, IncomingEvent(kind, w.next));
    case ConnectionCloses(p) => CallbackPinned(w, p, ConnectionClosed(w.next));
    case ClientsHandle(_, _) => ClientsHandlePinned(w, step);
    case ServerHandle(t) => ServerHandlePinned(w, t);
    case AuthReads => ReadingPinned(w);
    case AuthHandle(result) => DecidedPinned(w, result);
  }

  /** Giving up the connection's reference takes nothing from the vouchers. */
  lemma CloseSpares(w: World, p: Ptr)
    requires w.store.Counted() && PinnedInv(w)
    ensures PinnedInv(Dropped(w, Connection(p)))
    ensures forall r :: r in w.clients && Awaiting(w.clients[r]) ==> r in Dropped(w, Connection(p)).clients
  {
    hide PinnedInv;
    var k := Connection(p);
    ReleaseKeepsVouchers(w, k, Dropped(w, k));
    ReleaseSpares(w, k, Dropped(w, k));
    PinnedStill(w, Dropped(w, k));
  }

  lemma LastReleaseSpares(w: World, step: Step)
    requires Inv(w) && Proceeds(w, step) && Safe(w, step)
    ensures PinnedInv(After(w, step))
    ensures forall p :: p in Handled(w, step).clients && Awaiting(Handled(w, step).clients[p]) ==>
      p in After(w, step).clients
  {
    hide ReferencesInv, TransactionsInv, PinnedInv;
    HandlingPinned(w, step);
    HandlingKeepsTransactions(w, step);
    if step.ConnectionCloses? {
      CallbackKeepsTransactions(w, step.p, ConnectionClosed(w.next));
      CloseSpares(Handled(w, step), step.p);
    } else {
      HandlingIsTidy(w, step);
      if GivenUp(w, step).Some? {
        DroppedSpares(Handled(w, step), GivenUp(w, step).value);
      }
    }
  }

  lemma StepKeepsInv(w: World, step: Step)
    requires Inv(w) && Proceeds(w, step)
    ensures Safe(w, step) && Inv(After(w, step))
  {
    hide AtRest, PinnedInv;
    StepIsSafe(w, step);
    StepKeepsRest(w, step);
    LastReleaseSpares(w, step);
  }

  lemma InitialInv()
    ensures Inv(Initial())
  {
  }

  lemma {:induction false} RunKeepsInv(w: World, steps: seq<Step>, v: World)
    requires Inv(w) && Run(w, steps, v)
    ensures Inv(v)
    decreases |steps|
  {
    hide Inv;
    if steps != [] {
      StepKeepsInv(w, steps[0]);
      RunKeepsInv(After(w, steps[0]), steps[1..], v);
    }
  }

  lemma ReachableInv(w: World)
    requires Reachable(w)
    ensures Inv(w)
  {
    InitialInv();
    var steps :| Run(Initial(), steps, w);
    RunKeepsInv(Initial(), steps, w);
  }

  // ---------------------------------------------------------------- the theorems

  /** In every reachable state each count is the number of holders: the list's ends and links (those of
      clients taken off the list too), the connections, and one per reference carried by a queued message
      or transaction; and everything allocated has a holder. */
  lemma CountsAreHolders(w: World)
    requires Reachable(w)
    ensures forall p :: p in w.store.counts ==> w.store.counts[p] == |Holding(w.store.slots, p)| > 0
    ensures forall k :: k in w.store.slots ==> w.store.slots[k] in w.store.counts
    ensures forall k :: k in w.store.slots && Reference(k) <==>
      k in InClientsQ(w.clientsQ) + InServerQ(w.serverQ) + InAuthQ(w.authQ, w.transactions)
    ensures forall k :: (InClientsQ(w.clientsQ) + InServerQ(w.serverQ) + InAuthQ(w.authQ, w.transactions))[k] <= 1
  {
    ReachableInv(w);
    assert Carried(w) == InClientsQ(w.clientsQ) + InServerQ(w.serverQ) + InAuthQ(w.authQ, w.transactions);
  }

  /** No step follows a dangling pointer: any that can be taken either goes wrong in one of the ways told
      apart by `Faults`, or goes on to a reachable state. This is about the machine's pointers; what it leaves
      out can stop the code too. */
  lemma NoUseAfterFree(w: World, step: Step)
    requires Reachable(w) && Enabled(w, step)
    ensures Faults(w, step) || (Safe(w, step) && Reachable(After(w, step)))
  {
    hide Inv;
    if !Faults(w, step) {
      ReachableInv(w);
      StepKeepsInv(w, step);
      var steps :| Run(Initial(), steps, w);
      RunExtends(Initial(), steps, w, step);
    }
  }

  lemma {:induction false} RunExtends(w: World, steps: seq<Step>, v: World, step: Step)
    requires Run(w, steps, v) && Proceeds(v, step) && Safe(v, step)
    ensures Run(w, steps + [step], After(v, step))
    decreases |steps|
  {
    if steps == [] {
      assert [step][1..] == [];
    } else {
      assert (steps + [step])[1..] == steps[1..] + [step];
      RunExtends(After(w, steps[0]), steps[1..], v, step);
    }
  }

  /** The list is properly linked in both directions and holds only live clients. */
  lemma ListIsLinked(w: World)
    requires Reachable(w)
    ensures Linked(w.store.slots, w.listed)
    ensures forall p :: p in w.listed ==> p in w.clients && p in w.store.counts
  {
    ReachableInv(w);
  }

  lemma Earliest(unlinkedAt: map<Ptr, nat>, p: Ptr) returns (q: Ptr)
    requires p in unlinkedAt
    ensures q in unlinkedAt && unlinkedAt[q] <= unlinkedAt[p]
    ensures forall r :: r in unlinkedAt ==> unlinkedAt[q] <= unlinkedAt[r]
    decreases unlinkedAt[p]
  {
    if r :| r in unlinkedAt && unlinkedAt[r] < unlinkedAt[p] {
      q := Earliest(unlinkedAt, r);
    } else {
      q := p;
    }
  }

  /** No cycle of references survives unlinking: as long as any client taken off the list is still
      allocated, some such client is held by a message or transaction in flight. So once nothing in
      flight refers to an unlinked client, every one of them has been freed. */
  lemma NoCycleSurvives(w: World, p: Ptr) returns (k: Slot)
    requires Reachable(w) && p in w.clients && p !in w.listed
    ensures k in w.store.slots && k.Message? && w.store.slots[k] in w.clients && w.store.slots[k] !in w.listed
  {
    hide TransactionsInv, PinnedInv, RefsInv, Linked;
    ReachableInv(w);
    var q := Earliest(w.unlinkedAt, p);
    assert q in w.store.counts && w.store.counts[q] > 0;
    k :| k in Holding(w.store.slots, q);
    if k.Head? || k.Tail? || ((k.Prev? || k.Next?) && k.owner in w.listed) {
      LinkedTargets(w.store.slots, w.listed, k);
    }
  }

  lemma LinkedTargets(slots: Slots, listed: seq<Ptr>, k: Slot)
    requires Linked(slots, listed) && k in slots
    requires k.Head? || k.Tail? || ((k.Prev? || k.Next?) && k.owner in listed)
    ensures slots[k] in listed
  {
  }

  /** With the queues drained, exactly the listed clients are allocated. */
  lemma NothingLeaksWhenQuiet(w: World)
    requires Reachable(w) && w.clientsQ == [] && w.serverQ == [] && w.authQ == []
    ensures forall p :: p in w.clients <==> p in w.listed
  {
    ReachableInv(w);
    assert Carried(w) == multiset{};
    forall p | p in w.clients
      ensures p in w.listed
    {
      if p !in w.listed {
        var _ := NoCycleSurvives(w, p);
      }
    }
  }

  /** A client being logged in, or with a transaction of its own, is referred to by something in flight that
      will report an outcome, and so is alive. */
  lemma LoginIsPinned(w: World, p: Ptr)
    requires Reachable(w) && p in w.clients && Awaiting(w.clients[p])
    ensures Vouched(w, p) && p in w.store.counts
  {
    ReachableInv(w);
  }

  // ---------------------------------------------------------------- destruction

  /** What holds nothing goes alone. */
  lemma LeafRelease(s: Store, k: Slot)
    requires s.Counted() && k in s.slots
    requires var c := s.slots[k]; Prev(c) !in s.slots && Next(c) !in s.slots && Credentials(c) !in s.slots
    ensures s.counts.Keys - {s.slots[k]} <= Release(s, k).counts.Keys
  {
    hide Store.Counted, Shrinks;
    ForgottenCounted(s, k);
  }

  /** Credentials hold nothing, so releasing them frees no client. */
  lemma SecretReleaseSparesClients(s: Store, clients: set<Ptr>, k: Slot)
    requires HeapInv(s, clients) && (k.Credentials? || k.Secret?)
    ensures clients <= Release(s, k).counts.Keys
  {
    if k in s.slots {
      ForgottenCounted(s, k);
      assert s.slots[k] !in clients;
      LeafRelease(s, k);
    }
  }

  /** What a client's record last was, when a step destroys it. */
  ghost function LastRecord(w: World, step: Step, p: Ptr): Client
    requires Proceeds(w, step) && Safe(w, step) && p in w.clients
  {
    if p in Handled(w, step).clients then Handled(w, step).clients[p] else w.clients[p]
  }

  lemma HandlingSpares(w: World, step: Step)
    requires Inv(w) && Proceeds(w, step) && Safe(w, step)
    ensures forall p :: p in w.clients && Awaiting(w.clients[p]) ==> p in Handled(w, step).clients
  {
    hide Inv, PinnedInv, TransactionsInv;
    if step.AuthHandle? {
      DecidedSpares(w, step.result);
    } else if step.ClientsHandle? && w.clientsQ[0].AuthEvent? {
      AdvisedSpares(w, w.Of(w.clientsQ[0].n), w.clientsQ[0].step);
    }
  }

  lemma AdvisedSpares(w: World, p: Ptr, advice: AuthStep)
    requires Inv(w) && w.clientsQ != [] && p in w.clients
    ensures w.clients.Keys <= Advised(TakenClients(w), p, advice).clients.Keys
  {
    SecretReleaseSparesClients(w.store, w.clients.Keys, Credentials(p));
  }

  lemma DecidedSpares(w: World, result: AuthStep)
    requires Inv(w) && Proceeds(w, AuthHandle(result)) && Safe(w, AuthHandle(result))
    ensures forall p :: p in w.clients && Awaiting(w.clients[p]) ==> p in Decided(w, result).clients
  {
    hide ReferencesInv, TransactionsInv, PinnedInv;
    AuthHeadUnprocessed(w);
    ConsideringPinned(w, result);
    var t := w.authQ[0].transaction;
    if w.transactions[t].state == Cancelled {
      CancelledKeeps(w);
      DroppedSpares(Considering(w, w.transactions - {t}), Message(w.transactions[t].consumer.value));
    }
  }

  /** Only a connection's own last callback gives up the reference it holds. */
  lemma ConnectionSurvives(w: World, step: Step, p: Ptr)
    requires Inv(w) && Proceeds(w, step) && Safe(w, step)
    requires Connection(p) in w.store.slots && step != ConnectionCloses(p)
    ensures Connection(p) in After(w, step).store.slots
  {
    hide ReferencesInv, TransactionsInv, PinnedInv, Handled, Release;
    HandledKeepsConnection(w, step, p);
    if GivenUp(w, step).Some? {
      ReleaseKeepsConnection(Handled(w, step).store, GivenUp(w, step).value, p);
    }
  }

  lemma ReleaseKeepsConnection(s: Store, k: Slot, p: Ptr)
    requires Connection(p) in s.slots && k != Connection(p)
    ensures Connection(p) in Release(s, k).slots
  {
    if s.Counted() {
      assert Releases(s, k, Release(s, k));
    }
  }

  lemma HandledKeepsConnection(w: World, step: Step, p: Ptr)
    requires Inv(w) && Proceeds(w, step) && Safe(w, step) && Connection(p) in w.store.slots
    ensures Connection(p) in Handled(w, step).store.slots
  {
    hide ReferencesInv, TransactionsInv, PinnedInv;
    if step.ClientsHandle? {
      ClientsKeepConnection(w, step, p);
    } else if step.AuthHandle? {
      DecidedKeepsConnection(w, step.result, p);
    }
  }

  lemma DecidedKeepsConnection(w: World, result: AuthStep, p: Ptr)
    requires Proceeds(w, AuthHandle(result)) && Safe(w, AuthHandle(result)) && Connection(p) in w.store.slots
    ensures Connection(p) in Decided(w, result).store.slots
  {
    ReleaseKeepsConnection(w.store, Message(w.transactions[w.authQ[0].transaction].consumer.value), p);
  }

  lemma ClientsKeepConnection(w: World, step: Step, p: Ptr)
    requires Inv(w) && step.ClientsHandle? && Proceeds(w, step) && Safe(w, step) && Connection(p) in w.store.slots
    ensures Connection(p) in Handled(w, step).store.slots
  {
    hide ReferencesInv, TransactionsInv, PinnedInv, Opened, Closed, Advised, Store.Counted, Linked;
    NextIsFree(w);
    match w.clientsQ[0]
    case OpenClient => OpenedKeepsConnection(TakenClients(w), step.newClient, step.newCredentials, p);
    case AuthEvent(advice, n) => AdvisedKeepsConnection(TakenClients(w), w.Of(n), advice, p);
    case IncomingEvent(_, _) =>
    case ConnectionClosed(n) => ClosedKeepsConnection(TakenClients(w), w.Of(n), p);
  }

  lemma AdvisedKeepsConnection(w: World, p: Ptr, advice: AuthStep, r: Ptr)
    requires p in w.clients && Connection(r) in w.store.slots
    ensures Connection(r) in Advised(w, p, advice).store.slots
  {
    hide Release;
    ReleaseKeepsConnection(w.store, Credentials(p), r);
  }

  lemma ClosedKeepsConnection(w: World, p: Ptr, r: Ptr)
    requires Linked(w.store.slots, w.listed) && p in w.listed && Connection(r) in w.store.slots
    ensures Connection(r) in Closed(w, p).store.slots
  {
    hide Linked, Unlinked;
    UnlinkedFrame(w.store.slots, w.listed, p, Connection(r));
    assert Get(Unlinked(w.store.slots, p), Connection(r)).Some?;
  }

  lemma OpenedKeepsConnection(w: World, p: Ptr, c: Ptr, r: Ptr)
    requires Connection(r) in w.store.slots
    ensures Connection(r) in Opened(w, p, c).store.slots
    ensures HasCredentials(Opened(w, p, c), p) ==> Connection(r) in AuthStarted(Opened(w, p, c), p).store.slots
  {
  }

  /** Whatever the peers send, a step destroys a client only when it is not being logged in and has no
      transaction, and when its connection has already made its last callback, so that it is closed. */
  lemma DestroysSafely(w: World, step: Step, p: Ptr)
    requires Reachable(w) && Proceeds(w, step) && Safe(w, step) && p in w.clients && p !in After(w, step).clients
    ensures LastRecord(w, step, p).state != AuthProcessing && LastRecord(w, step, p).transaction == None
    ensures Connection(p) !in w.store.slots
  {
    hide Inv;
    ReachableInv(w);
    HandlingSpares(w, step);
    LastReleaseSpares(w, step);
    StepKeepsInv(w, step);
    if Connection(p) in w.store.slots {
      if step == ConnectionCloses(p) {
        CloserIsKept(w, p);
      } else {
        ConnectionSurvives(w, step, p);
        ConnectedIsClient(After(w, step), p);
      }
    }
  }

  lemma ConnectedIsClient(w: World, p: Ptr)
    requires Inv(w) && Connection(p) in w.store.slots
    ensures p in w.clients
  {
  }

  /** The notice keeps its client. */
  lemma CloserIsKept(w: World, p: Ptr)
    requires Inv(w) && Proceeds(w, ConnectionCloses(p)) && Safe(w, ConnectionCloses(p))
    ensures p in After(w, ConnectionCloses(p)).clients
  {
    hide ReferencesInv, TransactionsInv, PinnedInv, Store.Counted, Linked, Release;
    ConnectionLive(w, p);
    NextIsFree(w);
    SharedCounted(w.store, p, Message(w.next));
    ReleasedConnectionGone(SharedClient(w, p).store, p, w.next);
    StepKeepsReferences(w, ConnectionCloses(p));
    assert Get(After(w, ConnectionCloses(p)).store.slots, Message(w.next)) == Some(p);
    MessageIsClient(After(w, ConnectionCloses(p)), w.next);
  }

  lemma MessageIsClient(w: World, n: nat)
    requires ReferencesInv(w) && Message(n) in w.store.slots
    ensures w.Of(n) in w.clients
  {
  }

  // ---------------------------------------------------------------- transactions

  /** A transaction is freed by exactly two steps: processing it when it has been cancelled, and finishing it
      when it has been done; that is, by whichever of the two sides acts second. */
  lemma FreedBySecond(w: World, step: Step, t: Tid)
    requires Reachable(w) && Proceeds(w, step) && Safe(w, step) && t in w.transactions
    ensures t !in After(w, step).transactions <==>
      || (step.AuthHandle? && w.authQ[0].transaction == t && w.transactions[t].state == Cancelled)
      || (step.ServerHandle? && w.serverQ[0] == FinishAuth(Some(t)) && w.transactions[t].state == Done)
  {
    hide After, Handled, Reachable;
    LastReleaseFreesNone(w, step);
    match step
    case ClientsHandle(_, _) => ClientsKeepTransactions(w, step);
    case ServerHandle(newTid) => ServerFrees(w, newTid, t);
    case AuthHandle(result) => DecidedTransactions(w, result);
    case _ => CallbacksKeepTransactions(w, step);
  }

  lemma LastReleaseFreesNone(w: World, step: Step)
    requires Proceeds(w, step) && Safe(w, step)
    ensures After(w, step).transactions == Handled(w, step).transactions
  {
    hide Handled, Release;
  }

  lemma CallbacksKeepTransactions(w: World, step: Step)
    requires Proceeds(w, step) && Safe(w, step) && !step.ClientsHandle? && !step.ServerHandle? && !step.AuthHandle?
    ensures Handled(w, step).transactions == w.transactions
  {
  }

  lemma ServerFrees(w: World, newTid: Tid, t: Tid)
    requires Reachable(w) && Proceeds(w, ServerHandle(newTid)) && Safe(w, ServerHandle(newTid)) && t in w.transactions
    ensures t !in Handled(w, ServerHandle(newTid)).transactions <==>
      w.serverQ[0] == FinishAuth(Some(t)) && w.transactions[t].state == Done
  {
    hide Inv, Shared, Reachable, Submitted, Finished;
    ReachableInv(w);
    FinishDue(w);
    var h := Handled(w, ServerHandle(newTid));
    match w.serverQ[0]
    case StartAuth(n, c) => SubmittedAdds(TakenServer(w), n, c, newTid);
    case FinishAuth(transaction) => FinishedFrees(TakenServer(w), transaction.value);
    case AuthResult(_, _) => assert h.transactions == w.transactions;
  }

  lemma FinishedFrees(w: World, t: Tid)
    requires t in w.transactions
    ensures Finished(w, t).transactions.Keys == if w.transactions[t].state == Done then w.transactions.Keys - {t} else w.transactions.Keys
  {
  }

  lemma SubmittedAdds(w: World, n: nat, c: nat, t: Tid)
    requires LiveClient(w, n)
    ensures w.transactions.Keys <= Submitted(w, n, c, t).transactions.Keys
  {
    hide Shared;
  }

  lemma DecidedTransactions(w: World, result: AuthStep)
    requires Proceeds(w, AuthHandle(result)) && Safe(w, AuthHandle(result))
    ensures var t := w.authQ[0].transaction;
      Handled(w, AuthHandle(result)).transactions
      == if w.transactions[t].state == Cancelled then w.transactions - {t} else w.transactions[t := Transaction(Done, None)]
  {
    hide Release;
  }

  lemma ClientsKeepTransactions(w: World, step: Step)
    requires step.ClientsHandle? && Proceeds(w, step) && Safe(w, step)
    ensures Handled(w, step).transactions == w.transactions
  {
    hide Opened, AuthStarted, Advised, Processed, Closed;
    var taken := TakenClients(w);
    match w.clientsQ[0]
    case OpenClient =>
      OpenedHasCredentials(taken, step.newClient, step.newCredentials);
      OpenedKeepsMap(taken, step.newClient, step.newCredentials);
      AuthStartedKeepsMap(Opened(taken, step.newClient, step.newCredentials), step.newClient);
    case AuthEvent(advice, n) => AdvisedKeepsMap(taken, w.Of(n), advice);
    case IncomingEvent(kind, n) => ProcessedKeepsMap(taken, w.Of(n), kind);
    case ConnectionClosed(n) => ClosedKeepsMap(taken, w.Of(n));
  }

  lemma OpenedKeepsMap(w: World, p: Ptr, c: Ptr)
    ensures Opened(w, p, c).transactions == w.transactions
  {
  }

  lemma AuthStartedKeepsMap(w: World, p: Ptr)
    requires HasCredentials(w, p)
    ensures AuthStarted(w, p).transactions == w.transactions
  {
  }

  lemma AdvisedKeepsMap(w: World, p: Ptr, advice: AuthStep)
    requires p in w.clients
    ensures Advised(w, p, advice).transactions == w.transactions
  {
  }

  lemma ProcessedKeepsMap(w: World, p: Ptr, kind: EventKind)
    requires p in w.clients && (StartsLogin(w.clients[p].state, kind) ==> HasCredentials(w, p))
    ensures Processed(w, p, kind).transactions == w.transactions
  {
  }

  lemma ClosedKeepsMap(w: World, p: Ptr)
    requires p in w.listed
    ensures Closed(w, p).transactions == w.transactions
  {
  }

  lemma FinishDue(w: World)
    requires Inv(w)
    ensures w.serverQ != [] && w.serverQ[0].FinishAuth? && w.serverQ[0].transaction.Some? ==>
      Finishable(w.transactions, w.serverQ[0].transaction.value)
  {
  }

  /** Processing happens once: the transaction is then off the queue for good. Its consumer's reference goes
      on to the result, or is given up with the transaction; its credentials' is given up either way. */
  lemma ProcessedOnce(w: World, result: AuthStep)
    requires Reachable(w) && Enabled(w, AuthHandle(result))
    ensures var t := w.authQ[0].transaction;
      && Safe(w, AuthHandle(result))
      && (forall i :: 0 < i < |w.authQ| ==> w.authQ[i].transaction != t)
      && var v := After(w, AuthHandle(result));
        && var n := w.transactions[t].consumer.value;
        && Secret(w.authQ[0].c) in w.store.slots && Secret(w.authQ[0].c) !in v.store.slots
        && if w.transactions[t].state == Cancelled then t !in v.transactions && Message(n) !in v.store.slots
           else
             && v.transactions[t] == Transaction(Done, None)
             && v.serverQ == w.serverQ + [AuthResult(result, n)]
             && Get(v.store.slots, Message(n)) == Get(w.store.slots, Message(n))
  {
    hide Inv;
    ReachableInv(w);
    StepKeepsInv(w, AuthHandle(result));
    ProcessedSlots(w, result);
  }

  lemma ProcessedSlots(w: World, result: AuthStep)
    requires Reachable(w) && Enabled(w, AuthHandle(result)) && Safe(w, AuthHandle(result))
    ensures var t, c := w.authQ[0].transaction, w.authQ[0].c;
      && (forall i :: 0 < i < |w.authQ| ==> w.authQ[i].transaction != t)
      && var v := After(w, AuthHandle(result));
        && var n := w.transactions[t].consumer.value;
        && Secret(c) in w.store.slots && Secret(c) !in v.store.slots
        && if w.transactions[t].state == Cancelled then Message(n) !in v.store.slots
           else Get(v.store.slots, Message(n)) == Get(w.store.slots, Message(n))
  {
    hide ReferencesInv, QueueInv, FinishInv, OwnerInv, PinnedInv, Store.Counted, Linked, Release, InAuthQ, Reachable;
    ReachableInv(w);
    HandlingIsTidy(w, AuthHandle(result));
    var v := Handled(w, AuthHandle(result));
    var n, c := w.transactions[w.authQ[0].transaction].consumer.value, w.authQ[0].c;
    NextIsFree(w);
    NextIsFree(v);
    HeadIsOnce(w.authQ, w.transactions);
    SecretCarried(w);
    GivenUpIsGone(v.store, Secret(c), Message(n));
    if w.transactions[w.authQ[0].transaction].state == Cancelled {
      GivenUpIsGone(w.store, Message(n), Message(n));
    }
  }

  lemma HeadIsOnce(q: seq<AuthMessage>, transactions: Transactions)
    requires QueueInv(q, transactions) && q != []
    ensures forall i :: 0 < i < |q| ==> q[i].transaction != q[0].transaction
  {
  }

  lemma GivenUpIsGone(s: Store, k: Slot, j: Slot)
    requires s.Counted() && j.Message?
    ensures k !in Release(s, k).slots
    ensures j != k ==> Get(Release(s, k).slots, j) == Get(s.slots, j)
  {
    hide Store.Counted;
    assert Releases(s, k, Release(s, k));
  }
}
