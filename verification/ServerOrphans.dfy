/** Transactions that nobody will finish: a client's second submission overwrites the address of its first
    transaction, and that transaction is then never freed. */
module ServerOrphans {
  import opened SharedPtr
  import opened ClientList
  import opened ServerWorld
  import opened ServerTransactions
  import opened ServerSteps
  import opened ServerTransactionSteps
  import opened ServerPinning
  import opened ServerRuns

  /** Not finished, not about to be, and its address kept by no client. */
  ghost predicate Orphan(w: World, t: Tid) {
    && t in w.transactions && w.transactions[t].state != Cancelled
    && FinishAuth(Some(t)) !in w.serverQ
    && forall p :: p in w.clients ==> w.clients[p].transaction != Some(t)
  }

  lemma ClientsKeepOrphan(w: World, step: Step, t: Tid)
    requires step.ClientsHandle? && Proceeds(w, step) && Safe(w, step) && Orphan(w, t)
    ensures Orphan(Handled(w, step), t)
  {
    hide Opened, AuthStarted, Advised, Processed, Closed;
    var taken := TakenClients(w);
    ClientsKeepTransactions(w, step);
    match w.clientsQ[0]
    case OpenClient => OpeningKeepsOrphan(taken, step.newClient, step.newCredentials, t);
    case AuthEvent(advice, n) => AdviceKeepsOrphan(taken, w.Of(n), advice, t);
    case IncomingEvent(kind, n) => ProcessingKeepsOrphan(taken, w.Of(n), kind, t);
    case ConnectionClosed(n) => ClosingKeepsOwners(taken, w.Of(n));
  }

  lemma OpeningKeepsOrphan(w: World, p: Ptr, c: Ptr, t: Tid)
    requires Orphan(w, t) && p !in w.store.counts && c !in w.store.counts && p != c
    ensures var v := Opened(w, p, c);
      HasCredentials(v, p) && FinishAuth(Some(t)) !in AuthStarted(v, p).serverQ
      && forall r :: r in AuthStarted(v, p).clients ==> AuthStarted(v, p).clients[r].transaction != Some(t)
  {
    hide Recounted, Appended, HasCredentials, Created, Shared;
    OpenedHasCredentials(w, p, c);
  }

  lemma AdviceKeepsOrphan(w: World, p: Ptr, advice: AuthStep, t: Tid)
    requires Orphan(w, t) && p in w.clients
    ensures FinishAuth(Some(t)) !in Advised(w, p, advice).serverQ
    ensures forall r :: r in Advised(w, p, advice).clients ==> Advised(w, p, advice).clients[r].transaction != Some(t)
  {
  }

  lemma ProcessingKeepsOrphan(w: World, p: Ptr, kind: EventKind, t: Tid)
    requires Orphan(w, t) && p in w.clients && (StartsLogin(w.clients[p].state, kind) ==> HasCredentials(w, p))
    ensures FinishAuth(Some(t)) !in Processed(w, p, kind).serverQ
    ensures forall r :: r in Processed(w, p, kind).clients ==> Processed(w, p, kind).clients[r].transaction != Some(t)
  {
    hide Shared;
  }

  lemma ClosingKeepsOwners(w: World, p: Ptr)
    requires p in w.listed
    ensures Closed(w, p).serverQ == w.serverQ && Closed(w, p).clients == w.clients
  {
  }

  lemma ServerKeepsOrphan(w: World, newTid: Tid, t: Tid)
    requires Proceeds(w, ServerHandle(newTid)) && Safe(w, ServerHandle(newTid)) && Orphan(w, t)
    ensures Orphan(Handled(w, ServerHandle(newTid)), t)
  {
    hide Submitted, Finished;
    assert w.serverQ[0] in w.serverQ && FinishAuth(Some(t)) !in w.serverQ[1..];
    match w.serverQ[0]
    case StartAuth(n, c) =>
      SubmittedMap(TakenServer(w), n, c, newTid);
      SubmittedOwner(TakenServer(w), n, c, newTid);
    case FinishAuth(x) => FinishKeepsOrphan(TakenServer(w), x.value, t);
    case AuthResult(_, _) =>
  }

  lemma FinishKeepsOrphan(w: World, x: Tid, t: Tid)
    requires Orphan(w, t) && x in w.transactions && x != t
    ensures Orphan(Finished(w, x), t)
  {
  }

  lemma SubmittedOwner(w: World, n: nat, c: nat, t: Tid)
    requires LiveClient(w, n)
    ensures Submitted(w, n, c, t).serverQ == w.serverQ
    ensures Submitted(w, n, c, t).clients == w.clients[w.Of(n) := w.clients[w.Of(n)].(transaction := Some(t))]
  {
  }

  lemma AuthKeepsOrphan(w: World, result: AuthStep, t: Tid)
    requires Proceeds(w, AuthHandle(result)) && Safe(w, AuthHandle(result)) && Orphan(w, t)
    ensures Orphan(Handled(w, AuthHandle(result)), t)
  {
    hide Release;
  }

  lemma CallbackKeepsOrphan(w: World, step: Step, t: Tid)
    requires !step.ClientsHandle? && !step.ServerHandle? && !step.AuthHandle?
    requires Proceeds(w, step) && Safe(w, step) && Orphan(w, t)
    ensures Orphan(Handled(w, step), t)
  {
  }

  lemma DroppedKeepsOrphan(w: World, k: Slot, t: Tid)
    requires Orphan(w, t)
    ensures Orphan(Dropped(w, k), t)
  {
  }

  lemma OrphanStays(w: World, step: Step, t: Tid)
    requires Proceeds(w, step) && Safe(w, step) && Orphan(w, t)
    ensures Orphan(After(w, step), t)
  {
    hide Handled, Dropped, Orphan;
    match step {
      case ClientsHandle(_, _) => ClientsKeepOrphan(w, step, t);
      case ServerHandle(newTid) => ServerKeepsOrphan(w, newTid, t);
      case AuthHandle(result) => AuthKeepsOrphan(w, result, t);
      case _ => CallbackKeepsOrphan(w, step, t);
    }
    if GivenUp(w, step).Some? {
      DroppedKeepsOrphan(Handled(w, step), GivenUp(w, step).value, t);
    }
  }

  /** An orphan is never freed, however the run goes on. */
  lemma {:induction false} NeverFreed(w: World, steps: seq<Step>, v: World, t: Tid)
    requires Orphan(w, t) && Run(w, steps, v)
    ensures Orphan(v, t) && t in v.transactions
    decreases |steps|
  {
    if steps != [] {
      OrphanStays(w, steps[0], t);
      NeverFreed(After(w, steps[0]), steps[1..], v, t);
    }
  }

  // ---------------------------------------------------------------- how a transaction is orphaned

  /** The server stores a new transaction's address over t's. */
  ghost predicate Overwrites(w: World, step: Step, t: Tid)
    requires Proceeds(w, step) && Safe(w, step)
  {
    step.ServerHandle? && w.serverQ[0].StartAuth? && w.clients[w.Of(w.serverQ[0].n)].transaction == Some(t)
  }

  /** An owner keeps its transaction, or hands it to a finish message. */
  lemma OwnerStill(w: World, step: Step, p: Ptr, t: Tid)
    requires Proceeds(w, step) && Safe(w, step) && !Overwrites(w, step, t)
    requires p in w.clients && w.clients[p].transaction == Some(t) && p in w.store.counts && p in Handled(w, step).clients
    ensures Handled(w, step).clients[p].transaction == Some(t) || FinishAuth(Some(t)) in Handled(w, step).serverQ
  {
    if step.ClientsHandle? {
      ClientsKeepOwner(w, step, p, t);
    } else {
      hide Release, Shared;
    }
  }

  lemma ClientsKeepOwner(w: World, step: Step, p: Ptr, t: Tid)
    requires step.ClientsHandle? && Proceeds(w, step) && Safe(w, step)
    requires p in w.clients && w.clients[p].transaction == Some(t) && p in w.store.counts && p in Handled(w, step).clients
    ensures Handled(w, step).clients[p].transaction == Some(t) || FinishAuth(Some(t)) in Handled(w, step).serverQ
  {
    hide Opened, AuthStarted, Advised, Processed, Closed;
    var taken := TakenClients(w);
    match w.clientsQ[0]
    case OpenClient =>
      OpenedHasCredentials(taken, step.newClient, step.newCredentials);
      OpeningKeepsOwner(taken, step.newClient, step.newCredentials, p);
    case AuthEvent(advice, n) => AdviceKeepsOwner(taken, w.Of(n), advice, p);
    case IncomingEvent(kind, n) => ProcessingKeepsOwner(taken, w.Of(n), kind, p);
    case ConnectionClosed(n) => ClosingKeepsOwners(taken, w.Of(n));
  }

  lemma OpeningKeepsOwner(w: World, p: Ptr, c: Ptr, r: Ptr)
    requires r in w.clients && r != p && HasCredentials(Opened(w, p, c), p)
    ensures var v := AuthStarted(Opened(w, p, c), p);
      r in v.clients && v.clients[r].transaction == w.clients[r].transaction
  {
  }

  lemma AdviceKeepsOwner(w: World, p: Ptr, advice: AuthStep, r: Ptr)
    requires p in w.clients && r in w.clients && r in Advised(w, p, advice).clients
    ensures if r == p then FinishAuth(w.clients[r].transaction) in Advised(w, p, advice).serverQ
            else Advised(w, p, advice).clients[r].transaction == w.clients[r].transaction
  {
  }

  lemma ProcessingKeepsOwner(w: World, p: Ptr, kind: EventKind, r: Ptr)
    requires p in w.clients && r in w.clients && (StartsLogin(w.clients[p].state, kind) ==> HasCredentials(w, p))
    ensures r in Processed(w, p, kind).clients && Processed(w, p, kind).clients[r].transaction == w.clients[r].transaction
  {
  }

  /** A queued finish message stays queued until it is handled. */
  lemma FinishStill(w: World, step: Step, t: Tid)
    requires Proceeds(w, step) && Safe(w, step) && FinishAuth(Some(t)) in w.serverQ
    requires step.ServerHandle? ==> w.serverQ[0] != FinishAuth(Some(t))
    ensures FinishAuth(Some(t)) in Handled(w, step).serverQ
  {
    hide Release, Shared, Appended, Recounted;
    if step.ClientsHandle? {
      ClientsOnlyAddMessages(w, step);
    }
  }

  lemma ClientsOnlyAddMessages(w: World, step: Step)
    requires step.ClientsHandle? && Proceeds(w, step) && Safe(w, step)
    ensures w.serverQ <= Handled(w, step).serverQ
  {
    hide Opened, AuthStarted, Advised, Processed, Closed;
    var taken := TakenClients(w);
    match w.clientsQ[0]
    case OpenClient =>
      OpenedHasCredentials(taken, step.newClient, step.newCredentials);
      OpenedKeepsQueue(taken, step.newClient, step.newCredentials);
      AuthStartedAdds(Opened(taken, step.newClient, step.newCredentials), step.newClient);
    case AuthEvent(advice, n) => AdvisedAdds(taken, w.Of(n), advice);
    case IncomingEvent(kind, n) => ProcessedAdds(taken, w.Of(n), kind);
    case ConnectionClosed(n) => ClosingKeepsOwners(taken, w.Of(n));
  }

  lemma OpenedKeepsQueue(w: World, p: Ptr, c: Ptr)
    ensures Opened(w, p, c).serverQ == w.serverQ
  {
  }

  lemma AuthStartedAdds(w: World, p: Ptr)
    requires HasCredentials(w, p)
    ensures w.serverQ <= AuthStarted(w, p).serverQ
  {
    hide Shared;
  }

  lemma AdvisedAdds(w: World, p: Ptr, advice: AuthStep)
    requires p in w.clients
    ensures w.serverQ <= Advised(w, p, advice).serverQ
  {
    hide Release;
  }

  lemma ProcessedAdds(w: World, p: Ptr, kind: EventKind)
    requires p in w.clients && (StartsLogin(w.clients[p].state, kind) ==> HasCredentials(w, p))
    ensures w.serverQ <= Processed(w, p, kind).serverQ
  {
    hide Shared;
  }

  lemma DroppedKeepsMessages(w: World, k: Slot)
    ensures Dropped(w, k).serverQ == w.serverQ && Dropped(w, k).transactions == w.transactions
    ensures forall p :: p in Dropped(w, k).clients ==> p in w.clients && Dropped(w, k).clients[p] == w.clients[p]
  {
  }

  /** What is finished stays finished. */
  lemma CancelledStill(w: World, step: Step, t: Tid)
    requires Proceeds(w, step) && Safe(w, step) && t in w.transactions && w.transactions[t].state == Cancelled
    ensures t in Handled(w, step).transactions ==> Handled(w, step).transactions[t].state == Cancelled
  {
    hide Handled;
    match step
    case ClientsHandle(_, _) => ClientsKeepTransactions(w, step);
    case ServerHandle(newTid) => ServerKeepsCancelled(w, newTid, t);
    case AuthHandle(result) => DecidedTransactions(w, result);
    case _ => CallbacksKeepTransactions(w, step);
  }

  lemma ServerKeepsCancelled(w: World, newTid: Tid, t: Tid)
    requires Proceeds(w, ServerHandle(newTid)) && Safe(w, ServerHandle(newTid))
    requires t in w.transactions && w.transactions[t].state == Cancelled
    ensures var v := Handled(w, ServerHandle(newTid)); t in v.transactions ==> v.transactions[t].state == Cancelled
  {
    hide Submitted;
    if w.serverQ[0].StartAuth? {
      SubmittedMap(TakenServer(w), w.serverQ[0].n, w.serverQ[0].c, newTid);
    }
  }

  lemma SubmittedMap(w: World, n: nat, c: nat, t: Tid)
    requires LiveClient(w, n)
    ensures Submitted(w, n, c, t).transactions == w.transactions[t := Transaction(Processing, Some(w.next))]
  {
  }

  /** A transaction is orphaned by exactly one thing: the server storing another transaction's address over
      its own, because its client has submitted again before being answered. In particular no client is
      ever destroyed with the address of a transaction that is still to be finished. */
  lemma OrphanedExactlyBy(w: World, step: Step, t: Tid)
    requires Reachable(w) && Proceeds(w, step) && Safe(w, step) && t in w.transactions && !Orphan(w, t)
    ensures Orphan(After(w, step), t) <==> Overwrites(w, step, t)
  {
    hide Inv, Orphan;
    ReachableInv(w);
    if Overwrites(w, step, t) {
      OverwritingOrphans(w, step, t);
    } else {
      NotOrphaned(w, step, t);
    }
  }

  lemma OverwritingOrphans(w: World, step: Step, t: Tid)
    requires Inv(w) && Proceeds(w, step) && Safe(w, step) && t in w.transactions && Overwrites(w, step, t)
    ensures Orphan(After(w, step), t)
  {
    hide ReferencesInv, PinnedInv, Dropped;
    var p := w.Of(w.serverQ[0].n);
    assert Owns(w.store.slots, w.serverQ, w.transactions, p, t);
    assert Orphan(Handled(w, step), t) by {
      hide Shared;
    }
    DroppedKeepsOrphan(Handled(w, step), GivenUp(w, step).value, t);
  }

  lemma LastReleaseKeepsMessages(w: World, step: Step)
    requires Proceeds(w, step) && Safe(w, step)
    ensures After(w, step).serverQ == Handled(w, step).serverQ && After(w, step).transactions == Handled(w, step).transactions
    ensures forall p :: p in After(w, step).clients ==>
      p in Handled(w, step).clients && After(w, step).clients[p] == Handled(w, step).clients[p]
  {
    hide Handled, Dropped;
    if GivenUp(w, step).Some? {
      DroppedKeepsMessages(Handled(w, step), GivenUp(w, step).value);
    }
  }

  lemma NotOrphaned(w: World, step: Step, t: Tid)
    requires Inv(w) && Proceeds(w, step) && Safe(w, step) && t in w.transactions && !Orphan(w, t) && !Overwrites(w, step, t)
    ensures !Orphan(After(w, step), t)
  {
    hide Inv, Handled, After;
    LastReleaseKeepsMessages(w, step);
    if w.transactions[t].state == Cancelled {
      CancelledStill(w, step, t);
    } else if FinishAuth(Some(t)) in w.serverQ {
      if step.ServerHandle? && w.serverQ[0] == FinishAuth(Some(t)) {
        FinishedIsNoOrphan(w, step, t);
      } else {
        FinishStill(w, step, t);
      }
    } else {
      var p :| p in w.clients && w.clients[p].transaction == Some(t);
      HandlingSpares(w, step);
      LastReleaseSpares(w, step);
      ClientIsCounted(w, p);
      OwnerStill(w, step, p, t);
    }
  }

  /** A new transaction has an owner. */
  lemma NewIsOwned(w: World, step: Step, t: Tid)
    requires Inv(w) && Proceeds(w, step) && Safe(w, step) && t !in w.transactions
    ensures !Orphan(After(w, step), t)
  {
    hide Inv, Handled, After;
    LastReleaseKeepsMessages(w, step);
    match step
    case ClientsHandle(_, _) => ClientsKeepTransactions(w, step);
    case ServerHandle(newTid) =>
      LastReleaseSpares(w, step);
      SubmitterOwns(w, newTid, t);
    case AuthHandle(result) => HeadExists(w, result, t);
    case _ => CallbacksKeepTransactions(w, step);
  }

  lemma HeadExists(w: World, result: AuthStep, t: Tid)
    requires Proceeds(w, AuthHandle(result)) && Safe(w, AuthHandle(result)) && t !in w.transactions
    ensures t !in Handled(w, AuthHandle(result)).transactions
  {
    DecidedTransactions(w, result);
  }

  lemma SubmitterOwns(w: World, newTid: Tid, t: Tid)
    requires Proceeds(w, ServerHandle(newTid)) && Safe(w, ServerHandle(newTid)) && t !in w.transactions
    ensures var v := Handled(w, ServerHandle(newTid));
      t in v.transactions ==> exists p :: p in v.clients && v.clients[p].transaction == Some(t)
  {
    hide Shared;
    if w.serverQ[0].StartAuth? {
      var v, p := Handled(w, ServerHandle(newTid)), w.Of(w.serverQ[0].n);
      assert p in v.clients && v.clients[p].transaction == Some(newTid);
    }
  }

  lemma FinishedIsNoOrphan(w: World, step: Step, t: Tid)
    requires step.ServerHandle? && Proceeds(w, step) && Safe(w, step) && w.serverQ[0] == FinishAuth(Some(t))
    ensures t in Handled(w, step).transactions ==> Handled(w, step).transactions[t].state == Cancelled
  {
  }

  lemma ClientIsCounted(w: World, p: Ptr)
    requires Inv(w) && p in w.clients
    ensures p in w.store.counts
  {
  }
}
