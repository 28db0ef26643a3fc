/** The auth worker reads a client's credentials while the client module goes on, with no lock between them:
    when the two meet in one record, and that otherwise what is read stays as it is until it is decided on. */
module ServerReading {
  import opened SharedPtr
  import opened ClientList
  import opened ServerWorld
  import opened ServerReferences
  import opened ServerTransactions
  import opened ServerSteps
  import opened ServerTransactionSteps
  import opened ServerPinning
  import opened ServerRuns
  import opened ServerCredentials

  // ---------------------------------------------------------------- what the worker reads

  /** The worker is reading, and its verdict goes to p. */
  ghost predicate ReadsFor(w: World, p: Ptr) {
    && w.reading && w.authQ != [] && w.authQ[0].transaction in w.transactions
    && var consumer := w.transactions[w.authQ[0].transaction].consumer;
       consumer.Some? && Refers(w.store.slots, consumer.value, p)
  }

  /** The next message for the client module is a submission that starts a login for p. */
  ghost predicate NextStarts(w: World, p: Ptr) {
    NextSubmits(w, p) && p in w.clients && StartsLogin(w.clients[p].state, w.clientsQ[0].kind)
  }

  /** The record that is rewritten is the one that is read exactly when they are the same client's. */
  lemma InterferesExactly(w: World)
    requires Reachable(w)
    ensures Interferes(w) <==> exists p :: ReadsFor(w, p) && NextStarts(w, p) && p !in w.admitted
  {
    hide Reachable, Inv, CredentialsInv;
    if w.reading && w.authQ != [] {
      DecidesOnOwn(w);
      var q := w.Of(w.transactions[w.authQ[0].transaction].consumer.value);
      assert ReadsFor(w, q) && forall p :: ReadsFor(w, p) ==> p == q;
    }
    if Rewritten(w).Some? {
      assert NextStarts(w, w.Of(w.clientsQ[0].n));
    }
  }

  // ---------------------------------------------------------------- what is read stays

  /** While it reads, the worker's transaction is unprocessed and not cancelled. */
  ghost predicate ReadingInv(w: World) {
    w.reading ==>
      && w.authQ != [] && w.authQ[0].transaction in w.transactions
      && w.transactions[w.authQ[0].transaction].state == Processing
  }

  /** The message, the transaction and the reference that the worker is reading by. */
  ghost predicate SameReading(w: World, v: World) {
    && w.reading && w.authQ != [] && v.reading && v.authQ != [] && v.authQ[0] == w.authQ[0]
    && w.authQ[0].transaction in w.transactions && v.authQ[0].transaction in v.transactions
    && v.transactions[w.authQ[0].transaction] == w.transactions[w.authQ[0].transaction]
  }

  lemma DroppedKeepsReading(w: World, k: Slot)
    ensures var v := Dropped(w, k); v.reading == w.reading && v.authQ == w.authQ && v.transactions == w.transactions
  {
    hide Release;
  }

  lemma ServerKeepsReading(w: World, t: Tid)
    requires Proceeds(w, ServerHandle(t)) && Safe(w, ServerHandle(t)) && ReadingInv(w) && w.reading
    ensures SameReading(w, Handled(w, ServerHandle(t)))
  {
    hide Submitted, Finished;
    match w.serverQ[0]
    case StartAuth(n, c) => SubmittedReading(TakenServer(w), n, c, t);
    case FinishAuth(transaction) => FinishedReading(TakenServer(w), transaction.value);
    case AuthResult(_, _) =>
  }

  lemma SubmittedReading(w: World, n: nat, c: nat, t: Tid)
    requires LiveClient(w, n) && t !in w.transactions
    ensures var v := Submitted(w, n, c, t);
      && v.reading == w.reading && w.authQ <= v.authQ
      && forall x :: x in w.transactions ==> x in v.transactions && v.transactions[x] == w.transactions[x]
  {
    hide Shared;
  }

  lemma FinishedReading(w: World, t: Tid)
    requires t in w.transactions
    ensures var v := Finished(w, t);
      && v.reading == w.reading && v.authQ == w.authQ
      && forall x :: x in w.transactions && x != t ==> x in v.transactions && v.transactions[x] == w.transactions[x]
  {
  }

  lemma ClientsKeepReading(w: World, step: Step)
    requires step.ClientsHandle? && Proceeds(w, step) && Safe(w, step)
    ensures var v := Handled(w, step); v.reading == w.reading && v.authQ == w.authQ && v.transactions == w.transactions
  {
    hide Opened, AuthStarted, Advised, Processed, Closed;
    ClientsKeepTransactions(w, step);
    var taken := TakenClients(w);
    match w.clientsQ[0]
    case OpenClient =>
      OpenedHasCredentials(taken, step.newClient, step.newCredentials);
      OpeningKeepsReading(taken, step.newClient, step.newCredentials);
    case AuthEvent(advice, n) => AdvisingKeepsReading(taken, w.Of(n), advice);
    case IncomingEvent(kind, n) => ProcessingKeepsReading(taken, w.Of(n), kind);
    case ConnectionClosed(n) => ClosingKeepsReading(taken, w.Of(n));
  }

  lemma OpeningKeepsReading(w: World, p: Ptr, c: Ptr)
    requires HasCredentials(Opened(w, p, c), p)
    ensures var v := AuthStarted(Opened(w, p, c), p); v.reading == w.reading && v.authQ == w.authQ
  {
    hide HasCredentials;
  }

  lemma AdvisingKeepsReading(w: World, p: Ptr, advice: AuthStep)
    requires p in w.clients
    ensures Advised(w, p, advice).reading == w.reading && Advised(w, p, advice).authQ == w.authQ
  {
  }

  lemma ProcessingKeepsReading(w: World, p: Ptr, kind: EventKind)
    requires p in w.clients && (StartsLogin(w.clients[p].state, kind) ==> HasCredentials(w, p))
    ensures Processed(w, p, kind).reading == w.reading && Processed(w, p, kind).authQ == w.authQ
  {
  }

  lemma ClosingKeepsReading(w: World, p: Ptr)
    requires p in w.listed
    ensures Closed(w, p).reading == w.reading && Closed(w, p).authQ == w.authQ
  {
  }

  lemma OthersKeepReading(w: World, step: Step)
    requires !step.ClientsHandle? && !step.ServerHandle? && !step.AuthHandle? && !step.AuthReads?
    requires Proceeds(w, step) && Safe(w, step)
    ensures var v := Handled(w, step); v.reading == w.reading && v.authQ == w.authQ && v.transactions == w.transactions
  {
    match step
    case AcceptConnection =>
    case ConnectionDelivers(p, kind) => CallbackKeepsReading(w, p, IncomingEvent(kind, w.next));
    case ConnectionCloses(p) => CallbackKeepsReading(w, p, ConnectionClosed(w.next));
  }

  lemma CallbackKeepsReading(w: World, p: Ptr, m: ClientsMessage)
    requires p in w.store.counts
    ensures var v := PutClients(SharedClient(w, p), m);
      v.reading == w.reading && v.authQ == w.authQ && v.transactions == w.transactions
  {
  }

  /** Nothing but the worker's own decision ends its reading. */
  lemma StepKeepsReading(w: World, step: Step)
    requires Proceeds(w, step) && Safe(w, step) && ReadingInv(w) && w.reading && !step.AuthHandle?
    ensures SameReading(w, After(w, step))
  {
    hide Handled, Dropped;
    if step.ClientsHandle? {
      ClientsKeepReading(w, step);
    } else if step.ServerHandle? {
      ServerKeepsReading(w, step.newTransaction);
    } else {
      assert !step.AuthReads?;
      OthersKeepReading(w, step);
    }
    if GivenUp(w, step).Some? {
      DroppedKeepsReading(Handled(w, step), GivenUp(w, step).value);
    }
  }

  /** The worker starts to read where nobody has finished its transaction, and stops with its decision. */
  lemma StepKeepsReadingInv(w: World, step: Step)
    requires Reachable(w) && ReadingInv(w) && Proceeds(w, step) && Safe(w, step)
    ensures ReadingInv(After(w, step))
  {
    hide Reachable, Inv, Handled, Dropped, After;
    if w.reading && !step.AuthHandle? {
      StepKeepsReading(w, step);
    } else if step.AuthReads? {
      ReachableInv(w);
      AuthHeadOf(w);
      ReadingStarts(w);
    } else {
      StepReadsNothing(w, step);
    }
  }

  lemma ReadingStarts(w: World)
    requires Proceeds(w, AuthReads) && Safe(w, AuthReads) && Unprocessed(w.transactions, w.authQ[0].transaction)
    ensures ReadingInv(After(w, AuthReads))
  {
  }

  lemma StepReadsNothing(w: World, step: Step)
    requires Proceeds(w, step) && Safe(w, step) && !step.AuthReads? && (w.reading ==> step.AuthHandle?)
    ensures !After(w, step).reading
  {
    hide Handled, Dropped;
    if step.ClientsHandle? {
      ClientsKeepReading(w, step);
    } else if step.ServerHandle? {
      ServerReadsNothing(w, step.newTransaction);
    } else if step.AuthHandle? {
      DecidedReadsNothing(w, step.result);
    } else {
      OthersKeepReading(w, step);
    }
    if GivenUp(w, step).Some? {
      DroppedKeepsReading(Handled(w, step), GivenUp(w, step).value);
    }
  }

  lemma ServerReadsNothing(w: World, t: Tid)
    requires Proceeds(w, ServerHandle(t)) && Safe(w, ServerHandle(t)) && !w.reading
    ensures !Handled(w, ServerHandle(t)).reading
  {
    hide Submitted, Finished;
    match w.serverQ[0]
    case StartAuth(n, c) => SubmittedReading(TakenServer(w), n, c, t);
    case FinishAuth(transaction) => FinishedReading(TakenServer(w), transaction.value);
    case AuthResult(_, _) =>
  }

  lemma DecidedReadsNothing(w: World, result: AuthStep)
    requires Proceeds(w, AuthHandle(result)) && Safe(w, AuthHandle(result))
    ensures !Handled(w, AuthHandle(result)).reading
  {
    hide Release;
  }

  lemma {:induction false} RunKeepsReadingInv(w: World, steps: seq<Step>, v: World)
    requires Reachable(w) && ReadingInv(w) && Run(w, steps, v)
    ensures ReadingInv(v)
    decreases |steps|
  {
    hide Reachable, ReadingInv;
    if steps != [] {
      StepKeepsReadingInv(w, steps[0]);
      NoUseAfterFree(w, steps[0]);
      RunKeepsReadingInv(After(w, steps[0]), steps[1..], v);
    }
  }

  lemma ReadingInReachable(w: World)
    requires Reachable(w)
    ensures ReadingInv(w)
  {
    assert Run(Initial(), [], Initial());
    var steps :| Run(Initial(), steps, w);
    RunKeepsReadingInv(Initial(), steps, w);
  }

  // ---------------------------------------------------------------- references stay what they are

  /** A reference that is still held refers to what it did. */
  ghost predicate Stays(w: World, v: World, k: Slot) {
    k in v.store.slots ==> Get(v.store.slots, k) == Get(w.store.slots, k)
  }

  ghost predicate Old(w: World, k: Slot) { Reference(k) && k.n < w.next }

  lemma DroppedStays(w: World, k: Slot, j: Slot)
    ensures Stays(w, Dropped(w, k), j)
  {
    hide Release;
    ReleaseOnlyRemoves(w.store, k);
  }

  lemma OpeningStays(w: World, p: Ptr, c: Ptr, k: Slot)
    requires Old(w, k) && HasCredentials(Opened(w, p, c), p)
    ensures Stays(w, AuthStarted(Opened(w, p, c), p), k)
  {
    hide HasCredentials, Opened;
    OpenedSlots(w, p, c, k);
    CreatedNames(w, p, c);
  }

  lemma AdvisingStays(w: World, p: Ptr, advice: AuthStep, k: Slot)
    requires p in w.clients && Old(w, k)
    ensures Stays(w, Advised(w, p, advice), k)
  {
    hide Release;
    ReleaseOnlyRemoves(w.store, Credentials(p));
  }

  lemma ProcessingStays(w: World, p: Ptr, kind: EventKind, k: Slot)
    requires p in w.clients && (StartsLogin(w.clients[p].state, kind) ==> HasCredentials(w, p)) && Old(w, k)
    ensures Stays(w, Processed(w, p, kind), k)
  {
  }

  lemma ClosingStays(w: World, p: Ptr, k: Slot)
    requires Linked(w.store.slots, w.listed) && p in w.listed && Old(w, k)
    ensures Stays(w, Closed(w, p), k)
  {
    hide Linked, Unlinked;
    UnlinkedFrame(w.store.slots, w.listed, p, k);
  }

  lemma ClientsStay(w: World, step: Step, k: Slot)
    requires step.ClientsHandle? && Proceeds(w, step) && Safe(w, step) && Linked(w.store.slots, w.listed) && Old(w, k)
    ensures Stays(w, Handled(w, step), k)
  {
    hide Linked, Opened, AuthStarted, Advised, Processed, Closed;
    var taken := TakenClients(w);
    match w.clientsQ[0]
    case OpenClient =>
      OpenedHasCredentials(taken, step.newClient, step.newCredentials);
      OpeningStays(taken, step.newClient, step.newCredentials, k);
    case AuthEvent(advice, n) => AdvisingStays(taken, w.Of(n), advice, k);
    case IncomingEvent(kind, n) => ProcessingStays(taken, w.Of(n), kind, k);
    case ConnectionClosed(n) => ClosingStays(taken, w.Of(n), k);
  }

  lemma DecidedStays(w: World, result: AuthStep, k: Slot)
    requires Proceeds(w, AuthHandle(result)) && Safe(w, AuthHandle(result))
    ensures Stays(w, Handled(w, AuthHandle(result)), k)
  {
    hide Release;
    ReleaseOnlyRemoves(w.store, Message(w.transactions[w.authQ[0].transaction].consumer.value));
  }

  lemma OthersStay(w: World, step: Step, k: Slot)
    requires !step.ClientsHandle? && !step.AuthHandle? && Proceeds(w, step) && Safe(w, step) && Old(w, k)
    ensures Stays(w, Handled(w, step), k)
  {
  }

  lemma HandledStays(w: World, step: Step, k: Slot)
    requires Inv(w) && Proceeds(w, step) && Safe(w, step) && Old(w, k)
    ensures Stays(w, Handled(w, step), k)
  {
    hide ReferencesInv, TransactionsInv, PinnedInv, Store.Counted, Linked, Handled;
    NextIsFree(w);
    if step.ClientsHandle? {
      ClientsStay(w, step, k);
    } else if step.AuthHandle? {
      DecidedStays(w, step.result, k);
    } else {
      OthersStay(w, step, k);
    }
  }

  lemma StepStays(w: World, step: Step, k: Slot)
    requires Inv(w) && Proceeds(w, step) && Safe(w, step) && Old(w, k)
    ensures Stays(w, After(w, step), k)
  {
    hide Inv, Handled, Dropped;
    HandledStays(w, step, k);
    if GivenUp(w, step).Some? {
      DroppedStays(Handled(w, step), GivenUp(w, step).value, k);
    }
  }

  // ---------------------------------------------------------------- the theorems

  /** Whatever the peers send, a step that does not go wrong leaves the worker reading the same record by the
      same message until it decides, and neither frees the record nor rewrites it. */
  lemma ReadStays(w: World, step: Step)
    requires Reachable(w) && w.reading && Proceeds(w, step) && Safe(w, step) && !step.AuthHandle?
    ensures var v := After(w, step);
      && SameReading(w, v) && Read(w).Some? && Read(v) == Read(w) && Read(w).value in v.store.counts
    ensures step.ClientsHandle? ==> Rewritten(w) != Read(w)
  {
    hide Reachable, Inv, ReadingInv, Handled, After;
    var v := After(w, step);
    ReachableInv(w);
    ReadingInReachable(w);
    IsReading(w);
    StepKeepsReading(w, step);
    NoUseAfterFree(w, step);
    ReachableInv(v);
    AuthHeadOf(w);
    AuthHeadOf(v);
    SecretIsOld(w);
    StepStays(w, step, Secret(w.authQ[0].c));
  }

  lemma IsReading(w: World)
    requires ReadingInv(w) && w.reading
    ensures w.authQ != [] && w.authQ[0].transaction in w.transactions
  {
  }

  lemma SecretIsOld(w: World)
    requires Inv(w) && w.authQ != [] && Secret(w.authQ[0].c) in w.store.slots
    ensures w.authQ[0].c < w.next
  {
    hide TransactionsInv, PinnedInv;
    NextIsFree(w);
  }

  /** No client module's step in the run rewrites the record. */
  ghost predicate Spared(w: World, steps: seq<Step>, record: Ptr)
    decreases |steps|
  {
    steps != [] ==>
      && (steps[0].ClientsHandle? ==> Rewritten(w) != Some(record))
      && (Proceeds(w, steps[0]) && Safe(w, steps[0]) ==> Spared(After(w, steps[0]), steps[1..], record))
  }

  /** So over any run in which nothing goes wrong, from when the worker starts to when it decides: all it
      reads is what the record held when it started. */
  lemma {:induction false} ReadStaysThroughout(w: World, steps: seq<Step>, v: World)
    requires Reachable(w) && w.reading && Run(w, steps, v) && forall step :: step in steps ==> !step.AuthHandle?
    ensures Read(w).Some? && Spared(w, steps, Read(w).value)
    ensures SameReading(w, v) && Read(v) == Read(w) && Read(w).value in v.store.counts
    decreases |steps|
  {
    hide Reachable, After, Enabled, Faults, Safe;
    if steps == [] {
      ReadsNow(w);
    } else {
      assert steps[0] in steps;
      assert forall step :: step in steps[1..] ==> step in steps;
      NoUseAfterFree(w, steps[0]);
      ReadStays(w, steps[0]);
      ReadStaysThroughout(After(w, steps[0]), steps[1..], v);
    }
  }

  lemma ReadsNow(w: World)
    requires Reachable(w) && w.reading
    ensures SameReading(w, w) && Read(w).Some? && Read(w).value in w.store.counts
  {
    hide Reachable, Inv;
    ReachableInv(w);
    ReadingInReachable(w);
    AuthHeadOf(w);
  }
}
