/** Where a peer can make the open server go wrong: by submitting again once it is logged in, and by
    submitting a password again before the first has been answered. */
module ServerFaults {
  import opened SharedPtr
  import opened ClientList
  import opened ServerWorld
  import opened ServerTransactions
  import opened ServerSteps
  import opened ServerReferenceSteps
  import opened ServerPinning
  import opened ServerRuns
  import opened ServerOrphans
  import opened ServerCredentials
  import opened ServerReading

  // ---------------------------------------------------------------- null transactions

  /** A null transaction is sent to be finished exactly when an AUTH_EVENT meets a client that has none. */
  lemma NullFinishQueued(w: World, step: Step)
    requires Proceeds(w, step) && Safe(w, step) && FinishAuth(None) !in w.serverQ
    ensures FinishAuth(None) in After(w, step).serverQ <==>
      step.ClientsHandle? && w.clientsQ[0].AuthEvent? && w.clients[w.Of(w.clientsQ[0].n)].transaction == None
  {
    hide Handled, After;
    LastReleaseKeepsMessages(w, step);
    match step
    case ClientsHandle(_, _) => ClientsNullFinish(w, step);
    case _ => OthersNullFinish(w, step);
  }

  lemma OthersNullFinish(w: World, step: Step)
    requires Proceeds(w, step) && Safe(w, step) && FinishAuth(None) !in w.serverQ && !step.ClientsHandle?
    ensures FinishAuth(None) !in Handled(w, step).serverQ
  {
    if step.ServerHandle? {
      ServerNullFinish(w, step.newTransaction);
    } else {
      hide Release, Shared;
    }
  }

  lemma ServerNullFinish(w: World, t: Tid)
    requires Proceeds(w, ServerHandle(t)) && Safe(w, ServerHandle(t)) && FinishAuth(None) !in w.serverQ
    ensures FinishAuth(None) !in Handled(w, ServerHandle(t)).serverQ
  {
    hide Release, Shared;
    assert Handled(w, ServerHandle(t)).serverQ == w.serverQ[1..];
  }

  lemma ClientsNullFinish(w: World, step: Step)
    requires step.ClientsHandle? && Proceeds(w, step) && Safe(w, step) && FinishAuth(None) !in w.serverQ
    ensures FinishAuth(None) in Handled(w, step).serverQ <==>
      w.clientsQ[0].AuthEvent? && w.clients[w.Of(w.clientsQ[0].n)].transaction == None
  {
    hide Release, Shared, Appended, Recounted, Created, Unlinked;
    if w.clientsQ[0].AuthEvent? {
      var finish := FinishAuth(w.clients[w.Of(w.clientsQ[0].n)].transaction);
      assert Handled(w, step).serverQ == w.serverQ + [finish];
      assert (w.serverQ + [finish])[|w.serverQ|] == finish;
    }
  }

  // ---------------------------------------------------------------- when a step goes wrong

  /** For any number of clients, whatever they send: a step goes wrong if and only if it handles a submission
      of a client that has been told before that it is logged in, or one that starts a login for the very
      client whose credentials the worker is reading, or finishes a null transaction. This is apart from
      what the machine leaves out. */
  lemma FaultsExactly(w: World, step: Step)
    requires Reachable(w) && Enabled(w, step)
    ensures Faults(w, step) <==>
      || (step.ClientsHandle? && exists p :: p in w.admitted && NextSubmits(w, p))
      || (step.ServerHandle? && w.serverQ[0] == FinishAuth(None))
      || (step.ClientsHandle? && exists p :: ReadsFor(w, p) && NextStarts(w, p))
  {
    hide CredentialsInv, ReferencesInv, TransactionsInv, PinnedInv, Reachable, Interferes, ReadsFor;
    ReachableInv(w);
    CredentialsOfReachable(w);
    InterferesExactly(w);
    if step.ClientsHandle? && w.clientsQ[0].IncomingEvent? {
      ClientsHeadLive(w);
      var p := w.Of(w.clientsQ[0].n);
      CredentialsOf(w, p);
      assert Submits(w.clientsQ[0].kind) ==> NextSubmits(w, p);
    }
  }
}
