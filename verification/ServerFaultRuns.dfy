/** Runs in which a peer makes the open server go wrong, one for each way. All have a single client, connected
    throughout, and verdicts that the users table can give. */
module ServerFaultRuns {
  import opened SharedPtr
  import opened ClientList
  import opened ServerWorld
  import opened ServerTransactions
  import opened ServerSteps
  import opened ServerReferenceSteps
  import opened ServerTransactionSteps
  import opened ServerPinning
  import opened ServerRuns
  import opened ServerOrphans
  import opened ServerCredentials
  import opened ServerReading
  import opened ServerFaults

  /** Once a client has been told it is logged in, its next submission stops the server, in any reachable
      world, with any other clients. */
  lemma LaterSubmissionFaults(w: World, p: Ptr, kind: EventKind, step: Step)
    requires Reachable(w) && Connection(p) in w.store.slots && p in w.admitted && w.clientsQ == [] && Submits(kind)
    requires step.ClientsHandle?
    ensures Proceeds(w, ConnectionDelivers(p, kind)) && Safe(w, ConnectionDelivers(p, kind))
    ensures var v := After(w, ConnectionDelivers(p, kind));
      Reachable(v) && v.clientsQ == [IncomingEvent(kind, w.next)] && Enabled(v, step) && Faults(v, step)
  {
    hide Reachable, ReferencesInv, TransactionsInv, PinnedInv, CredentialsInv;
    ReachableInv(w);
    ConnectionLive(w, p);
    NoUseAfterFree(w, ConnectionDelivers(p, kind));
    CredentialsOfReachable(w);
    CredentialsOf(w, p);
  }

  // ---------------------------------------------------------------- a world of one client

  /** One client, connected. */
  ghost predicate Sole(w: World, p: Ptr) { Reachable(w) && w.clients.Keys == {p} && Connection(p) in w.store.slots }

  lemma SoleTargets(w: World, p: Ptr)
    requires Sole(w, p)
    ensures p in w.clients && p in w.store.counts
    ensures forall n :: Message(n) in w.store.slots ==> w.Of(n) == p
    ensures Credentials(p) in w.store.slots <==> p !in w.admitted
  {
    hide TransactionsInv, PinnedInv, CredentialsInv, Reachable;
    ReachableInv(w);
    MessagesReferToClients(w);
    ConnectionLive(w, p);
    CredentialsOfReachable(w);
    CredentialsOf(w, p);
  }

  lemma MessagesReferToClients(w: World)
    requires ReferencesInv(w)
    ensures forall n :: Message(n) in w.store.slots ==> w.Of(n) in w.clients
  {
  }

  lemma StaysSole(w: World, p: Ptr, step: Step)
    requires Sole(w, p) && Proceeds(w, step) && step != ConnectionCloses(p)
    requires step.ClientsHandle? ==> !w.clientsQ[0].OpenClient?
    ensures Safe(w, step) && Sole(After(w, step), p)
  {
    hide Reachable, Inv;
    ReachableInv(w);
    NoUseAfterFree(w, step);
    ConnectionSurvives(w, step, p);
    ReachableInv(After(w, step));
    ConnectedIsClient(After(w, step), p);
    NoNewcomers(w, step);
  }

  lemma NoNewcomers(w: World, step: Step)
    requires Proceeds(w, step) && Safe(w, step) && (step.ClientsHandle? ==> !w.clientsQ[0].OpenClient?)
    ensures After(w, step).clients.Keys <= w.clients.Keys
  {
    hide Handled;
    HandledNoNewcomers(w, step);
    LastReleaseKeepsMessages(w, step);
  }

  lemma HandledNoNewcomers(w: World, step: Step)
    requires Proceeds(w, step) && Safe(w, step) && (step.ClientsHandle? ==> !w.clientsQ[0].OpenClient?)
    ensures Handled(w, step).clients.Keys <= w.clients.Keys
  {
    if step.ClientsHandle? {
      ClientsNoNewcomers(w, step);
    } else {
      hide Release, Shared;
    }
  }

  lemma ClientsNoNewcomers(w: World, step: Step)
    requires step.ClientsHandle? && Proceeds(w, step) && Safe(w, step) && !w.clientsQ[0].OpenClient?
    ensures Handled(w, step).clients.Keys <= w.clients.Keys
  {
    hide Release, Shared, Unlinked, Recounted;
  }

  /** What the queues, the transactions and the one client are, with the worker between two messages. */
  ghost predicate Looks(w: World, p: Ptr, client: Client, clientsQ: seq<ClientsMessage>, serverQ: seq<ServerMessage>,
        authQ: seq<AuthMessage>, transactions: Transactions)
  {
    && Sole(w, p) && w.clients[p] == client && !w.reading
    && w.clientsQ == clientsQ && w.serverQ == serverQ && w.authQ == authQ && w.transactions == transactions
  }

  // ---------------------------------------------------------------- its steps

  lemma AfterLooks(w: World, step: Step, p: Ptr)
    requires Proceeds(w, step) && Safe(w, step) && p in After(w, step).clients
    ensures var h, v := Handled(w, step), After(w, step);
      && p in h.clients && v.clients[p] == h.clients[p]
      && v.clientsQ == h.clientsQ && v.serverQ == h.serverQ && v.authQ == h.authQ && v.transactions == h.transactions
      && v.admitted == h.admitted && v.reading == h.reading
  {
    hide Handled, Dropped;
    var k := GivenUp(w, step);
    if k.Some? {
      DroppedLooks(Handled(w, step), k.value);
    }
  }

  lemma DroppedLooks(w: World, k: Slot)
    ensures var v := Dropped(w, k);
      && (forall p :: p in v.clients ==> p in w.clients && v.clients[p] == w.clients[p])
      && v.clientsQ == w.clientsQ && v.serverQ == w.serverQ && v.authQ == w.authQ && v.transactions == w.transactions
      && v.admitted == w.admitted && v.reading == w.reading
  {
    hide Release;
  }

  lemma Delivers(w: World, p: Ptr, kind: EventKind)
    requires Sole(w, p) && !w.reading
    ensures Proceeds(w, ConnectionDelivers(p, kind)) && Safe(w, ConnectionDelivers(p, kind))
    ensures var v := After(w, ConnectionDelivers(p, kind));
      && Looks(v, p, w.clients[p], w.clientsQ + [IncomingEvent(kind, w.next)], w.serverQ, w.authQ, w.transactions)
      && v.admitted == w.admitted
  {
    hide Reachable;
    StaysSole(w, p, ConnectionDelivers(p, kind));
    AfterLooks(w, ConnectionDelivers(p, kind), p);
  }

  lemma TakesSubmission(w: World, p: Ptr, step: Step)
    requires Sole(w, p) && !w.reading && step.ClientsHandle? && w.clientsQ != [] && w.clientsQ[0].IncomingEvent? && p !in w.admitted
    requires Submits(w.clientsQ[0].kind) && StartsLogin(w.clients[p].state, w.clientsQ[0].kind)
    ensures Proceeds(w, step) && Safe(w, step)
    ensures var v := After(w, step);
      && Looks(v, p, w.clients[p].(state := StateOnEvent(w.clients[p].state, w.clientsQ[0].kind)), w.clientsQ[1..],
               w.serverQ + [StartAuth(w.next, w.next + 1)], w.authQ, w.transactions)
      && v.admitted == w.admitted
  {
    hide Sole, Processed, Dropped;
    HeadIsSoles(w, p);
    SoleTargets(w, p);
    SubmissionProceeds(w, p, step);
    StaysSole(w, p, step);
    SubmissionProcessed(TakenClients(w), p, w.clientsQ[0].kind);
    assert p in After(w, step).clients by {
      hide After;
      SoleTargets(After(w, step), p);
    }
    AfterLooks(w, step, p);
  }

  lemma SubmissionProceeds(w: World, p: Ptr, step: Step)
    requires step.ClientsHandle? && w.clientsQ != [] && w.clientsQ[0].IncomingEvent? && !w.reading
    requires Message(w.clientsQ[0].n) in w.store.slots && w.Of(w.clientsQ[0].n) == p && Credentials(p) in w.store.slots
    ensures Proceeds(w, step)
  {
  }

  lemma SubmissionProcessed(w: World, p: Ptr, kind: EventKind)
    requires p in w.clients && HasCredentials(w, p) && Submits(kind) && StartsLogin(w.clients[p].state, kind)
    ensures var v := Processed(w, p, kind);
      && v.clients == w.clients[p := w.clients[p].(state := StateOnEvent(w.clients[p].state, kind))]
      && v.clientsQ == w.clientsQ && v.serverQ == w.serverQ + [StartAuth(w.next, w.next + 1)]
      && v.authQ == w.authQ && v.transactions == w.transactions && v.admitted == w.admitted && v.reading == w.reading
  {
    hide Shared;
  }

  lemma HeadIsSoles(w: World, p: Ptr)
    requires Sole(w, p)
    ensures w.clientsQ != [] && !w.clientsQ[0].OpenClient? ==> Message(w.clientsQ[0].n) in w.store.slots && w.Of(w.clientsQ[0].n) == p
    ensures w.serverQ != [] && !w.serverQ[0].FinishAuth? ==> Message(w.serverQ[0].n) in w.store.slots && w.Of(w.serverQ[0].n) == p
  {
    hide Reachable, ReferencesInv, TransactionsInv, PinnedInv;
    ReachableInv(w);
    if w.clientsQ != [] && !w.clientsQ[0].OpenClient? {
      ClientsHeadLive(w);
    }
    if w.serverQ != [] && !w.serverQ[0].FinishAuth? {
      ServerHeadLive(w);
    }
  }

  lemma TakesAdvice(w: World, p: Ptr, step: Step)
    requires Sole(w, p) && !w.reading && step.ClientsHandle? && w.clientsQ != [] && w.clientsQ[0].AuthEvent?
    ensures Proceeds(w, step) && Safe(w, step)
    ensures var v, advice := After(w, step), w.clientsQ[0].step;
      && Looks(v, p, Client(StateAfter(advice), None), w.clientsQ[1..],
               w.serverQ + [FinishAuth(w.clients[p].transaction)], w.authQ, w.transactions)
      && v.admitted == if advice == Authenticated then w.admitted + {p} else w.admitted
  {
    hide Sole, Release;
    HeadIsSoles(w, p);
    StaysSole(w, p, step);
    assert p in After(w, step).clients by {
      SoleTargets(After(w, step), p);
    }
    AfterLooks(w, step, p);
  }

  lemma TakesStart(w: World, p: Ptr, t: Tid)
    requires Sole(w, p) && !w.reading && w.serverQ != [] && w.serverQ[0].StartAuth? && t !in w.transactions
    ensures Proceeds(w, ServerHandle(t)) && Safe(w, ServerHandle(t))
    ensures var v := After(w, ServerHandle(t));
      && Looks(v, p, w.clients[p].(transaction := Some(t)), w.clientsQ, w.serverQ[1..],
               w.authQ + [ProcessCredentials(w.serverQ[0].c, t)], w.transactions[t := Transaction(Processing, Some(w.next))])
      && v.admitted == w.admitted
  {
    hide Sole, Release, Shared;
    HeadIsSoles(w, p);
    StaysSole(w, p, ServerHandle(t));
    assert p in After(w, ServerHandle(t)).clients by {
      SoleTargets(After(w, ServerHandle(t)), p);
    }
    AfterLooks(w, ServerHandle(t), p);
  }

  lemma TakesResult(w: World, p: Ptr)
    requires Sole(w, p) && !w.reading && w.serverQ != [] && w.serverQ[0].AuthResult?
    ensures Proceeds(w, ServerHandle(0)) && Safe(w, ServerHandle(0))
    ensures var v := After(w, ServerHandle(0));
      && Looks(v, p, w.clients[p], w.clientsQ + [AuthEvent(w.serverQ[0].step, w.serverQ[0].n)], w.serverQ[1..], w.authQ, w.transactions)
      && v.admitted == w.admitted
  {
    hide Sole, Release;
    SoleTargets(w, p);
    StaysSole(w, p, ServerHandle(0));
    assert p in After(w, ServerHandle(0)).clients by {
      SoleTargets(After(w, ServerHandle(0)), p);
    }
    AfterLooks(w, ServerHandle(0), p);
  }

  lemma TakesFinish(w: World, p: Ptr)
    requires Sole(w, p) && !w.reading && w.serverQ != [] && w.serverQ[0].FinishAuth? && w.serverQ[0].transaction.Some?
    requires var t := w.serverQ[0].transaction.value; t in w.transactions && w.transactions[t].state == Done
    ensures Proceeds(w, ServerHandle(0)) && Safe(w, ServerHandle(0))
    ensures var v := After(w, ServerHandle(0));
      && Looks(v, p, w.clients[p], w.clientsQ, w.serverQ[1..], w.authQ, w.transactions - {w.serverQ[0].transaction.value})
      && v.admitted == w.admitted
  {
    hide Sole, Release;
    SoleTargets(w, p);
    StaysSole(w, p, ServerHandle(0));
    assert p in After(w, ServerHandle(0)).clients by {
      SoleTargets(After(w, ServerHandle(0)), p);
    }
    AfterLooks(w, ServerHandle(0), p);
  }

  lemma StartsReading(w: World, p: Ptr)
    requires Sole(w, p) && !w.reading && w.authQ != []
    requires var t := w.authQ[0].transaction; t in w.transactions && w.transactions[t].state == Processing
    ensures Proceeds(w, AuthReads) && Safe(w, AuthReads) && After(w, AuthReads) == w.(reading := true)
    ensures Sole(After(w, AuthReads), p)
  {
    hide Sole;
    StaysSole(w, p, AuthReads);
  }

  /** The worker reads and decides, undisturbed. */
  lemma Judges(w: World, p: Ptr, result: AuthStep) returns (v: World)
    requires Sole(w, p) && !w.reading && w.authQ != []
    requires var t := w.authQ[0].transaction;
      t in w.transactions && w.transactions[t].state == Processing && w.transactions[t].consumer.Some?
    ensures var t := w.authQ[0].transaction;
      && Looks(v, p, w.clients[p], w.clientsQ, w.serverQ + [AuthResult(result, w.transactions[t].consumer.value)], w.authQ[1..],
               w.transactions[t := Transaction(Done, None)])
      && v.admitted == w.admitted
  {
    hide Sole, Proceeds, Safe, After;
    StartsReading(w, p);
    var u := After(w, AuthReads);
    Decides(u, p, result);
    v := After(u, AuthHandle(result));
  }

  lemma Decides(w: World, p: Ptr, result: AuthStep)
    requires Sole(w, p) && w.reading && w.authQ != []
    requires var t := w.authQ[0].transaction; t in w.transactions && w.transactions[t].state == Processing
    ensures Proceeds(w, AuthHandle(result)) && Safe(w, AuthHandle(result))
    ensures var t, v := w.authQ[0].transaction, After(w, AuthHandle(result));
      && Looks(v, p, w.clients[p], w.clientsQ, w.serverQ + [AuthResult(result, w.transactions[t].consumer.value)], w.authQ[1..],
               w.transactions[t := Transaction(Done, None)])
      && v.admitted == w.admitted
  {
    hide Sole, Release;
    SoleTargets(w, p);
    StaysSole(w, p, AuthHandle(result));
    assert p in After(w, AuthHandle(result)).clients by {
      SoleTargets(After(w, AuthHandle(result)), p);
    }
    AfterLooks(w, AuthHandle(result), p);
  }

  // ---------------------------------------------------------------- its rounds

  /** Nothing in flight. */
  ghost predicate Idle(w: World, p: Ptr, state: ClientState) { Looks(w, p, Client(state, None), [], [], [], map[]) }

  /** A submission is on its way to the server, and nothing else. */
  ghost predicate Started(w: World, p: Ptr, state: ClientState) {
    && |w.serverQ| == 1 && w.serverQ[0].StartAuth?
    && Looks(w, p, Client(state, None), [], w.serverQ, [], map[])
  }

  lemma OpensConnected(w: World, p: Ptr, c: Ptr)
    requires Reachable(w) && w.clientsQ == [OpenClient] && Proceeds(w, ClientsHandle(p, c)) && Safe(w, ClientsHandle(p, c))
    ensures Connection(p) in After(w, ClientsHandle(p, c)).store.slots
  {
    hide Reachable, ReferencesInv, TransactionsInv, PinnedInv, Release, Opened, AuthStarted;
    var taken := TakenClients(w);
    OpenedHasCredentials(taken, p, c);
    OpenedConnects(taken, p, c);
    OpenedKeepsMap(taken, p, c);
    assert Handled(w, ClientsHandle(p, c)) == AuthStarted(Opened(taken, p, c), p);
    ReleaseKeepsConnection(Handled(w, ClientsHandle(p, c)).store, Message(w.next), p);
  }

  lemma OpenedConnects(w: World, p: Ptr, c: Ptr)
    ensures Connection(p) in Opened(w, p, c).store.slots
    ensures HasCredentials(Opened(w, p, c), p) ==> Connection(p) in AuthStarted(Opened(w, p, c), p).store.slots
  {
  }

  lemma OpenedLooks(w: World, p: Ptr, c: Ptr)
    requires w.clientsQ == [OpenClient] && Proceeds(w, ClientsHandle(p, c)) && Safe(w, ClientsHandle(p, c))
    requires w.clients == map[] && w.serverQ == [] && w.authQ == [] && w.transactions == map[]
    ensures var h := Handled(w, ClientsHandle(p, c));
      && h.clients == map[p := Client(AuthInit, None)] && h.clientsQ == [] && |h.serverQ| == 1 && h.serverQ[0].StartAuth?
      && h.authQ == [] && h.transactions == map[] && h.admitted == w.admitted - {p}
      && h.reading == w.reading
  {
    hide Shared, Appended, Recounted, Created;
  }

  lemma Accepting() returns (w: World)
    ensures Reachable(w) && w == Initial().(clientsQ := [OpenClient])
  {
    assert Run(Initial(), [], Initial());
    NoUseAfterFree(Initial(), AcceptConnection);
    w := After(Initial(), AcceptConnection);
  }

  lemma Opening(p: Ptr, c: Ptr) returns (v: World)
    requires p != c
    ensures Started(v, p, AuthInit) && v.admitted == {}
  {
    hide Reachable, Inv, Opened, Handled;
    var w := Accepting();
    var step := ClientsHandle(p, c);
    NoUseAfterFree(w, step);
    OpensConnected(w, p, c);
    v := After(w, step);
    OpenedLooks(w, p, c);
    ReachableInv(v);
    ConnectedIsClient(v, p);
    AfterLooks(w, step, p);
    LastReleaseKeepsMessages(w, step);
    assert v.clients.Keys == {p};
  }

  /** The submission is decided, and its client told. */
  lemma Answer(w: World, p: Ptr, state: ClientState, advice: AuthStep) returns (v: World)
    requires Started(w, p, state)
    ensures Idle(v, p, StateAfter(advice))
    ensures v.admitted == if advice == Authenticated then w.admitted + {p} else w.admitted
  {
    hide Sole, After, Proceeds, Safe;
    TakesStart(w, p, 0);
    var a := After(w, ServerHandle(0));
    var b := Judges(a, p, advice);
    TakesResult(b, p);
    var c := After(b, ServerHandle(0));
    TakesAdvice(c, p, ClientsHandle(0, 0));
    var d := After(c, ClientsHandle(0, 0));
    TakesFinish(d, p);
    v := After(d, ServerHandle(0));
    assert v.transactions == map[];
  }

  lemma Submission(w: World, p: Ptr, state: ClientState, kind: EventKind) returns (v: World)
    requires Idle(w, p, state) && p !in w.admitted && StartsLogin(state, kind)
    ensures Started(v, p, StateOnEvent(state, kind)) && v.admitted == w.admitted
  {
    hide Sole, After, Proceeds, Safe;
    Delivers(w, p, kind);
    var a := After(w, ConnectionDelivers(p, kind));
    TakesSubmission(a, p, ClientsHandle(0, 0));
    v := After(a, ClientsHandle(0, 0));
  }

  // ---------------------------------------------------------------- the two runs

  /** A client logs in with a new name, and then submits a name or a password again: the server reads
      through the credentials it has released. */
  lemma SubmittingWhenActive(p: Ptr, c: Ptr, kind: EventKind, step: Step) returns (v: World)
    requires p != c && Submits(kind) && step.ClientsHandle?
    ensures Reachable(v) && NextSubmits(v, p) && Enabled(v, step) && Faults(v, step)
  {
    hide Reachable, Looks;
    var connected := Opening(p, c);
    var named := Answer(connected, p, AuthInit, UsernameRequired);
    var asked := Submission(named, p, AuthUsername, UsernameSubmit);
    var known := Answer(asked, p, AuthProcessing, PasswordCreation);
    var given := Submission(known, p, AuthPassword, PasswordSubmit);
    var active := Answer(given, p, AuthPassword, Authenticated);
    assert Looks(active, p, Client(Active, None), [], [], [], map[]);
    IdleLooks(active, p, Active);
    LaterSubmissionFaults(active, p, kind, step);
    v := After(active, ConnectionDelivers(p, kind));
  }

  lemma IdleLooks(w: World, p: Ptr, state: ClientState)
    requires Idle(w, p, state)
    ensures Sole(w, p) && Reachable(w) && Connection(p) in w.store.slots && w.clientsQ == []
  {
  }

  /** A client submits its password twice before the first has been answered. The second transaction's
      address overwrites the first's, so the second answer finds none to finish: the server fails its
      assertion, and one of the two transactions is lost. */
  lemma SubmittingTwice(p: Ptr, c: Ptr, step: Step) returns (v: World)
    requires p != c && step.ServerHandle?
    ensures Reachable(v) && v.admitted == {} && v.serverQ == [FinishAuth(None)] && Enabled(v, step) && Faults(v, step)
    ensures Orphan(v, 0)
  {
    hide Sole;
    var connected := Opening(p, c);
    var named := Answer(connected, p, AuthInit, UsernameRequired);
    var asked := Submission(named, p, AuthUsername, UsernameSubmit);
    var known := Answer(asked, p, AuthProcessing, PasswordRequired);
    var both := TwoPasswords(known, p);
    var answered := BothRejected(both, p);
    v := BothTold(answered, p);
    SoleReachable(v, p);
    assert v.transactions.Keys == {0};
  }

  lemma SoleReachable(w: World, p: Ptr)
    requires Sole(w, p)
    ensures Reachable(w) && w.clients.Keys == {p}
  {
  }

  lemma TwoPasswords(w: World, p: Ptr) returns (v: World)
    requires Idle(w, p, AuthPassword) && p !in w.admitted
    ensures |v.serverQ| == 2 && v.serverQ[0].StartAuth? && v.serverQ[1].StartAuth?
    ensures Looks(v, p, Client(AuthPassword, None), [], v.serverQ, [], map[]) && v.admitted == w.admitted
  {
    hide Sole, After, Proceeds, Safe;
    Delivers(w, p, PasswordSubmit);
    var a := After(w, ConnectionDelivers(p, PasswordSubmit));
    Delivers(a, p, PasswordSubmit);
    var b := After(a, ConnectionDelivers(p, PasswordSubmit));
    TakesSubmission(b, p, ClientsHandle(0, 0));
    var d := After(b, ClientsHandle(0, 0));
    TakesSubmission(d, p, ClientsHandle(0, 0));
    v := After(d, ClientsHandle(0, 0));
  }

  lemma BothRejected(w: World, p: Ptr) returns (v: World)
    requires |w.serverQ| == 2 && w.serverQ[0].StartAuth? && w.serverQ[1].StartAuth?
    requires Looks(w, p, Client(AuthPassword, None), [], w.serverQ, [], map[])
    ensures |v.serverQ| == 2 && v.serverQ[0].AuthResult? && v.serverQ[1].AuthResult?
    ensures v.serverQ[0].step == v.serverQ[1].step == PasswordRejected
    ensures Looks(v, p, Client(AuthPassword, Some(1)), [], v.serverQ, [], map[0 := Transaction(Done, None), 1 := Transaction(Done, None)])
    ensures v.admitted == w.admitted
  {
    hide Sole, After, Proceeds, Safe;
    TakesStart(w, p, 0);
    var a := After(w, ServerHandle(0));
    TakesStart(a, p, 1);
    var b := After(a, ServerHandle(1));
    var d := Judges(b, p, PasswordRejected);
    v := Judges(d, p, PasswordRejected);
  }

  lemma BothTold(w: World, p: Ptr) returns (v: World)
    requires |w.serverQ| == 2 && w.serverQ[0].AuthResult? && w.serverQ[1].AuthResult?
    requires w.serverQ[0].step == w.serverQ[1].step == PasswordRejected
    requires Looks(w, p, Client(AuthPassword, Some(1)), [], w.serverQ, [], map[0 := Transaction(Done, None), 1 := Transaction(Done, None)])
    ensures Looks(v, p, Client(AuthPassword, None), [], [FinishAuth(None)], [], map[0 := Transaction(Done, None)])
    ensures v.admitted == w.admitted
  {
    hide Sole, After, Proceeds, Safe;
    TakesResult(w, p);
    var a := After(w, ServerHandle(0));
    TakesResult(a, p);
    var b := After(a, ServerHandle(0));
    TakesAdvice(b, p, ClientsHandle(0, 0));
    var d := After(b, ClientsHandle(0, 0));
    TakesAdvice(d, p, ClientsHandle(0, 0));
    var e := After(d, ClientsHandle(0, 0));
    TakesFinish(e, p);
    v := After(e, ServerHandle(0));
    assert v.transactions == map[0 := Transaction(Done, None)];
  }

  /** A client submits its password, and while the worker is reading it submits a name or a password again:
      the client module may take the submission before the worker decides, or the other way round. */
  lemma SubmittingWhileRead(p: Ptr, c: Ptr, kind: EventKind, step: Step, result: AuthStep) returns (v: World)
    requires p != c && Submits(kind) && step.ClientsHandle?
    ensures Reachable(v) && v.admitted == {} && ReadsFor(v, p) && NextStarts(v, p)
    ensures Enabled(v, step) && Faults(v, step) && Proceeds(v, AuthHandle(result))
  {
    hide Sole, Faults, Reachable;
    var connected := Opening(p, c);
    var named := Answer(connected, p, AuthInit, UsernameRequired);
    var asked := Submission(named, p, AuthUsername, UsernameSubmit);
    var known := Answer(asked, p, AuthProcessing, PasswordRequired);
    v := StartedTwice(known, p, kind);
    SoleReachable(v, p);
    FaultsExactly(v, step);
    DecisionProceeds(v, result);
  }

  lemma DecisionProceeds(w: World, result: AuthStep)
    requires w.reading && w.authQ != []
    ensures Proceeds(w, AuthHandle(result))
  {
  }

  lemma StartedTwice(w: World, p: Ptr, kind: EventKind) returns (v: World)
    requires Idle(w, p, AuthPassword) && p !in w.admitted && Submits(kind)
    ensures Sole(v, p) && ReadsFor(v, p) && NextStarts(v, p) && v.admitted == w.admitted
  {
    hide Sole, After, Proceeds, Safe;
    Delivers(w, p, PasswordSubmit);
    var a := After(w, ConnectionDelivers(p, PasswordSubmit));
    Delivers(a, p, kind);
    var b := After(a, ConnectionDelivers(p, kind));
    TakesSubmission(b, p, ClientsHandle(0, 0));
    var d := After(b, ClientsHandle(0, 0));
    TakesStart(d, p, 0);
    var e := After(d, ServerHandle(0));
    StartsReading(e, p);
    v := After(e, AuthReads);
    SoleReachable(v, p);
    HeadIsSoles(v, p);
    ConsumerIsSoles(v, p);
  }

  lemma ConsumerIsSoles(w: World, p: Ptr)
    requires Sole(w, p) && w.authQ != []
    ensures var t := w.authQ[0].transaction;
      && t in w.transactions && w.transactions[t].consumer.Some? && Refers(w.store.slots, w.transactions[t].consumer.value, p)
  {
    hide Reachable, Inv;
    ReachableInv(w);
    AuthHeadOf(w);
    SoleTargets(w, p);
  }
}
