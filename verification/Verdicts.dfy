/** Verdicts over whole runs: from the worker that decides on a client's credentials to the handler that tells
    the client, and what each message does to the state of its client. */
module Verdicts {
  import opened SharedPtr
  import opened ClientList
  import opened ServerWorld
  import opened ServerTransactions
  import opened ServerSteps
  import opened ServerReferenceSteps
  import opened ServerTransactionSteps
  import opened ServerPinning
  import opened ServerRuns
  import opened ServerOrphans
  import opened ServerReading
  import opened Departures

  // ---------------------------------------------------------------- verdicts on their way

  /** A verdict, and the client that it is for. */
  datatype Given = Given(step: AuthStep, client: Option<Ptr>)

  ghost function InClients(slots: Slots, q: seq<ClientsMessage>): seq<Given> {
    if q == [] then []
    else (if q[0].AuthEvent? then [Given(q[0].step, Get(slots, Message(q[0].n)))] else []) + InClients(slots, q[1..])
  }

  ghost function InServer(slots: Slots, q: seq<ServerMessage>): seq<Given> {
    if q == [] then []
    else (if q[0].AuthResult? then [Given(q[0].step, Get(slots, Message(q[0].n)))] else []) + InServer(slots, q[1..])
  }

  /** Oldest first: those for the client module, and behind them those that have yet to pass the server's. */
  ghost function UnderWay(w: World): seq<Given> {
    InClients(w.store.slots, w.clientsQ) + InServer(w.store.slots, w.serverQ)
  }

  /** A step of the worker, unless it drops a cancelled transaction, decides for the transaction's client. */
  ghost function DecidedBy(w: World, step: Step): seq<Given>
    requires Proceeds(w, step) && Safe(w, step)
  {
    if !step.AuthHandle? || HeadCancelled(w) then []
    else [Given(step.result, Get(w.store.slots, Message(w.transactions[w.authQ[0].transaction].consumer.value)))]
  }

  ghost function ToldBy(w: World, step: Step): seq<Given>
    requires Proceeds(w, step)
  {
    if step.ClientsHandle? && w.clientsQ[0].AuthEvent? then
      [Given(w.clientsQ[0].step, Get(w.store.slots, Message(w.clientsQ[0].n)))]
    else []
  }

  lemma {:induction false} InClientsAppend(slots: Slots, q: seq<ClientsMessage>, m: ClientsMessage)
    ensures InClients(slots, q + [m]) == InClients(slots, q) + InClients(slots, [m])
  {
    if q == [] {
      assert q + [m] == [m];
    } else {
      assert (q + [m])[1..] == q[1..] + [m];
      InClientsAppend(slots, q[1..], m);
    }
  }

  lemma {:induction false} InServerAppend(slots: Slots, q: seq<ServerMessage>, m: ServerMessage)
    ensures InServer(slots, q + [m]) == InServer(slots, q) + InServer(slots, [m])
  {
    if q == [] {
      assert q + [m] == [m];
    } else {
      assert (q + [m])[1..] == q[1..] + [m];
      InServerAppend(slots, q[1..], m);
    }
  }

  lemma {:induction false} InClientsStill(slots: Slots, q: seq<ClientsMessage>, after: Slots)
    requires forall m :: m in q && m.AuthEvent? ==> Get(after, Message(m.n)) == Get(slots, Message(m.n))
    ensures InClients(after, q) == InClients(slots, q)
  {
    if q != [] {
      assert q[0] in q;
      InClientsStill(slots, q[1..], after);
    }
  }

  lemma {:induction false} InServerStill(slots: Slots, q: seq<ServerMessage>, after: Slots)
    requires forall m :: m in q && m.AuthResult? ==> Get(after, Message(m.n)) == Get(slots, Message(m.n))
    ensures InServer(after, q) == InServer(slots, q)
  {
    if q != [] {
      assert q[0] in q;
      InServerStill(slots, q[1..], after);
    }
  }

  // ---------------------------------------------------------------- the server's queue after a step

  lemma ResultsAreHeld(w: World)
    requires Inv(w)
    ensures forall m :: m in w.serverQ && m.AuthResult? ==> Message(m.n) in w.store.slots && m.n < w.next
  {
    hide TransactionsInv, PinnedInv;
    NextIsFree(w);
    forall m | m in w.serverQ && m.AuthResult?
      ensures Message(m.n) in w.store.slots
    {
      var i :| 0 <= i < |w.serverQ| && w.serverQ[i] == m;
      AnnouncementCarried(w.serverQ, i);
      CarriedIsLive(w, m.n);
    }
  }

  /** What a handler of the client module puts there is never a verdict. */
  ghost predicate NoVerdictAdded(w: World, v: World) {
    exists m: ServerMessage :: !m.AuthResult? && (v.serverQ == w.serverQ || v.serverQ == w.serverQ + [m])
  }

  lemma StartedAddsNone(w: World, p: Ptr)
    requires HasCredentials(w, p)
    ensures NoVerdictAdded(w, AuthStarted(w, p))
  {
    hide Shared;
    assert AuthStarted(w, p).serverQ == w.serverQ + [StartAuth(w.next, w.next + 1)];
  }

  lemma OpenedQueue(w: World, p: Ptr, c: Ptr)
    ensures Opened(w, p, c).serverQ == w.serverQ
  {
  }

  lemma AdvisedAddsNone(w: World, p: Ptr, advice: AuthStep)
    requires p in w.clients
    ensures NoVerdictAdded(w, Advised(w, p, advice))
  {
    hide Release;
    assert Advised(w, p, advice).serverQ == w.serverQ + [FinishAuth(w.clients[p].transaction)];
  }

  lemma ProcessedAddsNone(w: World, p: Ptr, kind: EventKind)
    requires p in w.clients && (StartsLogin(w.clients[p].state, kind) ==> HasCredentials(w, p))
    ensures NoVerdictAdded(w, Processed(w, p, kind))
  {
    hide Shared, AuthStarted;
    if StartsLogin(w.clients[p].state, kind) {
      StartedAddsNone(WithClient(w, p, w.clients[p].(state := StateOnEvent(w.clients[p].state, kind))), p);
    } else {
      assert !FinishAuth(None).AuthResult?;
    }
  }

  lemma ClientsAddNone(w: World, step: Step)
    requires step.ClientsHandle? && Proceeds(w, step) && Safe(w, step)
    ensures NoVerdictAdded(w, Handled(w, step))
  {
    hide Opened, AuthStarted, Advised, Processed, ServerWorld.Closed;
    var taken := TakenClients(w);
    match w.clientsQ[0]
    case OpenClient =>
      OpenedHasCredentials(taken, step.newClient, step.newCredentials);
      OpenedQueue(taken, step.newClient, step.newCredentials);
      StartedAddsNone(Opened(taken, step.newClient, step.newCredentials), step.newClient);
    case AuthEvent(advice, n) => AdvisedAddsNone(taken, w.Of(n), advice);
    case IncomingEvent(kind, n) => ProcessedAddsNone(taken, w.Of(n), kind);
    case ConnectionClosed(n) => ClosedAddsNone(taken, w.Of(n));
  }

  lemma ClosedAddsNone(w: World, p: Ptr)
    requires p in w.listed
    ensures NoVerdictAdded(w, ServerWorld.Closed(w, p))
  {
    hide Unlinked, Recounted;
    assert !FinishAuth(None).AuthResult?;
  }

  lemma ServerTakesOne(w: World, t: Tid)
    requires Proceeds(w, ServerHandle(t)) && Safe(w, ServerHandle(t))
    ensures Handled(w, ServerHandle(t)).serverQ == w.serverQ[1..]
  {
    hide Shared;
  }

  lemma WorkerAddsOne(w: World, result: AuthStep)
    requires Proceeds(w, AuthHandle(result)) && Safe(w, AuthHandle(result))
    ensures Handled(w, AuthHandle(result)).serverQ == w.serverQ +
      if HeadCancelled(w) then [] else [AuthResult(result, w.transactions[w.authQ[0].transaction].consumer.value)]
  {
    hide Release;
  }

  lemma OthersAddNone(w: World, step: Step)
    requires !step.ClientsHandle? && !step.ServerHandle? && !step.AuthHandle? && Proceeds(w, step) && Safe(w, step)
    ensures Handled(w, step).serverQ == w.serverQ
  {
    hide Shared;
  }

  lemma NoneAdded(slots: Slots, w: World, v: World)
    requires NoVerdictAdded(w, v)
    ensures InServer(slots, v.serverQ) == InServer(slots, w.serverQ)
  {
    var m: ServerMessage :| !m.AuthResult? && (v.serverQ == w.serverQ || v.serverQ == w.serverQ + [m]);
    InServerAppend(slots, w.serverQ, m);
  }

  /** The verdicts in a world's queues, with references as in an earlier one. */
  ghost function Still(slots: Slots, w: World): seq<Given> { InClients(slots, w.clientsQ) + InServer(slots, w.serverQ) }

  lemma ServerMoves(w: World, t: Tid)
    requires Proceeds(w, ServerHandle(t)) && Safe(w, ServerHandle(t))
    ensures Still(w.store.slots, After(w, ServerHandle(t))) == UnderWay(w)
  {
    hide After, Handled, Safe, Faults;
    QueueAfter(w, ServerHandle(t));
    LastReleaseKeepsMessages(w, ServerHandle(t));
    ServerTakesOne(w, t);
    if w.serverQ[0].AuthResult? {
      InClientsAppend(w.store.slots, w.clientsQ, AuthEvent(w.serverQ[0].step, w.serverQ[0].n));
    }
  }

  lemma WorkerMoves(w: World, result: AuthStep)
    requires Proceeds(w, AuthHandle(result)) && Safe(w, AuthHandle(result))
    ensures Still(w.store.slots, After(w, AuthHandle(result))) == UnderWay(w) + DecidedBy(w, AuthHandle(result))
  {
    hide After, Handled, Faults;
    var v := After(w, AuthHandle(result));
    QueueAfter(w, AuthHandle(result));
    LastReleaseKeepsMessages(w, AuthHandle(result));
    WorkerAddsOne(w, result);
    if HeadCancelled(w) {
      assert v.serverQ == w.serverQ;
    } else {
      InServerAppend(w.store.slots, w.serverQ, v.serverQ[|w.serverQ|]);
    }
  }

  /** With every reference as before, the verdicts move on by one place. */
  lemma VerdictsMove(w: World, step: Step)
    requires Proceeds(w, step) && Safe(w, step)
    ensures UnderWay(w) + DecidedBy(w, step) == ToldBy(w, step) + Still(w.store.slots, After(w, step))
  {
    hide After, Handled, Safe, Faults;
    var v, slots := After(w, step), w.store.slots;
    match step
    case ServerHandle(t) => ServerMoves(w, t);
    case AuthHandle(result) => WorkerMoves(w, result);
    case ClientsHandle(_, _) =>
      QueueAfter(w, step);
      LastReleaseKeepsMessages(w, step);
      ClientsAddNone(w, step);
      NoneAdded(slots, w, v);
    case AuthReads =>
      QueueAfter(w, step);
      LastReleaseKeepsMessages(w, step);
      OthersAddNone(w, step);
    case _ =>
      QueueAfter(w, step);
      LastReleaseKeepsMessages(w, step);
      OthersAddNone(w, step);
      InClientsAppend(slots, w.clientsQ, v.clientsQ[|w.clientsQ|]);
  }

  lemma StepPassesOn(w: World, step: Step)
    requires Reachable(w) && Proceeds(w, step) && Safe(w, step)
    ensures UnderWay(w) + DecidedBy(w, step) == ToldBy(w, step) + UnderWay(After(w, step))
  {
    hide Reachable, Inv, After;
    var v := After(w, step);
    VerdictsMove(w, step);
    ReachableInv(w);
    NoUseAfterFree(w, step);
    ReachableInv(v);
    QueuedAreHeld(w);
    ResultsAreHeld(w);
    QueuedAreHeld(v);
    ResultsAreHeld(v);
    QueueAfter(w, step);
    forall m | m in v.clientsQ && m.AuthEvent?
      ensures Get(v.store.slots, Message(m.n)) == Get(w.store.slots, Message(m.n))
    {
      StepStays(w, step, Message(m.n));
    }
    forall m | m in v.serverQ && m.AuthResult?
      ensures Get(v.store.slots, Message(m.n)) == Get(w.store.slots, Message(m.n))
    {
      ResultIsOld(w, step, m);
      StepStays(w, step, Message(m.n));
    }
    InClientsStill(w.store.slots, v.clientsQ, v.store.slots);
    InServerStill(w.store.slots, v.serverQ, v.store.slots);
  }

  lemma ConsumerIsOld(w: World, result: AuthStep)
    requires Inv(w) && Proceeds(w, AuthHandle(result)) && Safe(w, AuthHandle(result))
    ensures w.transactions[w.authQ[0].transaction].consumer.value < w.next
  {
    hide TransactionsInv, PinnedInv;
    NextIsFree(w);
  }

  lemma ResultIsOld(w: World, step: Step, m: ServerMessage)
    requires Inv(w) && Proceeds(w, step) && Safe(w, step) && m in After(w, step).serverQ && m.AuthResult?
    ensures m.n < w.next
  {
    hide Inv, After, Handled;
    ResultsAreHeld(w);
    LastReleaseKeepsMessages(w, step);
    match step
    case ClientsHandle(_, _) => ClientsAddNone(w, step);
    case ServerHandle(t) => ServerTakesOne(w, t);
    case AuthHandle(result) =>
      WorkerAddsOne(w, result);
      ConsumerIsOld(w, result);
    case _ => OthersAddNone(w, step);
  }

  // ---------------------------------------------------------------- the theorems

  /** What a run decides, and what it tells its clients. */
  ghost function AllDecided(w: World, steps: seq<Step>): seq<Given>
    decreases |steps|
  {
    if steps == [] || !Proceeds(w, steps[0]) || !Safe(w, steps[0]) then []
    else DecidedBy(w, steps[0]) + AllDecided(After(w, steps[0]), steps[1..])
  }

  ghost function AllTold(w: World, steps: seq<Step>): seq<Given>
    decreases |steps|
  {
    if steps == [] || !Proceeds(w, steps[0]) || !Safe(w, steps[0]) then []
    else ToldBy(w, steps[0]) + AllTold(After(w, steps[0]), steps[1..])
  }

  /** Over any run, the verdicts that clients are told are those that the worker has decided, for the same
      clients and in the same order, but for those that are still under way: none is lost, repeated, changed
      or sent to another client. */
  lemma {:induction false} VerdictsArrive(w: World, steps: seq<Step>, v: World)
    requires Reachable(w) && Run(w, steps, v)
    ensures UnderWay(w) + AllDecided(w, steps) == AllTold(w, steps) + UnderWay(v)
    decreases |steps|
  {
    hide Reachable, After, DecidedBy, ToldBy, UnderWay, Enabled, Faults, Safe;
    if steps != [] {
      var u := After(w, steps[0]);
      StepPassesOn(w, steps[0]);
      NoUseAfterFree(w, steps[0]);
      VerdictsArrive(u, steps[1..], v);
      assert UnderWay(w) + (DecidedBy(w, steps[0]) + AllDecided(u, steps[1..]))
          == UnderWay(w) + DecidedBy(w, steps[0]) + AllDecided(u, steps[1..]);
      assert ToldBy(w, steps[0]) + UnderWay(u) + AllDecided(u, steps[1..])
          == ToldBy(w, steps[0]) + (UnderWay(u) + AllDecided(u, steps[1..]));
    }
  }

  /** What a message of its does to a client's state: the verdicts lead to the prompts and into the chat, a
      name submitted at a prompt to verification, and a leave out. */
  function Moved(state: ClientState, m: ClientsMessage): ClientState {
    match m
    case AuthEvent(UsernameRequired, _) => AuthUsername
    case AuthEvent(UsernameRejected, _) => AuthUsername
    case AuthEvent(PasswordCreation, _) => AuthPassword
    case AuthEvent(PasswordRequired, _) => AuthPassword
    case AuthEvent(PasswordRejected, _) => AuthPassword
    case AuthEvent(Authenticated, _) => Active
    case IncomingEvent(UsernameSubmit, _) => if state == AuthUsername || state == AuthPassword then AuthProcessing else state
    case IncomingEvent(UserLeave, _) => if state == Active then DisconnectingFromActive else Disconnecting
    case _ => state
  }

  lemma AdvisedMoves(w: World, p: Ptr, advice: AuthStep, n: nat)
    requires p in w.clients && p in Advised(w, p, advice).clients
    ensures Advised(w, p, advice).clients[p].state == Moved(w.clients[p].state, AuthEvent(advice, n))
  {
    hide Release;
  }

  lemma ProcessedMoves(w: World, p: Ptr, kind: EventKind, n: nat)
    requires p in w.clients && (StartsLogin(w.clients[p].state, kind) ==> HasCredentials(w, p)) && p in Processed(w, p, kind).clients
    ensures Processed(w, p, kind).clients[p].state == Moved(w.clients[p].state, IncomingEvent(kind, n))
  {
    hide Shared;
  }

  lemma HandlerMoves(w: World, step: Step, p: Ptr)
    requires Proceeds(w, step) && Safe(w, step) && HandlesOf(w, step, p) && p in w.clients && p in Handled(w, step).clients
    ensures Handled(w, step).clients[p].state == Moved(w.clients[p].state, w.clientsQ[0])
  {
    hide Opened, AuthStarted, Advised, Processed, ServerWorld.Closed;
    match w.clientsQ[0]
    case AuthEvent(advice, n) => AdvisedMoves(TakenClients(w), p, advice, n);
    case IncomingEvent(kind, n) => ProcessedMoves(TakenClients(w), p, kind, n);
    case ConnectionClosed(n) =>
      ClosingLeavesState(TakenClients(w), p);
  }

  lemma ClientsAreLive(w: World)
    requires Inv(w)
    ensures w.clients.Keys <= w.store.counts.Keys
  {
    hide TransactionsInv, PinnedInv;
    NextIsFree(w);
  }

  /** Nothing but a client's own messages moves it, and each exactly so. */
  lemma MovesExactly(w: World, step: Step, p: Ptr)
    requires Reachable(w) && Proceeds(w, step) && Safe(w, step) && p in w.clients && p in After(w, step).clients
    ensures After(w, step).clients[p].state
            == if HandlesOf(w, step, p) then Moved(w.clients[p].state, w.clientsQ[0]) else w.clients[p].state
  {
    hide Reachable, Inv, After, Handled, Moved, HandlesOf, Proceeds, Safe;
    if HandlesOf(w, step, p) {
      LastReleaseKeepsMessages(w, step);
      HandlerMoves(w, step, p);
    } else {
      ReachableInv(w);
      ClientsAreLive(w);
      OthersLeaveState(w, step, p);
    }
  }

  /** A client starts out at the end of the list, waiting for the verdict on a login that the server has been
      asked to start, with no transaction yet. */
  lemma StartsOut(w: World, step: Step)
    requires Reachable(w) && Proceeds(w, step) && Safe(w, step) && step.ClientsHandle? && w.clientsQ[0].OpenClient?
    ensures var v, p := After(w, step), step.newClient;
      && v.listed == w.listed + [p] && p in v.clients && v.clients[p] == Client(AuthInit, None)
      && |v.serverQ| == |w.serverQ| + 1 && w.serverQ <= v.serverQ && v.serverQ[|w.serverQ|].StartAuth?
      && Get(v.store.slots, Message(v.serverQ[|w.serverQ|].n)) == Some(p)
  {
    hide Reachable, Inv, After, Handled, Linked, Dropped;
    var h := Handled(w, step);
    NoUseAfterFree(w, step);
    QueueAfter(w, step);
    ListIsLinked(After(w, step));
    ReachableInv(After(w, step));
    HandledStartsOut(w, step);
    LastReleaseKeepsMessages(w, step);
    StartsAreHeld(After(w, step));
    DroppedStays(h, Message(w.next), Message(h.serverQ[|w.serverQ|].n));
    assert After(w, step) == Dropped(h, Message(w.next)) by {
      AfterOpening(w, step);
    }
  }

  lemma AfterOpening(w: World, step: Step)
    requires Proceeds(w, step) && Safe(w, step) && step.ClientsHandle? && w.clientsQ[0].OpenClient?
    ensures After(w, step) == Dropped(Handled(w, step), Message(w.next))
  {
    hide Handled, Dropped;
  }

  lemma StartsAreHeld(w: World)
    requires Inv(w)
    ensures forall i :: 0 <= i < |w.serverQ| && w.serverQ[i].StartAuth? ==> Message(w.serverQ[i].n) in w.store.slots
  {
    hide TransactionsInv, PinnedInv;
    forall i | 0 <= i < |w.serverQ| && w.serverQ[i].StartAuth?
      ensures Message(w.serverQ[i].n) in w.store.slots
    {
      AnnouncementCarried(w.serverQ, i);
      CarriedIsLive(w, w.serverQ[i].n);
    }
  }

  lemma HandledStartsOut(w: World, step: Step)
    requires Proceeds(w, step) && Safe(w, step) && step.ClientsHandle? && w.clientsQ[0].OpenClient?
    ensures var h, p := Handled(w, step), step.newClient;
      && p in h.clients && h.clients[p] == Client(AuthInit, None)
      && h.serverQ == w.serverQ + [StartAuth(w.next + 1, w.next + 2)]
      && Get(h.store.slots, Message(w.next + 1)) == Some(p)
  {
    hide Opened, AuthStarted;
    var taken := TakenClients(w);
    var o := Opened(taken, step.newClient, step.newCredentials);
    OpenedHasCredentials(taken, step.newClient, step.newCredentials);
    OpenedClient(taken, step.newClient, step.newCredentials);
    StartedMessage(o, step.newClient);
  }

  lemma OpenedClient(w: World, p: Ptr, c: Ptr)
    ensures var o := Opened(w, p, c);
      p in o.clients && o.clients[p] == Client(AuthInit, None) && o.serverQ == w.serverQ && o.next == w.next + 1
  {
  }

  lemma StartedMessage(w: World, p: Ptr)
    requires HasCredentials(w, p)
    ensures var v := AuthStarted(w, p);
      && v.clients == w.clients && v.serverQ == w.serverQ + [StartAuth(w.next, w.next + 1)]
      && Get(v.store.slots, Message(w.next)) == Some(p)
  {
  }
}
