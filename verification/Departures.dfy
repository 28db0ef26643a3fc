/** Leaving, over whole runs: from the handling of a client's leave to that of its connection's last notice. */
module Departures {
  import opened SharedPtr
  import opened ClientList
  import opened ServerWorld
  import opened ServerReferences
  import opened ServerTransactions
  import opened ServerSteps
  import opened ServerReferenceSteps
  import opened ServerTransactionSteps
  import opened ServerPinning
  import opened ServerRuns
  import opened ServerOrphans
  import opened ServerReading
  import opened Broadcasts

  // ---------------------------------------------------------------- events come before the notice

  /** Every queued event is a listed client's, and stands before the notice that its connection has closed. */
  ghost predicate InOrder(slots: Slots, listed: seq<Ptr>, q: seq<ClientsMessage>) {
    forall i :: 0 <= i < |q| && q[i].IncomingEvent? && Message(q[i].n) in slots ==>
      && slots[Message(q[i].n)] in listed
      && forall j :: 0 <= j < i && q[j].ConnectionClosed? ==> Get(slots, Message(q[j].n)) != Get(slots, Message(q[i].n))
  }

  ghost predicate OrderInv(w: World) { InOrder(w.store.slots, w.listed, w.clientsQ) }

  /** Message slots are kept or removed, and clients stay listed. */
  lemma OrderStill(slots: Slots, listed: seq<Ptr>, q: seq<ClientsMessage>, after: Slots, more: seq<Ptr>)
    requires InOrder(slots, listed, q)
    requires forall m :: m in q && !m.OpenClient? && Message(m.n) in after ==> Get(after, Message(m.n)) == Get(slots, Message(m.n))
    requires forall p :: p in listed ==> p in more
    ensures InOrder(after, more, q)
  {
    forall i | 0 <= i < |q| && q[i].IncomingEvent? && Message(q[i].n) in after
      ensures after[Message(q[i].n)] in more
      ensures forall j :: 0 <= j < i && q[j].ConnectionClosed? ==> Get(after, Message(q[j].n)) != Get(after, Message(q[i].n))
    {
      assert q[i] in q && Get(slots, Message(q[i].n)).Some?;
      forall j | 0 <= j < i && q[j].ConnectionClosed?
        ensures Get(after, Message(q[j].n)) != Get(after, Message(q[i].n))
      {
        assert q[j] in q;
      }
    }
  }

  lemma OrderTail(slots: Slots, listed: seq<Ptr>, q: seq<ClientsMessage>)
    requires InOrder(slots, listed, q) && q != []
    ensures InOrder(slots, listed, q[1..])
  {
    forall i | 0 <= i < |q| - 1 && q[1..][i].IncomingEvent? && Message(q[1..][i].n) in slots
      ensures slots[Message(q[1..][i].n)] in listed
      ensures forall j :: 0 <= j < i && q[1..][j].ConnectionClosed? ==> Get(slots, Message(q[1..][j].n)) != Get(slots, Message(q[1..][i].n))
    {
      assert q[i + 1] == q[1..][i];
      forall j | 0 <= j < i && q[1..][j].ConnectionClosed?
        ensures Get(slots, Message(q[1..][j].n)) != Get(slots, Message(q[1..][i].n))
      {
        assert q[j + 1] == q[1..][j];
      }
    }
  }

  lemma OrderAppend(slots: Slots, listed: seq<Ptr>, q: seq<ClientsMessage>, m: ClientsMessage)
    requires InOrder(slots, listed, q)
    requires m.IncomingEvent? && Message(m.n) in slots ==>
      && slots[Message(m.n)] in listed
      && forall j :: 0 <= j < |q| && q[j].ConnectionClosed? ==> Get(slots, Message(q[j].n)) != Some(slots[Message(m.n)])
    ensures InOrder(slots, listed, q + [m])
  {
  }

  /** A client whose connection has closed has no event left in the queue behind the notice. */
  lemma OrderUnlisted(slots: Slots, listed: seq<Ptr>, q: seq<ClientsMessage>, p: Ptr)
    requires InOrder(slots, listed, q) && Distinct(listed) && q != [] && q[0].ConnectionClosed? && Get(slots, Message(q[0].n)) == Some(p)
    requires p in listed
    ensures InOrder(slots, Without(listed, p), q[1..])
  {
    OrderTail(slots, listed, q);
    WithoutMembers(listed, p);
    forall i | 0 <= i < |q| - 1 && q[1..][i].IncomingEvent? && Message(q[1..][i].n) in slots
      ensures slots[Message(q[1..][i].n)] in Without(listed, p)
    {
      assert q[i + 1] == q[1..][i];
      assert Get(slots, Message(q[0].n)) != Get(slots, Message(q[i + 1].n));
    }
  }

  // ---------------------------------------------------------------- every step

  /** What is queued refers to clients by references that are there. */
  lemma QueuedAreHeld(w: World)
    requires Inv(w)
    ensures forall m :: m in w.clientsQ && !m.OpenClient? ==> Message(m.n) in w.store.slots && m.n < w.next
  {
    hide TransactionsInv, PinnedInv;
    NextIsFree(w);
    forall m | m in w.clientsQ && !m.OpenClient?
      ensures Message(m.n) in w.store.slots
    {
      var i :| 0 <= i < |w.clientsQ| && w.clientsQ[i] == m;
      NoticeCarried(w.clientsQ, i);
      CarriedIsLive(w, m.n);
    }
  }

  /** What a step does to the queue and the list. */
  lemma QueueAfter(w: World, step: Step)
    requires Proceeds(w, step) && Safe(w, step)
    ensures var v := After(w, step);
      && v.clientsQ ==
           (match step
            case AcceptConnection => w.clientsQ + [OpenClient]
            case ConnectionDelivers(_, kind) => w.clientsQ + [IncomingEvent(kind, w.next)]
            case ConnectionCloses(_) => w.clientsQ + [ConnectionClosed(w.next)]
            case ClientsHandle(_, _) => w.clientsQ[1..]
            case ServerHandle(_) => if w.serverQ[0].AuthResult? then w.clientsQ + [AuthEvent(w.serverQ[0].step, w.serverQ[0].n)] else w.clientsQ
            case _ => w.clientsQ)
      && v.listed ==
           if step.ClientsHandle? && w.clientsQ[0].OpenClient? then w.listed + [step.newClient]
           else if step.ClientsHandle? && w.clientsQ[0].ConnectionClosed? then Without(w.listed, w.Of(w.clientsQ[0].n))
           else w.listed
  {
    hide Handled;
    HandledQueue(w, step);
    if GivenUp(w, step).Some? {
      DroppedKeepsQueue(Handled(w, step), GivenUp(w, step).value);
    }
  }

  lemma DroppedKeepsQueue(w: World, k: Slot)
    ensures Dropped(w, k).clientsQ == w.clientsQ && Dropped(w, k).listed == w.listed
  {
  }

  lemma HandledQueue(w: World, step: Step)
    requires Proceeds(w, step) && Safe(w, step)
    ensures var v := Handled(w, step);
      && v.clientsQ ==
           (match step
            case AcceptConnection => w.clientsQ + [OpenClient]
            case ConnectionDelivers(_, kind) => w.clientsQ + [IncomingEvent(kind, w.next)]
            case ConnectionCloses(_) => w.clientsQ + [ConnectionClosed(w.next)]
            case ClientsHandle(_, _) => w.clientsQ[1..]
            case ServerHandle(_) => if w.serverQ[0].AuthResult? then w.clientsQ + [AuthEvent(w.serverQ[0].step, w.serverQ[0].n)] else w.clientsQ
            case _ => w.clientsQ)
      && v.listed ==
           if step.ClientsHandle? && w.clientsQ[0].OpenClient? then w.listed + [step.newClient]
           else if step.ClientsHandle? && w.clientsQ[0].ConnectionClosed? then Without(w.listed, w.Of(w.clientsQ[0].n))
           else w.listed
  {
    if step.ClientsHandle? {
      ClientsQueue(w, step);
    } else if step.ServerHandle? {
      ServerQueue(w, step.newTransaction);
    } else {
      hide Release, Shared;
    }
  }

  lemma ServerQueue(w: World, t: Tid)
    requires Proceeds(w, ServerHandle(t)) && Safe(w, ServerHandle(t))
    ensures var v := Handled(w, ServerHandle(t));
      && v.clientsQ == (if w.serverQ[0].AuthResult? then w.clientsQ + [AuthEvent(w.serverQ[0].step, w.serverQ[0].n)] else w.clientsQ)
      && v.listed == w.listed
  {
    hide Submitted, Finished;
    match w.serverQ[0]
    case StartAuth(n, c) => SubmittedList(TakenServer(w), n, c, t);
    case FinishAuth(transaction) => FinishedList(TakenServer(w), transaction.value);
    case AuthResult(_, _) =>
  }

  lemma SubmittedList(w: World, n: nat, c: nat, t: Tid)
    requires LiveClient(w, n)
    ensures var v := Submitted(w, n, c, t);
      && v.clientsQ == w.clientsQ && v.listed == w.listed
      && v.clients.Keys == w.clients.Keys && forall p :: p in w.clients ==> v.clients[p].state == w.clients[p].state
  {
    hide Shared;
  }

  lemma FinishedList(w: World, t: Tid)
    requires t in w.transactions
    ensures var v := Finished(w, t); v.clientsQ == w.clientsQ && v.listed == w.listed && v.clients == w.clients
  {
  }

  lemma ClientsQueue(w: World, step: Step)
    requires step.ClientsHandle? && Proceeds(w, step) && Safe(w, step)
    ensures var v := Handled(w, step);
      && v.clientsQ == w.clientsQ[1..]
      && v.listed == if w.clientsQ[0].OpenClient? then w.listed + [step.newClient]
                     else if w.clientsQ[0].ConnectionClosed? then Without(w.listed, w.Of(w.clientsQ[0].n)) else w.listed
  {
    hide Opened, AuthStarted, Advised, Processed, ServerWorld.Closed;
    var taken := TakenClients(w);
    match w.clientsQ[0]
    case OpenClient =>
      OpenedHasCredentials(taken, step.newClient, step.newCredentials);
      OpenedList(taken, step.newClient, step.newCredentials);
      StartedList(Opened(taken, step.newClient, step.newCredentials), step.newClient);
    case AuthEvent(advice, n) => AdvisedList(taken, w.Of(n), advice);
    case IncomingEvent(kind, n) => ProcessedList(taken, w.Of(n), kind);
    case ConnectionClosed(n) => ClosedList(taken, w.Of(n));
  }

  lemma OpenedList(w: World, p: Ptr, c: Ptr)
    ensures Opened(w, p, c).clientsQ == w.clientsQ && Opened(w, p, c).listed == w.listed + [p]
  {
  }

  lemma StartedList(w: World, p: Ptr)
    requires HasCredentials(w, p)
    ensures AuthStarted(w, p).clientsQ == w.clientsQ && AuthStarted(w, p).listed == w.listed
  {
    hide Shared;
  }

  lemma AdvisedList(w: World, p: Ptr, advice: AuthStep)
    requires p in w.clients
    ensures Advised(w, p, advice).clientsQ == w.clientsQ && Advised(w, p, advice).listed == w.listed
  {
    hide Release;
  }

  lemma ProcessedList(w: World, p: Ptr, kind: EventKind)
    requires p in w.clients && (StartsLogin(w.clients[p].state, kind) ==> HasCredentials(w, p))
    ensures Processed(w, p, kind).clientsQ == w.clientsQ && Processed(w, p, kind).listed == w.listed
  {
    hide Shared;
  }

  lemma ClosedList(w: World, p: Ptr)
    requires p in w.listed
    ensures ServerWorld.Closed(w, p).clientsQ == w.clientsQ && ServerWorld.Closed(w, p).listed == Without(w.listed, p)
  {
    hide Unlinked, Recounted;
  }

  lemma StepKeepsOrder(w: World, step: Step)
    requires Reachable(w) && OrderInv(w) && Proceeds(w, step) && Safe(w, step)
    ensures OrderInv(After(w, step))
  {
    hide Reachable, Inv, After, InOrder, Linked;
    var v := After(w, step);
    ReachableInv(w);
    QueuedAreHeld(w);
    QueueAfter(w, step);
    ListIsLinked(w);
    ListIsDistinct(w.store.slots, w.listed);
    forall m | m in w.clientsQ && !m.OpenClient? && Message(m.n) in v.store.slots
      ensures Get(v.store.slots, Message(m.n)) == Get(w.store.slots, Message(m.n))
    {
      StepStays(w, step, Message(m.n));
    }
    if step.ClientsHandle? {
      HandlingKeepsOrder(w, step);
    } else {
      OrderStill(w.store.slots, w.listed, w.clientsQ, v.store.slots, w.listed);
      if step.ConnectionDelivers? {
        DeliveryInOrder(w, step.p, step.kind);
      }
      if v.clientsQ != w.clientsQ {
        OrderAppend(v.store.slots, w.listed, w.clientsQ, v.clientsQ[|w.clientsQ|]);
      }
    }
  }

  lemma HandlingKeepsOrder(w: World, step: Step)
    requires OrderInv(w) && step.ClientsHandle? && Proceeds(w, step) && Safe(w, step) && Distinct(w.listed)
    requires forall m :: m in w.clientsQ && !m.OpenClient? && Message(m.n) in After(w, step).store.slots ==>
      Get(After(w, step).store.slots, Message(m.n)) == Get(w.store.slots, Message(m.n))
    ensures OrderInv(After(w, step))
  {
    hide After, InOrder;
    var v := After(w, step);
    QueueAfter(w, step);
    OrderTail(w.store.slots, w.listed, w.clientsQ);
    if w.clientsQ[0].ConnectionClosed? {
      var p := w.Of(w.clientsQ[0].n);
      OrderUnlisted(w.store.slots, w.listed, w.clientsQ, p);
      OrderStill(w.store.slots, Without(w.listed, p), w.clientsQ[1..], v.store.slots, v.listed);
    } else {
      OrderStill(w.store.slots, w.listed, w.clientsQ[1..], v.store.slots, v.listed);
    }
  }

  /** An open connection's client is listed, and no notice of its has been queued. */
  lemma DeliveryInOrder(w: World, p: Ptr, kind: EventKind)
    requires Inv(w) && Proceeds(w, ConnectionDelivers(p, kind)) && Safe(w, ConnectionDelivers(p, kind))
    ensures var v := After(w, ConnectionDelivers(p, kind));
      && Get(v.store.slots, Message(w.next)) == Some(p) && p in w.listed
      && forall j :: 0 <= j < |w.clientsQ| && w.clientsQ[j].ConnectionClosed? ==> Get(v.store.slots, Message(w.clientsQ[j].n)) != Some(p)
  {
    hide HeapInv, StaleInv, Linked, RefsInv, TransactionsInv, PinnedInv;
    QueuedAreHeld(w);
    forall j | 0 <= j < |w.clientsQ| && w.clientsQ[j].ConnectionClosed?
      ensures Get(w.store.slots, Message(w.clientsQ[j].n)) != Some(p) && w.clientsQ[j].n < w.next
    {
      assert NoticeOf(w.store.slots, w.listed, w.clientsQ[j].n) && w.clientsQ[j] in w.clientsQ;
    }
  }

  lemma {:induction false} RunKeepsOrder(w: World, steps: seq<Step>, v: World)
    requires Reachable(w) && OrderInv(w) && Run(w, steps, v)
    ensures OrderInv(v)
    decreases |steps|
  {
    hide Reachable, OrderInv;
    if steps != [] {
      StepKeepsOrder(w, steps[0]);
      NoUseAfterFree(w, steps[0]);
      RunKeepsOrder(After(w, steps[0]), steps[1..], v);
    }
  }

  /** In every reachable state, a queued event is from a client that is still listed. */
  lemma EventsAreOfListed(w: World, m: ClientsMessage)
    requires Reachable(w) && m in w.clientsQ && m.IncomingEvent?
    ensures Message(m.n) in w.store.slots && w.Of(m.n) in w.listed
  {
    hide Inv;
    assert Run(Initial(), [], Initial());
    var steps :| Run(Initial(), steps, w);
    RunKeepsOrder(Initial(), steps, w);
    ReachableInv(w);
    QueuedAreHeld(w);
    var i :| 0 <= i < |w.clientsQ| && w.clientsQ[i] == m;
  }

  // ---------------------------------------------------------------- a client's own messages

  /** The step handles a message of p's, or about p. */
  ghost predicate HandlesOf(w: World, step: Step, p: Ptr) {
    && step.ClientsHandle? && w.clientsQ != [] && !w.clientsQ[0].OpenClient?
    && Message(w.clientsQ[0].n) in w.store.slots && w.Of(w.clientsQ[0].n) == p
  }

  /** A run that handles none. */
  ghost predicate QuietRun(w: World, steps: seq<Step>, v: World, p: Ptr)
    decreases |steps|
  {
    if steps == [] then w == v
    else
      && Proceeds(w, steps[0]) && Safe(w, steps[0]) && !HandlesOf(w, steps[0], p)
      && QuietRun(After(w, steps[0]), steps[1..], v, p)
  }

  ghost predicate ListedIn(w: World, p: Ptr, state: ClientState) {
    p in w.listed && p in w.clients && w.clients[p].state == state
  }

  lemma OthersLeaveState(w: World, step: Step, p: Ptr)
    requires Proceeds(w, step) && Safe(w, step) && !HandlesOf(w, step, p) && p in w.clients && p in w.store.counts
    requires p in After(w, step).clients
    ensures After(w, step).clients[p].state == w.clients[p].state
  {
    hide Handled, After;
    LastReleaseKeepsMessages(w, step);
    HandlerLeavesState(w, step, p);
  }

  lemma HandlerLeavesState(w: World, step: Step, p: Ptr)
    requires Proceeds(w, step) && Safe(w, step) && !HandlesOf(w, step, p) && p in w.clients && p in w.store.counts
    requires p in Handled(w, step).clients
    ensures Handled(w, step).clients[p].state == w.clients[p].state
  {
    if step.ClientsHandle? {
      ClientsLeaveState(w, step, p);
    } else if step.ServerHandle? {
      ServerLeavesState(w, step.newTransaction, p);
    } else {
      hide Release, Shared;
    }
  }

  lemma ServerLeavesState(w: World, t: Tid, p: Ptr)
    requires Proceeds(w, ServerHandle(t)) && Safe(w, ServerHandle(t)) && p in w.clients && p in Handled(w, ServerHandle(t)).clients
    ensures Handled(w, ServerHandle(t)).clients[p].state == w.clients[p].state
  {
    hide Submitted, Finished;
    match w.serverQ[0]
    case StartAuth(n, c) => SubmittedList(TakenServer(w), n, c, t);
    case FinishAuth(transaction) => FinishedList(TakenServer(w), transaction.value);
    case AuthResult(_, _) =>
  }

  lemma ClientsLeaveState(w: World, step: Step, p: Ptr)
    requires step.ClientsHandle? && Proceeds(w, step) && Safe(w, step) && !HandlesOf(w, step, p)
    requires p in w.clients && p in w.store.counts && p in Handled(w, step).clients
    ensures Handled(w, step).clients[p].state == w.clients[p].state
  {
    hide Opened, AuthStarted, Advised, Processed, ServerWorld.Closed;
    var taken := TakenClients(w);
    match w.clientsQ[0]
    case OpenClient =>
      OpenedHasCredentials(taken, step.newClient, step.newCredentials);
      OpeningLeavesState(taken, step.newClient, step.newCredentials, p);
    case AuthEvent(advice, n) => AdvisingLeavesState(taken, w.Of(n), advice, p);
    case IncomingEvent(kind, n) => ProcessingLeavesState(taken, w.Of(n), kind, p);
    case ConnectionClosed(n) => ClosingLeavesState(taken, w.Of(n));
  }

  lemma OpeningLeavesState(w: World, p: Ptr, c: Ptr, r: Ptr)
    requires HasCredentials(Opened(w, p, c), p) && r in w.clients && r != p
    ensures var v := AuthStarted(Opened(w, p, c), p); r in v.clients && v.clients[r].state == w.clients[r].state
  {
    hide HasCredentials;
  }

  lemma AdvisingLeavesState(w: World, p: Ptr, advice: AuthStep, r: Ptr)
    requires p in w.clients && r in w.clients && r != p
    ensures r in Advised(w, p, advice).clients ==> Advised(w, p, advice).clients[r].state == w.clients[r].state
  {
    hide Release;
  }

  lemma ProcessingLeavesState(w: World, p: Ptr, kind: EventKind, r: Ptr)
    requires p in w.clients && (StartsLogin(w.clients[p].state, kind) ==> HasCredentials(w, p)) && r in w.clients && r != p
    ensures r in Processed(w, p, kind).clients && Processed(w, p, kind).clients[r].state == w.clients[r].state
  {
    hide Shared;
  }

  lemma ClosingLeavesState(w: World, p: Ptr)
    requires p in w.listed
    ensures ServerWorld.Closed(w, p).clients == w.clients
  {
    hide Unlinked, Recounted;
  }

  lemma StaysListedIn(w: World, step: Step, p: Ptr, state: ClientState)
    requires Reachable(w) && Proceeds(w, step) && Safe(w, step) && !HandlesOf(w, step, p) && ListedIn(w, p, state)
    ensures ListedIn(After(w, step), p, state)
  {
    hide Reachable, Linked, After, Handled;
    QueueAfter(w, step);
    ListIsLinked(w);
    ListIsDistinct(w.store.slots, w.listed);
    if step.ClientsHandle? && w.clientsQ[0].ConnectionClosed? {
      WithoutMembers(w.listed, w.Of(w.clientsQ[0].n));
    }
    NoUseAfterFree(w, step);
    ListIsLinked(After(w, step));
    OthersLeaveState(w, step, p);
  }

  lemma {:induction false} QuietRunKeeps(w: World, steps: seq<Step>, v: World, p: Ptr, state: ClientState)
    requires Reachable(w) && QuietRun(w, steps, v, p) && ListedIn(w, p, state)
    ensures Reachable(v) && ListedIn(v, p, state)
    decreases |steps|
  {
    hide Reachable, ListedIn, HandlesOf;
    if steps != [] {
      StaysListedIn(w, steps[0], p, state);
      NoUseAfterFree(w, steps[0]);
      QuietRunKeeps(After(w, steps[0]), steps[1..], v, p, state);
    }
  }

  // ---------------------------------------------------------------- the theorems

  /** Handling a leave tells by the state whether the client was in the chat. */
  lemma LeaveHandled(w: World, leave: Step, p: Ptr)
    requires Reachable(w) && Proceeds(w, leave) && Safe(w, leave) && HandlesOf(w, leave, p)
    requires w.clientsQ[0].IncomingEvent? && w.clientsQ[0].kind == UserLeave
    ensures p in w.clients && Reachable(After(w, leave))
    ensures ListedIn(After(w, leave), p, if w.clients[p].state == Active then DisconnectingFromActive else Disconnecting)
  {
    hide Reachable, Linked, Inv;
    EventsAreOfListed(w, w.clientsQ[0]);
    QueueAfter(w, leave);
    NoUseAfterFree(w, leave);
    ListIsLinked(After(w, leave));
    LeaverState(w, leave, p);
  }

  lemma LeaverState(w: World, leave: Step, p: Ptr)
    requires Proceeds(w, leave) && Safe(w, leave) && HandlesOf(w, leave, p) && p in After(w, leave).clients
    requires w.clientsQ[0].IncomingEvent? && w.clientsQ[0].kind == UserLeave
    ensures p in w.clients && After(w, leave).clients[p].state == if w.clients[p].state == Active then DisconnectingFromActive else Disconnecting
  {
    hide Release, Processed, Dropped;
    LastReleaseKeepsMessages(w, leave);
    LeaveProcessed(TakenClients(w), p);
  }

  lemma LeaveProcessed(w: World, p: Ptr)
    requires p in w.clients
    ensures var v := Processed(w, p, UserLeave);
      p in v.clients && v.clients[p].state == if w.clients[p].state == Active then DisconnectingFromActive else Disconnecting
  {
  }

  /** The way out: when the notice that a leaver's connection has closed is handled, after any run that has
      handled no other message of its, its departure is announced if and only if it was in the chat when it
      left; and then to exactly the listed active clients but itself, to each once. A second leave is one from
      outside the chat, so that nobody is told of a client that leaves twice. */
  lemma LeaverIsAnnounced(w: World, leave: Step, steps: seq<Step>, u: World, close: Step, p: Ptr)
    requires Reachable(w) && Proceeds(w, leave) && Safe(w, leave) && HandlesOf(w, leave, p)
    requires w.clientsQ[0].IncomingEvent? && w.clientsQ[0].kind == UserLeave
    requires QuietRun(After(w, leave), steps, u, p)
    requires Proceeds(u, close) && Safe(u, close) && HandlesOf(u, close, p) && u.clientsQ[0].ConnectionClosed?
    ensures p in w.clients && EachOnce(Announced(u, close))
    ensures w.clients[p].state == Active ==> forall t ::
      t in Announced(u, close) <==> t == Told(t.to, Left, p) && t.to != p && t.to in u.listed && IsActive(u.clients, t.to)
    ensures w.clients[p].state != Active ==> Announced(u, close) == []
  {
    hide Reachable, After, Proceeds, Safe, Announced, EachOnce;
    LeaveHandled(w, leave, p);
    QuietRunKeeps(After(w, leave), steps, u, p, if w.clients[p].state == Active then DisconnectingFromActive else Disconnecting);
    AnnouncedExactly(u, close);
    assert forall t :: t in Announced(u, close) ==> Occasion(u, t.what, t.source);
    assert Announced(u, close) == [] || Announced(u, close)[0] in Announced(u, close);
  }

  /** A client whose connection closes while it is active, without a leave, is announced all the same. */
  lemma LostIsAnnounced(u: World, close: Step, p: Ptr)
    requires Reachable(u) && Proceeds(u, close) && Safe(u, close) && HandlesOf(u, close, p)
    requires u.clientsQ[0].ConnectionClosed? && IsActive(u.clients, p)
    ensures forall t :: t in Announced(u, close) <==>
      t == Told(t.to, Left, p) && t.to != p && t.to in u.listed && IsActive(u.clients, t.to)
  {
    hide Reachable, Announced, EachOnce;
    AnnouncedExactly(u, close);
  }
}
