/** What the open client module announces: which clients are told of a message, an arrival or a departure,
    and that only logged-in clients speak, leave or hear. */
module Broadcasts {
  import opened SharedPtr
  import opened ClientList
  import opened ServerWorld
  import opened ServerTransactionSteps
  import opened ServerRuns
  import opened ServerCredentials

  datatype Broadcast = Said | Joined | Left

  /** An event about one client, queued at another's connection. */
  datatype Told = Told(to: Ptr, what: Broadcast, source: Ptr)

  predicate IsActive(clients: map<Ptr, Client>, p: Ptr) { p in clients && clients[p].state == Active }

  /** The broadcast loop: along the list, to every active client but the source. */
  function Tell(listed: seq<Ptr>, clients: map<Ptr, Client>, what: Broadcast, source: Ptr): seq<Told> {
    if listed == [] then []
    else
      (if listed[0] != source && IsActive(clients, listed[0]) then [Told(listed[0], what, source)] else [])
      + Tell(listed[1..], clients, what, source)
  }

  lemma TellNone(clients: map<Ptr, Client>, what: Broadcast, source: Ptr)
    ensures Tell([], clients, what, source) == []
  {
  }

  lemma TellFrom(listed: seq<Ptr>, i: nat, clients: map<Ptr, Client>, what: Broadcast, source: Ptr)
    requires i < |listed|
    ensures Tell(listed[i..], clients, what, source)
            == (if listed[i] != source && IsActive(clients, listed[i]) then [Told(listed[i], what, source)] else [])
               + Tell(listed[i + 1..], clients, what, source)
  {
  }

  ghost predicate EachOnce(log: seq<Told>) { forall i, j :: 0 <= i < j < |log| ==> log[i].to != log[j].to }

  lemma {:induction false} TellExactly(listed: seq<Ptr>, clients: map<Ptr, Client>, what: Broadcast, source: Ptr)
    requires Distinct(listed)
    ensures EachOnce(Tell(listed, clients, what, source))
    ensures forall t :: t in Tell(listed, clients, what, source) <==>
      t.what == what && t.source == source && t.to != source && t.to in listed && IsActive(clients, t.to)
  {
    if listed != [] {
      assert Distinct(listed[1..]);
      TellExactly(listed[1..], clients, what, source);
      assert forall p :: p in listed <==> p == listed[0] || p in listed[1..];
      assert listed[0] !in listed[1..];
    }
  }

  /** In the chat, or on the way out of it. */
  predicate InChat(state: ClientState) { state in {Active, DisconnectingFromActive} }

  /** What a step announces, as the client module's handlers do it. */
  ghost function Announced(w: World, step: Step): seq<Told>
    requires Proceeds(w, step) && Safe(w, step)
  {
    if !step.ClientsHandle? then []
    else
      match w.clientsQ[0]
      case OpenClient => []
      case AuthEvent(advice, n) =>
        if advice == Authenticated then Tell(w.listed, Advised(TakenClients(w), w.Of(n), advice).clients, Joined, w.Of(n)) else []
      case IncomingEvent(kind, n) =>
        if kind == ChatMessage && w.clients[w.Of(n)].state == Active then Tell(w.listed, w.clients, Said, w.Of(n)) else []
      case ConnectionClosed(n) =>
        if InChat(w.clients[w.Of(n)].state) then Tell(w.listed, w.clients, Left, w.Of(n)) else []
  }

  /** What the next message gives the source cause to announce. */
  ghost predicate Occasion(w: World, what: Broadcast, source: Ptr) {
    && w.clientsQ != [] && !w.clientsQ[0].OpenClient?
    && Message(w.clientsQ[0].n) in w.store.slots && w.Of(w.clientsQ[0].n) == source && source in w.clients
    && match w.clientsQ[0]
       case AuthEvent(advice, _) => what == Joined && advice == Authenticated
       case IncomingEvent(kind, _) => what == Said && kind == ChatMessage && w.clients[source].state == Active
       case ConnectionClosed(_) => what == Left && w.clients[source].state in {Active, DisconnectingFromActive}
  }

  /** Whatever the peers send: a step announces what its message gives cause to, to exactly the listed active
      clients other than its source, to each once; and nothing otherwise. */
  lemma AnnouncedExactly(w: World, step: Step)
    requires Reachable(w) && Proceeds(w, step) && Safe(w, step)
    ensures EachOnce(Announced(w, step))
    ensures forall t :: t in Announced(w, step) <==>
      step.ClientsHandle? && Occasion(w, t.what, t.source) && t.to != t.source && t.to in w.listed && IsActive(w.clients, t.to)
  {
    hide Reachable, Inv, Linked, Advised, EachOnce;
    ListIsLinked(w);
    ListIsDistinct(w.store.slots, w.listed);
    NobodyOnce();
    if step.ClientsHandle? && !w.clientsQ[0].OpenClient? {
      var source := w.Of(w.clientsQ[0].n);
      match w.clientsQ[0]
      case AuthEvent(advice, _) =>
        OthersAsBefore(w, source, advice);
        TellExactly(w.listed, Advised(TakenClients(w), source, advice).clients, Joined, source);
      case IncomingEvent(_, _) => TellExactly(w.listed, w.clients, Said, source);
      case ConnectionClosed(_) => TellExactly(w.listed, w.clients, Left, source);
    }
  }

  lemma NobodyOnce()
    ensures EachOnce([])
  {
  }

  lemma ListIsDistinct(slots: Slots, listed: seq<Ptr>)
    requires Linked(slots, listed)
    ensures Distinct(listed)
  {
  }

  /** By the time of its arrival's announcement only the source has changed. */
  lemma OthersAsBefore(w: World, p: Ptr, advice: AuthStep)
    requires Reachable(w) && w.clientsQ != [] && p in w.clients
    ensures forall r :: r != p ==> (IsActive(Advised(TakenClients(w), p, advice).clients, r) <==> IsActive(w.clients, r))
  {
    hide Reachable, Inv, Release;
    ReachableInv(w);
    AdvisedSpares(w, p, advice);
  }

  // ---------------------------------------------------------------- who is in the chat

  /** Whoever is in the chat has been told that it is logged in. */
  ghost predicate ChatInv(w: World) { forall p :: p in w.clients && InChat(w.clients[p].state) ==> p in w.admitted }

  lemma OpeningKeepsChat(w: World, p: Ptr, c: Ptr)
    requires ChatInv(w) && HasCredentials(Opened(w, p, c), p)
    ensures ChatInv(AuthStarted(Opened(w, p, c), p))
  {
    hide Shared, Created, Appended, Recounted, HasCredentials;
  }

  lemma AdvisingKeepsChat(w: World, p: Ptr, advice: AuthStep)
    requires ChatInv(w) && p in w.clients
    ensures ChatInv(Advised(w, p, advice))
  {
    hide Release;
  }

  lemma ProcessingKeepsChat(w: World, p: Ptr, kind: EventKind)
    requires ChatInv(w) && p in w.clients && (StartsLogin(w.clients[p].state, kind) ==> HasCredentials(w, p))
    ensures ChatInv(Processed(w, p, kind))
  {
    hide Shared;
  }

  lemma ClosingKeepsChat(w: World, p: Ptr)
    requires ChatInv(w) && p in w.listed
    ensures ChatInv(ServerWorld.Closed(w, p))
  {
    hide Unlinked, Recounted;
  }

  lemma ClientsKeepChat(w: World, step: Step)
    requires step.ClientsHandle? && Proceeds(w, step) && Safe(w, step) && ChatInv(w)
    ensures ChatInv(Handled(w, step))
  {
    hide Opened, AuthStarted, Advised, Processed, ServerWorld.Closed;
    var taken := TakenClients(w);
    assert ChatInv(taken);
    hide ChatInv;
    match w.clientsQ[0]
    case OpenClient =>
      OpenedHasCredentials(taken, step.newClient, step.newCredentials);
      OpeningKeepsChat(taken, step.newClient, step.newCredentials);
    case AuthEvent(advice, n) => AdvisingKeepsChat(taken, w.Of(n), advice);
    case IncomingEvent(kind, n) => ProcessingKeepsChat(taken, w.Of(n), kind);
    case ConnectionClosed(n) => ClosingKeepsChat(taken, w.Of(n));
  }

  lemma OthersKeepChat(w: World, step: Step)
    requires !step.ClientsHandle? && Proceeds(w, step) && Safe(w, step) && ChatInv(w)
    ensures ChatInv(Handled(w, step))
  {
    if step.ServerHandle? {
      ServerKeepsChat(w, step.newTransaction);
    } else if step.AuthHandle? {
      DecidingKeepsChat(w, step.result);
    } else {
      hide Shared;
    }
  }

  lemma ServerKeepsChat(w: World, t: Tid)
    requires Proceeds(w, ServerHandle(t)) && Safe(w, ServerHandle(t)) && ChatInv(w)
    ensures ChatInv(Handled(w, ServerHandle(t)))
  {
    hide Submitted, Finished;
    match w.serverQ[0]
    case StartAuth(n, c) => SubmittingKeepsChat(TakenServer(w), n, c, t);
    case FinishAuth(transaction) => FinishingKeepsChat(TakenServer(w), transaction.value);
    case AuthResult(_, _) =>
  }

  lemma SubmittingKeepsChat(w: World, n: nat, c: nat, t: Tid)
    requires LiveClient(w, n) && ChatInv(w)
    ensures ChatInv(Submitted(w, n, c, t))
  {
    hide Shared;
  }

  lemma FinishingKeepsChat(w: World, t: Tid)
    requires t in w.transactions && ChatInv(w)
    ensures ChatInv(Finished(w, t))
  {
  }

  lemma DecidingKeepsChat(w: World, result: AuthStep)
    requires Proceeds(w, AuthHandle(result)) && Safe(w, AuthHandle(result)) && ChatInv(w)
    ensures ChatInv(Handled(w, AuthHandle(result)))
  {
    hide Release;
  }

  lemma StepKeepsChat(w: World, step: Step)
    requires Proceeds(w, step) && Safe(w, step) && ChatInv(w)
    ensures ChatInv(After(w, step))
  {
    hide Handled, Release;
    if step.ClientsHandle? {
      ClientsKeepChat(w, step);
    } else {
      OthersKeepChat(w, step);
    }
  }

  lemma {:induction false} RunKeepsChat(w: World, steps: seq<Step>, v: World)
    requires ChatInv(w) && Run(w, steps, v)
    ensures ChatInv(v)
    decreases |steps|
  {
    hide ChatInv;
    if steps != [] {
      StepKeepsChat(w, steps[0]);
      RunKeepsChat(After(w, steps[0]), steps[1..], v);
    }
  }

  /** In every run, only clients that have been told they are logged in are heard, and only theirs are the
      messages and departures announced; an arrival is announced in the step that tells its client. */
  lemma OnlyAdmittedTakePart(w: World, step: Step, t: Told)
    requires Reachable(w) && Proceeds(w, step) && Safe(w, step) && t in Announced(w, step)
    ensures t.to in w.admitted
    ensures t.what != Joined ==> t.source in w.admitted
    ensures t.what == Joined ==> t.source in After(w, step).admitted
  {
    hide Inv, After, Handled, Announced;
    var steps :| Run(Initial(), steps, w);
    RunKeepsChat(Initial(), steps, w);
    AnnouncedExactly(w, step);
    AdmittedExactly(w, step, t.source);
  }
}
