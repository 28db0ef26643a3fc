/** The client module's thread while it is open, and the connections' callbacks into it, as code: what each
    does with the shared pointers, the list and the clients is the step of the whole server's machine. */
module ChatClients {
  import opened SharedPtr
  import opened ClientList
  import opened ServerWorld
  import opened ServerReferences
  import opened ServerSteps
  import opened ServerReferenceSteps
  import opened ServerTransactionSteps
  import opened Broadcasts

  /** Between steps, as far as the client module is concerned. */
  ghost predicate Ready(w: World, step: Step) {
    ReferencesInv(w) && w.held == multiset{} && Proceeds(w, step) && Safe(w, step)
  }

  /** What the proofs below need of a world: its store can be worked on. */
  lemma ReadyFacts(w: World)
    requires ReferencesInv(w)
    ensures w.store.Counted() && Linked(w.store.slots, w.listed)
    ensures forall n :: n >= w.next ==> Message(n) !in w.store.slots && Secret(n) !in w.store.slots
    ensures forall k :: k in w.store.slots && (Inside(k) || k.Connection?) ==> k.owner in w.store.counts
    ensures forall p :: p in w.listed ==> p in w.store.counts
  {
  }

  /** The world once p has been admitted, before its transaction is handed back. */
  ghost function Cleared(w: World, p: Ptr): World {
    WithStore(WithClient(w, p, Client(Active, None)).(admitted := w.admitted + {p}), SharedPtr.Release(w.store, Credentials(p)))
  }

  lemma ClearedLinked(w: World, p: Ptr)
    requires w.store.Counted() && Linked(w.store.slots, w.listed) && forall r :: r in w.listed ==> r in w.store.counts
    ensures Linked(Cleared(w, p).store.slots, w.listed)
  {
    hide Store.Counted, Linked;
    ReleaseKeepsLinks(w.store, w.listed, Credentials(p), SharedPtr.Release(w.store, Credentials(p)));
  }

  lemma AdvisedIs(w: World, p: Ptr, step: AuthStep)
    requires p in w.clients
    ensures var v := if step == Authenticated then Cleared(w, p) else WithClient(w, p, Client(StateAfter(step), None));
      Advised(w, p, step) == PutServer(v, FinishAuth(w.clients[p].transaction)) && Advised(w, p, step).clients == v.clients
  {
    hide SharedPtr.Release;
  }

  class ChatClients {
    const memory: Memory
    const list: ClientList
    var clients: map<Ptr, Client>
    var queue: seq<ClientsMessage>
    var toServer: seq<ServerMessage>
    var next: nat                     // names message slots
    var told: seq<Told>               // the announcements queued at the clients' connections

    constructor (memory: Memory)
      requires memory.View() == Initial().store
      ensures this.memory == memory && Shows(Initial()) && told == []
    {
      this.memory := memory;
      list := new ClientList(memory);
      clients, queue, toServer, next, told := map[], [], [], 0, [];
    }

    /** This module's part of the server is as in the world. */
    ghost predicate Shows(w: World)
      reads this, memory
    {
      && list.memory == memory
      && memory.View() == w.store && clients == w.clients
      && queue == w.clientsQ && toServer == w.serverQ && next == w.next
    }

    /** Releases a reference; the records it frees are gone. */
    method Release(k: Slot, ghost v: World)
      requires Shows(v) && v.store.Counted()
      modifies memory, `clients
      ensures Shows(WithStore(v, SharedPtr.Release(v.store, k))) && memory.View().Counted()
    {
      hide Store.Counted;
      memory.Release(k);
      clients := map p | p in clients && p in memory.counts :: clients[p];
    }

    /** The START_AUTH_TRANSACTION callback, with a share of the client and of its credentials. */
    method StartAuthTransaction(from: Slot, p: Ptr, ghost v: World)
      requires Shows(v) && v.store.Counted() && HasCredentials(v, p) && Get(v.store.slots, from) == Some(p)
      requires Message(next) !in memory.slots && Secret(next + 1) !in memory.slots
      modifies memory, `toServer, `next
      ensures Shows(AuthStarted(v, p)) && memory.View().Counted()
    {
      hide Store.Counted;
      memory.Share(from, Message(next));
      memory.Share(Credentials(p), Secret(next + 1));
      toServer := toServer + [StartAuth(next, next + 1)];
      next := next + 2;
    }

    /** chat_clients_client_create, at addresses p and c. */
    method CreateClient(p: Ptr, c: Ptr)
      requires memory.View().Counted()
      requires p !in memory.counts && c !in memory.counts && p != c && Message(next) !in memory.slots
      requires Credentials(p) !in memory.slots && Connection(p) !in memory.slots
      modifies memory, `clients
      ensures memory.View() == Connected(old(memory.View()), p, c, next) && memory.View().Counted()
      ensures clients == old(clients)[p := Client(Fresh, None)]
    {
      hide Store.Counted;
      memory.Create(p, Message(next));
      memory.Create(c, Credentials(p));
      memory.Share(Message(next), Connection(p));
      clients := clients[p := Client(Fresh, None)];
    }

    /** A new client is created and linked in. */
    method AddClient(p: Ptr, c: Ptr, ghost v: World)
      requires Shows(v) && ReferencesInv(v) && p !in v.store.counts && c !in v.store.counts && p != c
      modifies memory, `clients, `next
      ensures Shows(Opened(v, p, c)) && memory.View().Counted()
    {
      hide ReferencesInv, Store.Counted, Linked, Created, Shared, Appended, Recounted;
      ReadyFacts(v);
      ConnectedLinks(v, p, c, next);
      CreateClient(p, c);
      ghost var connected := memory.View();
      list.Append(p, v.listed);
      CountedIsRecounted(connected, memory.View());
      clients := clients[p := Client(AuthInit, None)];
      next := next + 1;
    }

    /** The broadcast loops: along the next chain from the head, an event for every active client but the
        source. */
    method Announce(what: Broadcast, source: Ptr, ghost v: World)
      requires Shows(v) && Linked(v.store.slots, v.listed)
      modifies `told
      ensures told == old(told) + Tell(v.listed, v.clients, what, source)
    {
      hide Linked, Tell;
      ghost var listed := v.listed;
      var at := Get(memory.slots, Head);
      HeadOf(memory.slots, listed);
      ghost var i := 0;
      assert listed[0..] == listed;
      while at.Some?
        invariant 0 <= i <= |listed| && at == At(listed, i)
        invariant told + Tell(listed[i..], v.clients, what, source) == old(told) + Tell(listed, v.clients, what, source)
        decreases |listed| - i
      {
        TellFrom(listed, i, v.clients, what, source);
        if at.value != source && IsActive(clients, at.value) {
          told := told + [Told(at.value, what, source)];
        }
        LinksAt(memory.slots, listed, i);
        at := Get(memory.slots, Next(at.value));
        i := i + 1;
      }
      assert listed[i..] == [];
      TellNone(v.clients, what, source);
    }

    /** The AUTHENTICATED step: the client becomes active, gives up its credentials and is announced. */
    method Admit(p: Ptr, ghost v: World)
      requires Shows(v) && v.store.Counted() && Linked(v.store.slots, v.listed) && p in v.clients
      requires forall r :: r in v.listed ==> r in v.store.counts
      modifies memory, `clients, `told
      ensures Shows(Cleared(v, p)) && memory.View().Counted()
      ensures told == old(told) + Tell(v.listed, Cleared(v, p).clients, Joined, p)
    {
      hide Store.Counted, Linked, SharedPtr.Release;
      clients := clients[p := Client(Active, None)];
      Release(Credentials(p), WithClient(v, p, Client(Active, None)));
      ClearedLinked(v, p);
      Announce(Joined, p, Cleared(v, p));
    }

    /** The client's state follows the step, and its transaction is handed back. */
    method AuthEvent(step: AuthStep, p: Ptr, ghost v: World)
      requires Shows(v) && v.store.Counted() && Linked(v.store.slots, v.listed) && p in v.clients
      requires forall r :: r in v.listed ==> r in v.store.counts
      modifies this, memory
      ensures Shows(Advised(v, p, step)) && memory.View().Counted()
      ensures told == old(told) + if step == Authenticated then Tell(v.listed, Advised(v, p, step).clients, Joined, p) else []
    {
      hide Store.Counted, Linked, Advised, Cleared, Tell;
      AdvisedIs(v, p, step);
      var transaction := clients[p].transaction;
      if step == UsernameRequired || step == UsernameRejected {
        clients := clients[p := Client(AuthUsername, None)];
      } else if step != Authenticated {
        clients := clients[p := Client(AuthPassword, None)];
      } else {
        Admit(p, v);
      }
      toServer := toServer + [FinishAuth(transaction)];
    }

    /** The handler table: a submission starts a login, a leave changes the state, and an active client's
        message is passed on. The answers to its own client are the session's affair. */
    method IncomingEvent(kind: EventKind, n: nat, p: Ptr, ghost v: World)
      requires Shows(v) && v.store.Counted() && p in v.clients && Get(v.store.slots, Message(n)) == Some(p)
      requires StartsLogin(v.clients[p].state, kind) ==> HasCredentials(v, p)
      requires Message(next) !in memory.slots && Secret(next + 1) !in memory.slots && Linked(v.store.slots, v.listed)
      modifies this, memory
      ensures Shows(Processed(v, p, kind)) && memory.View().Counted()
      ensures told == old(told) + if kind == ChatMessage && v.clients[p].state == Active then Tell(v.listed, v.clients, Said, p) else []
    {
      hide Store.Counted, AuthStarted, Linked, Tell;
      var client := clients[p];
      var starts := false;
      match kind {
        case UsernameSubmit =>
          if client.state == AuthPassword || client.state == AuthUsername {
            client := client.(state := AuthProcessing);
            starts := true;
          }
        case PasswordSubmit => starts := client.state == AuthPassword;
        case UserLeave =>
          client := client.(state := if client.state == Active then DisconnectingFromActive else Disconnecting);
        case ChatMessage =>
          if client.state == Active {
            Announce(Said, p, v);
          }
        case OtherEvent =>
      }
      clients := clients[p := client];
      if starts {
        StartAuthTransaction(Message(n), p, WithClient(v, p, client));
      }
    }

    /** One message from the queue, and the release that ends its handling. */
    method HandleNext(p: Ptr, c: Ptr, ghost w: World)
      requires Ready(w, ClientsHandle(p, c)) && Shows(w)
      modifies this, memory
      ensures Shows(After(w, ClientsHandle(p, c)))
      ensures told == old(told) + Announced(w, ClientsHandle(p, c))
    {
      hide ReferencesInv, Store.Counted, Linked, SharedPtr.Release, AuthStarted, Opened, Advised, Processed, ServerWorld.Closed, Tell;
      ReadyFacts(w);
      ghost var taken, handled := TakenClients(w), Handled(w, ClientsHandle(p, c));
      var message := queue[0];
      queue := queue[1..];
      assert Shows(taken);
      match message {
        case OpenClient =>
          var n := next;
          TakenClientsKeeps(w);
          AddClient(p, c, taken);
          OpenedIsReady(w, p, c);
          StartAuthTransaction(Message(n), p, Opened(taken, p, c));
          Release(Message(n), handled);
        case AuthEvent(step, n) =>
          AuthEvent(step, memory.slots[Message(n)], taken);
          Release(Message(n), handled);
        case IncomingEvent(kind, n) =>
          IncomingEvent(kind, n, memory.slots[Message(n)], taken);
          Release(Message(n), handled);
        case ConnectionClosed(n) => CloseClient(n, memory.slots[Message(n)], w);
      }
    }

    /** chat_clients_outroduce_user. */
    method OutroduceUser(p: Ptr, ghost v: World)
      requires Shows(v) && Linked(v.store.slots, v.listed) && p in v.clients
      modifies `told
      ensures told == old(told) + if InChat(v.clients[p].state) then Tell(v.listed, v.clients, Left, p) else []
    {
      hide Linked, Tell;
      if clients[p].state != Active && clients[p].state != DisconnectingFromActive {
        return;
      }
      Announce(Left, p, v);
    }

    /** The departure is announced while the client is still in the list; then it is taken off. */
    method CloseClient(n: nat, p: Ptr, ghost w: World)
      requires w.clientsQ != [] && w.clientsQ[0] == ConnectionClosed(n) && Shows(TakenClients(w)) && ReferencesInv(w)
      requires LiveClient(w, n) && p == w.Of(n) && p in w.listed
      modifies this, memory
      ensures Shows(Dropped(ServerWorld.Closed(TakenClients(w), p), Message(n)))
      ensures told == old(told) + if InChat(w.clients[p].state) then Tell(w.listed, w.clients, Left, p) else []
    {
      hide Tell, ReferencesInv, Store.Counted, Linked, Unlinked, Recounted, Released, Shrinks;
      ReadyFacts(w);
      ClosedStaysCounted(w, p, n);
      OutroduceUser(p, TakenClients(w));
      list.ClientClose(p, n, w.listed);
      clients := map q | q in clients && q in memory.counts :: clients[q];
    }

    // -------------------------------------------------------------- the connections' callbacks

    /** An event arrived: it is queued with a share of the connection's reference. */
    method Deliver(p: Ptr, kind: EventKind, ghost w: World)
      requires Ready(w, ConnectionDelivers(p, kind)) && Shows(w)
      modifies this, memory
      ensures Shows(After(w, ConnectionDelivers(p, kind)))
    {
      hide ReferencesInv, Store.Counted, Linked;
      ReadyFacts(w);
      ConnectionLive(w, p);
      memory.Share(Connection(p), Message(next));
      queue := queue + [ServerWorld.IncomingEvent(kind, next)];
      next := next + 1;
    }

    /** The connection has closed: its notice is queued, and its reference given up. */
    method Closed(p: Ptr, ghost w: World)
      requires Ready(w, ConnectionCloses(p)) && Shows(w)
      modifies this, memory
      ensures Shows(After(w, ConnectionCloses(p)))
    {
      hide ReferencesInv, Store.Counted, Linked, SharedPtr.Release;
      ReadyFacts(w);
      ConnectionLive(w, p);
      memory.Share(Connection(p), Message(next));
      queue := queue + [ServerWorld.ConnectionClosed(next)];
      next := next + 1;
      Release(Connection(p), Handled(w, ConnectionCloses(p)));
    }
  }

  lemma ConnectedLinks(w: World, p: Ptr, c: Ptr, n: nat)
    requires ReferencesInv(w) && p !in w.store.counts && c !in w.store.counts && p != c && Message(n) !in w.store.slots
    ensures var s := Connected(w.store, p, c, n);
      && Linked(s.slots, w.listed) && p in s.counts && p !in w.listed && Prev(p) !in s.slots && Next(p) !in s.slots
  {
    ReadyFacts(w);
    ConnectedSlots(w.store, p, c, n);
    SameLinks(w.store.slots, Connected(w.store, p, c, n).slots, w.listed);
  }

  lemma OpenedIsReady(w: World, p: Ptr, c: Ptr)
    requires ReferencesInv(w) && w.clientsQ != [] && w.clientsQ[0].OpenClient?
    requires p !in w.store.counts && c !in w.store.counts && p != c
    ensures var v := Opened(TakenClients(w), p, c);
      && v.store.Counted() && HasCredentials(v, p) && Get(v.store.slots, Message(w.next)) == Some(p)
      && Message(v.next) !in v.store.slots && Secret(v.next + 1) !in v.store.slots
  {
    hide ReferencesInv;
    TakenClientsKeeps(w);
    OpenedKeeps(TakenClients(w), p, c);
    OpenedHasCredentials(TakenClients(w), p, c);
    NextIsFree(Opened(TakenClients(w), p, c));
  }

  /** The world after the unlinking is one whose references can be released. */
  lemma ClosedStaysCounted(w: World, p: Ptr, n: nat)
    requires ReferencesInv(w) && w.clientsQ != [] && w.clientsQ[0] == ServerWorld.ConnectionClosed(n)
    requires LiveClient(w, n) && p == w.Of(n) && p in w.listed
    ensures Recounted(w.store, Unlinked(w.store.slots, p)).Counted()
  {
    hide ReferencesInv;
    TakenNoticeCloses(w);
    NextIsFree(ServerWorld.Closed(TakenClients(w), p));
  }
}
