/** The server's and the auth worker's threads while they are open, as code: how references to clients and
    credentials pass from message to transaction to message. */
module ServerThreads {
  import opened SharedPtr
  import opened ClientList
  import opened ServerWorld
  import opened ServerTransactions
  import opened ServerRuns
  import opened ServerCredentials
  import opened ChatAuth

  ghost predicate Ready(w: World, step: Step) { Reachable(w) && Proceeds(w, step) && Safe(w, step) }

  /** Whatever the verdict, the worker's step is the same up to it. */
  ghost function AfterVerdict(w: World, verdict: Option<Verdict>): World
    requires Proceeds(w, AuthHandle(UsernameRequired)) && Safe(w, AuthHandle(UsernameRequired))
  {
    After(w, AuthHandle(if verdict.Some? then verdict.value.step else UsernameRequired))
  }

  /** The record the next decision is about, and the client it is for. */
  ghost function Decision(w: World): (r: (Ptr, Ptr))
    requires Reachable(w) && w.authQ != []
    ensures r.1 in w.clients && (r.1 !in w.admitted ==> Get(w.store.slots, SharedPtr.Credentials(r.1)) == Some(r.0))
  {
    DecidesOnOwn(w);
    var t := w.authQ[0].transaction;
    (w.store.slots[Secret(w.authQ[0].c)], w.Of(w.transactions[t].consumer.value))
  }

  class ServerThreads {
    const memory: Memory
    const auth: Auth
    var clients: map<Ptr, Client>
    var queue: seq<ServerMessage>
    var toClients: seq<ClientsMessage>
    var next: nat                       // names message slots
    var reading: bool                   // the worker is past its look at the transaction's state

    constructor (memory: Memory, auth: Auth)
      requires memory.View() == Initial().store && auth.queue == [] && auth.transactions == map[]
      ensures this.memory == memory && this.auth == auth && Shows(Initial())
    {
      this.memory, this.auth := memory, auth;
      clients, queue, toClients, next, reading := map[], [], [], 0, false;
    }

    ghost predicate Shows(w: World)
      reads this, memory, auth
    {
      && memory.View() == w.store && clients == w.clients
      && queue == w.serverQ && toClients == w.clientsQ && next == w.next
      && auth.queue == w.authQ && auth.transactions == w.transactions && reading == w.reading
    }

    method Release(k: Slot, ghost v: World)
      requires Shows(v) && v.store.Counted()
      modifies memory, `clients
      ensures Shows(WithStore(v, SharedPtr.Release(v.store, k))) && memory.View().Counted()
    {
      hide Store.Counted;
      memory.Release(k);
      clients := map p | p in clients && p in memory.counts :: clients[p];
    }

    /** START_AUTH_TRANSACTION: the client is shared into the transaction, whose address goes to the client;
        then the message's own reference is given up. */
    method StartAuth(n: nat, c: nat, t: Tid, ghost v: World)
      requires Shows(v) && v.store.Counted() && LiveClient(v, n) && t !in v.transactions && Message(next) !in memory.slots
      modifies this, memory, auth
      ensures Shows(Dropped(Submitted(v, n, c, t), Message(n))) && memory.View().Counted()
    {
      hide Store.Counted, SharedPtr.Release;
      var p := memory.slots[Message(n)];
      memory.Share(Message(n), Message(next));
      auth.SubmitCredentials(c, next, t);
      clients := clients[p := clients[p].(transaction := Some(t))];
      next := next + 1;
      Release(Message(n), Submitted(v, n, c, t));
    }

    /** FINISH_AUTH_TRANSACTION. */
    method FinishAuth(transaction: Option<Tid>, ghost v: World)
      requires Shows(v) && transaction.Some? && transaction.value in v.transactions
      modifies auth
      ensures Shows(Finished(v, transaction.value))
    {
      OnlyTransactionsFinish(v, transaction.value);
      hide Finished;
      var _ := auth.FinishTransaction(transaction, v);
    }

    /** One message of the server's; `t` is where the allocator would put a new transaction. */
    method ServerHandleNext(t: Tid, ghost w: World)
      requires Ready(w, ServerHandle(t)) && Shows(w)
      modifies this, memory, auth
      ensures Shows(After(w, ServerHandle(t)))
    {
      hide Reachable, Store.Counted, Submitted, Finished, Dropped, After, Handled, Proceeds, Safe, LiveClient;
      StoreIsCounted(w);
      ServerCases(w, t);
      ghost var taken := TakenServer(w);
      var message := queue[0];
      queue := queue[1..];
      assert Shows(taken);
      match message {
        case StartAuth(n, c) =>
          StartAuth(n, c, t, taken);
        case FinishAuth(transaction) =>
          FinishAuth(transaction, taken);
        case AuthResult(step, n) =>
          toClients := toClients + [AuthEvent(step, n)];
      }
    }

    /** The worker takes the transaction's mutex and looks at its state: unless that is cancelled, it goes on
        to the credentials. */
    method AuthStartNext(ghost w: World)
      requires Ready(w, AuthReads) && Shows(w)
      modifies `reading
      ensures Shows(After(w, AuthReads))
    {
      hide Reachable;
      reading := true;
    }

    /** The rest of the worker's message; `contents` is what the records of credentials hold. What the one it
        reads from held when it started is, by `ReadStaysThroughout`, what it holds until now. */
    method AuthHandleNext(contents: map<Ptr, Credentials>, ghost w: World) returns (verdict: Option<Verdict>)
      requires Ready(w, AuthHandle(UsernameRequired)) && Shows(w)
      requires forall k: Slot :: k.Secret? && k in memory.slots ==> memory.slots[k] in contents
      modifies this, memory, auth
      ensures Decision(w).0 in contents
      ensures verdict.None? <==> w.transactions[w.authQ[0].transaction].state == Cancelled
      ensures var credentials := contents[Decision(w).0]; verdict.Some? ==>
        verdict.value.step == StepFor(old(auth.users), credentials) && auth.users == UsersAfter(old(auth.users), credentials)
      ensures verdict.None? ==> auth.users == old(auth.users)
      ensures Shows(AfterVerdict(w, verdict))
    {
      hide Reachable, Store.Counted, SharedPtr.Release, After, Handled, Decided, Dropped, Decision;
      StoreIsCounted(w);
      DecisionIs(w);
      var c := auth.queue[0].c;
      var consumer;
      ghost var t := w.authQ[0].transaction;
      reading := false;
      verdict, consumer := auth.ProcessNext(map[c := contents[memory.slots[Secret(c)]]]);
      if verdict.None? {
        WorkerDrops(w, UsernameRequired);
        ghost var taken := WorkerTaken(w, w.transactions - {t});
        assert Shows(taken);
        Release(Message(consumer), taken);
        Release(Secret(c), WithStore(taken, SharedPtr.Release(taken.store, Message(consumer))));
      } else {
        WorkerDecides(w, verdict.value.step);
        ghost var taken := WorkerTaken(w, w.transactions[t := Transaction(Done, None)]);
        assert Shows(taken);
        Release(Secret(c), taken);
        queue := queue + [AuthResult(verdict.value.step, consumer)];
      }
    }
  }

  lemma DecisionIs(w: World)
    requires Reachable(w) && w.authQ != []
    ensures Secret(w.authQ[0].c) in w.store.slots && Decision(w).0 == w.store.slots[Secret(w.authQ[0].c)]
    ensures var t := w.authQ[0].transaction; t in w.transactions && w.transactions[t].consumer.Some?
  {
    DecidesOnOwn(w);
  }

  /** The world without the worker's message, with its transactions. */
  function WorkerTaken(w: World, transactions: Transactions): World
    requires w.authQ != []
  {
    w.(authQ := w.authQ[1..], reading := false, transactions := transactions)
  }

  /** The same part of the server. */
  ghost predicate Alike(w: World, v: World) {
    && w.store == v.store && w.clients == v.clients && w.serverQ == v.serverQ && w.clientsQ == v.clientsQ && w.next == v.next
    && w.authQ == v.authQ && w.transactions == v.transactions && w.reading == v.reading
  }

  /** The worker's step when its transaction has been cancelled. */
  lemma WorkerDrops(w: World, result: AuthStep)
    requires Proceeds(w, AuthHandle(result)) && Safe(w, AuthHandle(result))
    requires w.transactions[w.authQ[0].transaction].state == Cancelled
    ensures var t, c := w.authQ[0].transaction, w.authQ[0].c;
      var n, v := w.transactions[t].consumer.value, WorkerTaken(w, w.transactions - {t});
      var u := WithStore(v, SharedPtr.Release(v.store, Message(n)));
      Alike(After(w, AuthHandle(result)), WithStore(u, SharedPtr.Release(u.store, Secret(c))))
  {
    hide SharedPtr.Release;
  }

  /** The worker's step otherwise. */
  lemma WorkerDecides(w: World, result: AuthStep)
    requires Proceeds(w, AuthHandle(result)) && Safe(w, AuthHandle(result))
    requires w.transactions[w.authQ[0].transaction].state != Cancelled
    ensures var t, c := w.authQ[0].transaction, w.authQ[0].c;
      var n, v := w.transactions[t].consumer.value, WorkerTaken(w, w.transactions[t := Transaction(Done, None)]);
      var u := WithStore(v, SharedPtr.Release(v.store, Secret(c)));
      Alike(After(w, AuthHandle(result)), u.(serverQ := u.serverQ + [AuthResult(result, n)]))
  {
    hide SharedPtr.Release;
  }

  /** The server's step, message by message. */
  lemma ServerCases(w: World, t: Tid)
    requires Proceeds(w, ServerHandle(t)) && Safe(w, ServerHandle(t))
    ensures var m, taken, handled, after := w.serverQ[0], TakenServer(w), Handled(w, ServerHandle(t)), After(w, ServerHandle(t));
      && w.serverQ != []
      && (m.StartAuth? ==> LiveClient(taken, m.n) && t !in w.transactions)
      && (m.FinishAuth? ==> m.transaction.Some? && m.transaction.value in w.transactions)
      && (m.StartAuth? ==> handled == Submitted(taken, m.n, m.c, t) && after == Dropped(handled, Message(m.n)))
      && (m.FinishAuth? ==> handled == after == Finished(taken, m.transaction.value))
      && (m.AuthResult? ==> handled == after == PutClients(taken, AuthEvent(m.step, m.n)))
  {
    hide Submitted, Finished, Dropped, PutClients;
  }

  lemma StoreIsCounted(w: World)
    requires Reachable(w)
    ensures w.store.Counted() && Message(w.next) !in w.store.slots
  {
    ReachableInv(w);
  }

  /** Finishing touches nothing but the transactions. */
  lemma OnlyTransactionsFinish(w: World, t: Tid)
    requires t in w.transactions
    ensures Finished(w, t) == w.(transactions := Finished(w, t).transactions)
  {
  }
}
