/** The server's threads while they are open: the client module, the server module, the auth module and
    every client's connection, exchanging references to clients through three queues. Each step is one
    message handled, or one callback made, with all the sharing and releasing the code does for it; only the
    worker's message takes two, because others may meanwhile rewrite what it reads. */
module ServerWorld {
  import opened SharedPtr
  import opened ClientList

  datatype ClientState =
    | Fresh | AuthInit | AuthUsername | AuthPassword | AuthProcessing | Active | Disconnecting | DisconnectingFromActive

  datatype AuthStep =
    UsernameRequired | UsernameRejected | PasswordCreation | PasswordRequired | PasswordRejected | Authenticated

  datatype EventKind = UsernameSubmit | PasswordSubmit | UserLeave | ChatMessage | OtherEvent

  type Tid = nat

  datatype TransactionState = Processing | Cancelled | Done

  datatype Transaction = Transaction(state: TransactionState, consumer: Option<nat>)

  datatype Client = Client(state: ClientState, transaction: Option<Tid>)

  datatype ClientsMessage = OpenClient | AuthEvent(step: AuthStep, n: nat) | IncomingEvent(kind: EventKind, n: nat) | ConnectionClosed(n: nat)

  datatype ServerMessage = StartAuth(n: nat, c: nat) | FinishAuth(transaction: Option<Tid>) | AuthResult(step: AuthStep, n: nat)

  datatype AuthMessage = ProcessCredentials(c: nat, transaction: Tid)

  datatype World = World(
    store: Store,
    clients: map<Ptr, Client>,
    clientsQ: seq<ClientsMessage>,
    serverQ: seq<ServerMessage>,
    authQ: seq<AuthMessage>,
    reading: bool,                 // the worker has started on the head of its queue
    transactions: map<Tid, Transaction>,
    held: multiset<Slot>,          // references in the running handler's local variables
    next: nat,                     // names for message slots
    listed: seq<Ptr>,              // the client list
    unlinkedAt: map<Ptr, nat>,     // when each client no longer listed was unlinked
    clock: nat,
    admitted: set<Ptr>)            // the clients that have been told they are logged in
  {
    function Slots(): Slots { store.slots }

    /** The client a message refers to. */
    function Of(n: nat): Ptr
      requires Message(n) in store.slots
    {
      store.slots[Message(n)]
    }
  }

  // ---------------------------------------------------------------- the references in the queues

  function OfClientsMessage(m: ClientsMessage): multiset<Slot> {
    if m.OpenClient? then multiset{} else multiset{Message(m.n)}
  }

  function OfServerMessage(m: ServerMessage): multiset<Slot> {
    match m
    case StartAuth(n, c) => multiset{Message(n), Secret(c)}
    case FinishAuth(_) => multiset{}
    case AuthResult(_, n) => multiset{Message(n)}
  }

  /** A queued transaction keeps its consumer's reference. */
  function OfAuthMessage(m: AuthMessage, transactions: map<Tid, Transaction>): multiset<Slot> {
    multiset{Secret(m.c)}
    + (if m.transaction in transactions && transactions[m.transaction].consumer.Some?
       then multiset{Message(transactions[m.transaction].consumer.value)} else multiset{})
  }

  function InClientsQ(q: seq<ClientsMessage>): multiset<Slot> {
    if q == [] then multiset{} else OfClientsMessage(q[0]) + InClientsQ(q[1..])
  }

  function InServerQ(q: seq<ServerMessage>): multiset<Slot> {
    if q == [] then multiset{} else OfServerMessage(q[0]) + InServerQ(q[1..])
  }

  function InAuthQ(q: seq<AuthMessage>, transactions: map<Tid, Transaction>): multiset<Slot> {
    if q == [] then multiset{} else OfAuthMessage(q[0], transactions) + InAuthQ(q[1..], transactions)
  }

  function Carried(w: World): multiset<Slot> {
    w.held + InClientsQ(w.clientsQ) + InServerQ(w.serverQ) + InAuthQ(w.authQ, w.transactions)
  }

  lemma {:induction false} InClientsQAppend(q: seq<ClientsMessage>, m: ClientsMessage)
    ensures InClientsQ(q + [m]) == InClientsQ(q) + OfClientsMessage(m)
  {
    if q == [] {
      assert q + [m] == [m];
    } else {
      assert (q + [m])[1..] == q[1..] + [m];
      InClientsQAppend(q[1..], m);
    }
  }

  lemma {:induction false} InServerQAppend(q: seq<ServerMessage>, m: ServerMessage)
    ensures InServerQ(q + [m]) == InServerQ(q) + OfServerMessage(m)
  {
    if q == [] {
      assert q + [m] == [m];
    } else {
      assert (q + [m])[1..] == q[1..] + [m];
      InServerQAppend(q[1..], m);
    }
  }

  lemma {:induction false} InAuthQAppend(q: seq<AuthMessage>, m: AuthMessage, transactions: map<Tid, Transaction>)
    ensures InAuthQ(q + [m], transactions) == InAuthQ(q, transactions) + OfAuthMessage(m, transactions)
  {
    if q == [] {
      assert q + [m] == [m];
    } else {
      assert (q + [m])[1..] == q[1..] + [m];
      InAuthQAppend(q[1..], m, transactions);
    }
  }

  /** Only the queued transactions matter. */
  lemma {:induction false} InAuthQSame(q: seq<AuthMessage>, a: map<Tid, Transaction>, b: map<Tid, Transaction>)
    requires forall m :: m in q ==> OfAuthMessage(m, a) == OfAuthMessage(m, b)
    ensures InAuthQ(q, a) == InAuthQ(q, b)
  {
    if q != [] {
      assert q[0] in q;
      InAuthQSame(q[1..], a, b);
    }
  }

  // ---------------------------------------------------------------- what handlers are made of

  /** Takes on a new store, with the records of freed clients gone. */
  function WithStore(w: World, store: Store): World {
    w.(store := store,
       clients := map p | p in w.clients && p in store.counts :: w.clients[p],
       unlinkedAt := map p | p in w.unlinkedAt && p in store.counts :: w.unlinkedAt[p])
  }

  function SharedClient(w: World, p: Ptr): World
    requires p in w.store.counts
  {
    w.(store := Shared(w.store, p, Message(w.next)), held := w.held + multiset{Message(w.next)}, next := w.next + 1)
  }

  function SharedSecret(w: World, p: Ptr): World
    requires p in w.store.counts
  {
    w.(store := Shared(w.store, p, Secret(w.next)), held := w.held + multiset{Secret(w.next)}, next := w.next + 1)
  }

  /** Releases a reference the handler holds. */
  ghost function Dropped(w: World, k: Slot): World {
    WithStore(w, Release(w.store, k)).(held := w.held - multiset{k})
  }

  function TakenClients(w: World): World
    requires w.clientsQ != []
  {
    w.(clientsQ := w.clientsQ[1..], held := w.held + OfClientsMessage(w.clientsQ[0]))
  }

  function PutClients(w: World, m: ClientsMessage): World {
    w.(clientsQ := w.clientsQ + [m], held := w.held - OfClientsMessage(m))
  }

  function TakenServer(w: World): World
    requires w.serverQ != []
  {
    w.(serverQ := w.serverQ[1..], held := w.held + OfServerMessage(w.serverQ[0]))
  }

  function PutServer(w: World, m: ServerMessage): World {
    w.(serverQ := w.serverQ + [m], held := w.held - OfServerMessage(m))
  }

  function WithClient(w: World, p: Ptr, client: Client): World { w.(clients := w.clients[p := client]) }

  predicate HasCredentials(w: World, p: Ptr) {
    p in w.store.counts && Credentials(p) in w.store.slots && w.store.slots[Credentials(p)] in w.store.counts
  }

  /** START_AUTH_TRANSACTION: the handler shares the client and its credentials into a message. */
  function AuthStarted(w: World, p: Ptr): World
    requires HasCredentials(w, p)
  {
    var a := SharedClient(w, p);
    var b := SharedSecret(a, w.store.slots[Credentials(p)]);
    PutServer(b, StartAuth(w.next, w.next + 1))
  }

  // ---------------------------------------------------------------- the steps

  datatype Step =
    | AcceptConnection
    | ConnectionDelivers(p: Ptr, kind: EventKind)
    | ConnectionCloses(p: Ptr)
    | ClientsHandle(newClient: Ptr, newCredentials: Ptr)
    | ServerHandle(newTransaction: Tid)
    | AuthReads
    | AuthHandle(result: AuthStep)

  /** OPEN_CLIENT: create the record, its credentials and its connection, append it, start its login. */
  ghost function Opened(w: World, p: Ptr, c: Ptr): World {
    var n := w.next;
    var created := Created(w.store, p, Message(n));
    var secret := Created(created, c, Credentials(p));
    var connected := Shared(secret, p, Connection(p));
    var appended := Recounted(connected, Appended(connected.slots, p));
    w.(store := appended, clients := w.clients[p := Client(AuthInit, None)], listed := w.listed + [p], admitted := w.admitted - {p},
       held := w.held + multiset{Message(n)}, next := n + 1)
  }

  /** CLIENT_CONNECTION_CLOSED: take the client off the list. */
  ghost function Closed(w: World, p: Ptr): World
    requires p in w.listed
  {
    w.(store := Recounted(w.store, Unlinked(w.store.slots, p)), listed := Without(w.listed, p),
       unlinkedAt := w.unlinkedAt[p := w.clock], clock := w.clock + 1)
  }

  function StateAfter(step: AuthStep): ClientState {
    match step
    case UsernameRequired => AuthUsername
    case UsernameRejected => AuthUsername
    case Authenticated => Active
    case _ => AuthPassword
  }

  /** AUTH_EVENT: the client's state follows the step, its credentials go once it is authenticated, and
      its transaction is handed back to be finished. */
  ghost function Advised(w: World, p: Ptr, step: AuthStep): World
    requires p in w.clients
  {
    var stated := WithClient(w, p, Client(StateAfter(step), None)).(
      admitted := if step == Authenticated then w.admitted + {p} else w.admitted);
    var cleared := if step == Authenticated then WithStore(stated, Release(w.store, Credentials(p))) else stated;
    PutServer(cleared, FinishAuth(w.clients[p].transaction))
  }

  predicate StartsLogin(state: ClientState, kind: EventKind) {
    (kind == UsernameSubmit && state in {AuthUsername, AuthPassword}) || (kind == PasswordSubmit && state == AuthPassword)
  }

  function StateOnEvent(state: ClientState, kind: EventKind): ClientState {
    if kind == UsernameSubmit && StartsLogin(state, kind) then AuthProcessing
    else if kind == UserLeave then (if state == Active then DisconnectingFromActive else Disconnecting)
    else state
  }

  /** INCOMING_EVENT: the handler table's effect on the client and on the login. */
  ghost function Processed(w: World, p: Ptr, kind: EventKind): World
    requires p in w.clients
    requires StartsLogin(w.clients[p].state, kind) ==> HasCredentials(w, p)
  {
    var client := w.clients[p];
    var stated := WithClient(w, p, client.(state := StateOnEvent(client.state, kind)));
    if StartsLogin(client.state, kind) then
      AuthStarted(stated, p)
    else
      stated
  }

  /** START_AUTH_TRANSACTION at the server: a transaction is queued with a share of the client, and its
      address stored in the client. */
  ghost function Submitted(w: World, n: nat, c: nat, t: Tid): World
    requires Message(n) in w.store.slots && w.Of(n) in w.store.counts && w.Of(n) in w.clients
  {
    var p := w.Of(n);
    var a := SharedClient(w, p);
    WithClient(a, p, a.clients[p].(transaction := Some(t))).(
      transactions := a.transactions[t := Transaction(Processing, Some(w.next))],
      authQ := a.authQ + [ProcessCredentials(c, t)],
      held := a.held - multiset{Message(w.next), Secret(c)})
  }

  /** chat_auth_finish_transaction on a transaction that exists. */
  function Finished(w: World, t: Tid): World
    requires t in w.transactions
  {
    match w.transactions[t].state
    case Processing => w.(transactions := w.transactions[t := w.transactions[t].(state := Cancelled)])
    case Cancelled => w
    case Done => w.(transactions := w.transactions - {t})
  }

  /** PROCESS_CREDENTIALS: a cancelled transaction is dropped with its reference; another is done, and its
      reference travels on with the result. */
  ghost function Decided(w: World, result: AuthStep): World
    requires w.authQ != []
    requires var t := w.authQ[0].transaction; t in w.transactions && w.transactions[t].consumer.Some?
  {
    var c, t := w.authQ[0].c, w.authQ[0].transaction;
    var consumer := w.transactions[t].consumer.value;
    var taken := w.(authQ := w.authQ[1..], reading := false, held := w.held + multiset{Secret(c), Message(consumer)});
    if w.transactions[t].state == Cancelled then
      Dropped(taken.(transactions := w.transactions - {t}), Message(consumer))
    else
      PutServer(taken.(transactions := w.transactions[t := Transaction(Done, None)]), AuthResult(result, consumer))
  }

  /** A step can be taken when its message or callback is there; new records go where none is. */
  ghost predicate Enabled(w: World, step: Step) {
    match step
    case AcceptConnection => true
    case ConnectionDelivers(p, _) => Connection(p) in w.store.slots
    case ConnectionCloses(p) => Connection(p) in w.store.slots
    case ClientsHandle(p, c) =>
      && w.clientsQ != []
      && (w.clientsQ[0].OpenClient? ==> p !in w.store.counts && c !in w.store.counts && p != c)
    case ServerHandle(t) =>
      && w.serverQ != []
      && (w.serverQ[0].StartAuth? ==> t !in w.transactions)
      && (w.serverQ[0].FinishAuth? && w.serverQ[0].transaction.Some? ==> !Locked(w, w.serverQ[0].transaction.value))
    case AuthReads => w.authQ != [] && !w.reading && !HeadCancelled(w)
    case AuthHandle(_) => w.authQ != [] && (w.reading || HeadCancelled(w))
  }

  /** The worker looks at the state first, and reads no credentials for a cancelled transaction. */
  predicate HeadCancelled(w: World)
    requires w.authQ != []
  {
    w.authQ[0].transaction in w.transactions && w.transactions[w.authQ[0].transaction].state == Cancelled
  }

  /** While it reads, the worker has the transaction's mutex, for which finishing it waits. */
  predicate Locked(w: World, t: Tid) { w.reading && w.authQ != [] && w.authQ[0].transaction == t }

  predicate Submits(kind: EventKind) { kind in {UsernameSubmit, PasswordSubmit} }

  /** The next message for the client module is a submission by p. */
  ghost predicate NextSubmits(w: World, p: Ptr) {
    && w.clientsQ != [] && w.clientsQ[0].IncomingEvent? && Submits(w.clientsQ[0].kind)
    && Message(w.clientsQ[0].n) in w.store.slots && w.Of(w.clientsQ[0].n) == p
  }

  /** The record of credentials that the worker is reading. */
  function Read(w: World): Option<Ptr> {
    if w.reading && w.authQ != [] then Get(w.store.slots, Secret(w.authQ[0].c)) else None
  }

  /** The record that the next message for the client module rewrites: a submission that starts a login frees
      the texts in it and puts others there. */
  function Rewritten(w: World): Option<Ptr> {
    if w.clientsQ != [] && w.clientsQ[0].IncomingEvent? && Message(w.clientsQ[0].n) in w.store.slots
       && w.Of(w.clientsQ[0].n) in w.clients && StartsLogin(w.clients[w.Of(w.clientsQ[0].n)].state, w.clientsQ[0].kind)
    then Get(w.store.slots, Credentials(w.Of(w.clientsQ[0].n)))
    else None
  }

  /** No lock is taken for the credentials. A rewriting and a reading of the same record may overlap exactly
      when the reading may start before the rewriting and end after it. */
  predicate Interferes(w: World) { Read(w).Some? && Read(w) == Rewritten(w) }

  /** Where the program goes wrong: a submission is handled through the client's credentials, and reads
      through a null pointer if it has none; finishing a null transaction fails an assert; and a submission
      that frees what the worker is reading leaves it with a null or freed text, or with texts of two
      submissions. */
  ghost predicate Faults(w: World, step: Step)
    requires Enabled(w, step)
  {
    || (step.ClientsHandle? && w.clientsQ[0].IncomingEvent? && Submits(w.clientsQ[0].kind)
        && !(Message(w.clientsQ[0].n) in w.store.slots && Credentials(w.Of(w.clientsQ[0].n)) in w.store.slots))
    || (step.ServerHandle? && w.serverQ[0] == FinishAuth(None))
    || (step.ClientsHandle? && Interferes(w))
  }

  /** A step that can be taken and does not go wrong. */
  ghost predicate Proceeds(w: World, step: Step) { Enabled(w, step) && !Faults(w, step) }

  /** What a step follows is allocated: the client its message refers to, the credentials it shares or
      reads, the transaction it finishes or processes. */
  ghost predicate Safe(w: World, step: Step)
    requires Proceeds(w, step)
  {
    match step
    case AcceptConnection => true
    case ConnectionDelivers(p, _) => p in w.store.counts
    case ConnectionCloses(p) => p in w.store.counts
    case ClientsHandle(_, _) =>
      (match w.clientsQ[0]
       case OpenClient => true
       case AuthEvent(_, n) => LiveClient(w, n)
       case IncomingEvent(kind, n) =>
         LiveClient(w, n) && (StartsLogin(w.clients[w.Of(n)].state, kind) ==> HasCredentials(w, w.Of(n)))
       case ConnectionClosed(n) => LiveClient(w, n) && w.Of(n) in w.listed)
    case ServerHandle(_) =>
      (match w.serverQ[0]
       case StartAuth(n, _) => LiveClient(w, n)
       case FinishAuth(transaction) => transaction.value in w.transactions
       case AuthResult(_, n) => LiveClient(w, n))
    case AuthReads => w.authQ[0].transaction in w.transactions && LiveSecret(w, w.authQ[0].c)
    case AuthHandle(_) =>
      var t := w.authQ[0].transaction;
      && t in w.transactions && w.transactions[t].consumer.Some? && LiveClient(w, w.transactions[t].consumer.value)
      && LiveSecret(w, w.authQ[0].c)
  }

  ghost predicate LiveSecret(w: World, c: nat) {
    Secret(c) in w.store.slots && w.store.slots[Secret(c)] in w.store.counts
  }

  ghost predicate LiveClient(w: World, n: nat) {
    Message(n) in w.store.slots && w.Of(n) in w.clients && w.Of(n) in w.store.counts
  }

  // ---------------------------------------------------------------- runs

  /** The step up to the release that ends it. */
  ghost function Handled(w: World, step: Step): World
    requires Proceeds(w, step) && Safe(w, step)
  {
    match step
    case AcceptConnection => w.(clientsQ := w.clientsQ + [OpenClient])
    case ConnectionDelivers(p, kind) => PutClients(SharedClient(w, p), IncomingEvent(kind, w.next))
    case ConnectionCloses(p) => PutClients(SharedClient(w, p), ConnectionClosed(w.next))
    case ClientsHandle(p, c) =>
      var taken := TakenClients(w);
      (match w.clientsQ[0]
       case OpenClient => AuthStarted(Opened(taken, p, c), p)
       case AuthEvent(advice, n) => Advised(taken, w.Of(n), advice)
       case IncomingEvent(kind, n) => Processed(taken, w.Of(n), kind)
       case ConnectionClosed(n) => Closed(taken, w.Of(n)))
    case ServerHandle(t) =>
      var taken := TakenServer(w);
      (match w.serverQ[0]
       case StartAuth(n, c) => Submitted(taken, n, c, t)
       case FinishAuth(transaction) => Finished(taken, transaction.value)
       case AuthResult(advice, n) => PutClients(taken, AuthEvent(advice, n)))
    case AuthReads => w.(reading := true)
    case AuthHandle(result) => Decided(w, result)
  }

  /** The reference the step gives up last. */
  ghost function GivenUp(w: World, step: Step): Option<Slot>
    requires Proceeds(w, step)
  {
    match step
    case AcceptConnection => None
    case ConnectionDelivers(_, _) => None
    case ConnectionCloses(p) => Some(Connection(p))
    case ClientsHandle(_, _) => Some(Message(if w.clientsQ[0].OpenClient? then w.next else w.clientsQ[0].n))
    case ServerHandle(_) => if w.serverQ[0].StartAuth? then Some(Message(w.serverQ[0].n)) else None
    case AuthReads => None
    case AuthHandle(_) => Some(Secret(w.authQ[0].c))
  }

  ghost function After(w: World, step: Step): World
    requires Proceeds(w, step) && Safe(w, step)
  {
    var k := GivenUp(w, step);
    if k.Some? then Dropped(Handled(w, step), k.value) else Handled(w, step)
  }

  function Initial(): World {
    World(Store(map[], map[]), map[], [], [], [], false, map[], multiset{}, 0, [], map[], 0, {})
  }

  ghost predicate Run(w: World, steps: seq<Step>, v: World)
    decreases |steps|
  {
    if steps == [] then w == v
    else Proceeds(w, steps[0]) && Safe(w, steps[0]) && Run(After(w, steps[0]), steps[1..], v)
  }

  ghost predicate Reachable(w: World) { exists steps :: Run(Initial(), steps, w) }
}
