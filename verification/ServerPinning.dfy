/** A client that is being logged in is vouched for by something still in flight, whatever its peer sends;
    so it is never destroyed in that state, and a destroyed client's connection has closed. */
module ServerPinning {
  import opened SharedPtr
  import opened ClientList
  import opened ServerWorld
  import opened ServerReferences
  import opened ServerTransactions
  import opened ServerSteps
  import opened ServerTransactionSteps

  /** Messages that will lead to the client being told the outcome of its login. */
  predicate Announces(m: ServerMessage) { m.StartAuth? || m.AuthResult? }

  /** A transaction that has neither been finished nor is about to be. */
  ghost predicate Standing(w: World, t: Tid) {
    && t in w.transactions && w.transactions[t].state == Processing && w.transactions[t].consumer.Some?
    && FinishAuth(Some(t)) !in w.serverQ
  }

  ghost predicate Vouched(w: World, p: Ptr) {
    || (exists m :: m in w.clientsQ && m.AuthEvent? && Refers(w.store.slots, m.n, p))
    || (exists m :: m in w.serverQ && Announces(m) && Refers(w.store.slots, m.n, p))
    || (exists t :: Standing(w, t) && Refers(w.store.slots, w.transactions[t].consumer.value, p))
  }

  /** A client that is being logged in, or has the address of a transaction. (After a password submission
      it has one without being in the former state.) */
  predicate Awaiting(client: Client) { client.state == AuthProcessing || client.transaction.Some? }

  ghost predicate PinnedInv(w: World) {
    forall p :: p in w.clients && Awaiting(w.clients[p]) ==> Vouched(w, p)
  }

  /** Everything that vouches for anyone in one world is still there in the other. */
  ghost predicate KeepsVouchers(w: World, v: World) {
    && (forall m :: m in w.clientsQ && m.AuthEvent? ==> m in v.clientsQ && RefersStill(w, v, m.n))
    && (forall m :: m in w.serverQ && Announces(m) ==> m in v.serverQ && RefersStill(w, v, m.n))
    && (forall t :: Standing(w, t) ==>
          Standing(v, t) && v.transactions[t] == w.transactions[t] && RefersStill(w, v, w.transactions[t].consumer.value))
  }

  ghost predicate RefersStill(w: World, v: World, n: nat) {
    Message(n) in w.store.slots ==> Get(v.store.slots, Message(n)) == Get(w.store.slots, Message(n))
  }

  lemma VouchedStill(w: World, v: World, p: Ptr)
    requires Vouched(w, p) && KeepsVouchers(w, v)
    ensures Vouched(v, p)
  {
  }

  /** No client is newly being logged in, and nothing that vouches is lost. */
  lemma PinnedStill(w: World, v: World)
    requires PinnedInv(w) && KeepsVouchers(w, v)
    requires forall p :: p in v.clients && Awaiting(v.clients[p]) ==>
      p in w.clients && Awaiting(w.clients[p])
    ensures PinnedInv(v)
  {
    forall p | p in v.clients && Awaiting(v.clients[p])
      ensures Vouched(v, p)
    {
      VouchedStill(w, v, p);
    }
  }

  // ---------------------------------------------------------------- the last release of a step

  lemma {:induction false} AnnouncementCarried(q: seq<ServerMessage>, i: nat)
    requires i < |q| && Announces(q[i])
    ensures InServerQ(q)[Message(q[i].n)] >= 1
  {
    if i > 0 {
      AnnouncementCarried(q[1..], i - 1);
    }
  }

  lemma HeldVouchesForNobody(w: World, k: Slot)
    requires RefsInv(w.store.slots, Carried(w), w.next) && QueueInv(w.authQ, w.transactions) && k in w.held
    ensures forall m :: m in w.clientsQ && m.AuthEvent? ==> k != Message(m.n)
    ensures forall m :: m in w.serverQ && Announces(m) ==> k != Message(m.n)
    ensures forall t :: Standing(w, t) ==> k != Message(w.transactions[t].consumer.value)
  {
    hide QueueInv, InClientsQ, InServerQ, InAuthQ;
    assert Carried(w)[k] >= w.held[k] + InClientsQ(w.clientsQ)[k];
    assert Carried(w)[k] >= w.held[k] + InServerQ(w.serverQ)[k];
    forall m | m in w.clientsQ && m.AuthEvent?
      ensures k != Message(m.n)
    {
      var i :| 0 <= i < |w.clientsQ| && w.clientsQ[i] == m;
      NoticeCarried(w.clientsQ, i);
    }
    forall m | m in w.serverQ && Announces(m)
      ensures k != Message(m.n)
    {
      var i :| 0 <= i < |w.serverQ| && w.serverQ[i] == m;
      AnnouncementCarried(w.serverQ, i);
    }
    forall t | Standing(w, t)
      ensures k != Message(w.transactions[t].consumer.value)
    {
      HeldNotConsumer(w, k, t);
    }
  }

  /** What a release leaves of the message slots. */
  lemma ReleaseLeavesMessages(s: Store, k: Slot, j: Slot)
    requires s.Counted() && j.Message? && j != k
    ensures Get(Release(s, k).slots, j) == Get(s.slots, j)
  {
    assert Releases(s, k, Release(s, k));
  }

  lemma ReleaseKeepsVouchers(w: World, k: Slot, v: World)
    requires w.store.Counted()
    requires v.store == Release(w.store, k) && v.clientsQ == w.clientsQ && v.serverQ == w.serverQ && v.transactions == w.transactions
    requires forall m :: m in w.clientsQ && m.AuthEvent? ==> k != Message(m.n)
    requires forall m :: m in w.serverQ && Announces(m) ==> k != Message(m.n)
    requires forall t :: Standing(w, t) ==> k != Message(w.transactions[t].consumer.value)
    ensures KeepsVouchers(w, v)
  {
    hide Store.Counted;
    forall n: nat | k != Message(n)
      ensures RefersStill(w, v, n)
    {
      ReleaseLeavesMessages(w.store, k, Message(n));
    }
    forall t | Standing(w, t)
      ensures Standing(v, t)
    {
    }
  }

  /** A release that takes nothing from the vouchers destroys no client that is being logged in. */
  lemma ReleaseSpares(w: World, k: Slot, v: World)
    requires w.store.Counted() && PinnedInv(w) && KeepsVouchers(w, v) && v.store == Release(w.store, k)
    ensures forall p :: p in w.clients && Awaiting(w.clients[p]) ==> p in v.store.counts
  {
    forall p | p in w.clients && Awaiting(w.clients[p])
      ensures p in v.store.counts
    {
      VouchedStill(w, v, p);
      assert v.store.Counted() by {
        assert Releases(w.store, k, Release(w.store, k));
      }
      VouchedIsLive(v, p);
    }
  }

  lemma VouchedIsLive(w: World, p: Ptr)
    requires Vouched(w, p) && w.store.Counted()
    ensures p in w.store.counts
  {
  }

  // ---------------------------------------------------------------- each handler

  lemma AddedKeepsVouchers(w: World, v: World)
    requires MessagesKept(w.store.slots, v.store.slots)
    requires (forall m :: m in w.clientsQ ==> m in v.clientsQ) && (forall m :: m in w.serverQ ==> m in v.serverQ)
    requires forall t :: FinishAuth(Some(t)) in v.serverQ ==> FinishAuth(Some(t)) in w.serverQ
    requires forall t :: t in w.transactions ==> t in v.transactions && v.transactions[t] == w.transactions[t]
    ensures KeepsVouchers(w, v)
  {
  }

  lemma CallbackPinned(w: World, p: Ptr, m: ClientsMessage)
    requires PinnedInv(w) && p in w.store.counts && Message(w.next) !in w.store.slots
    ensures PinnedInv(PutClients(SharedClient(w, p), m))
  {
    var v := PutClients(SharedClient(w, p), m);
    AddedKeepsVouchers(w, v);
    PinnedStill(w, v);
  }

  lemma AuthStartedVouches(w: World, p: Ptr)
    requires HasCredentials(w, p) && Message(w.next) !in w.store.slots && Secret(w.next + 1) !in w.store.slots
    ensures KeepsVouchers(w, AuthStarted(w, p)) && Vouched(AuthStarted(w, p), p)
  {
    var v := AuthStarted(w, p);
    AddedKeepsVouchers(w, v);
    var m := StartAuth(w.next, w.next + 1);
    assert m in v.serverQ && Announces(m) && Refers(v.store.slots, m.n, p);
  }

  /** Taking a message that vouches for nobody. */
  lemma TakenClientsPinned(w: World)
    requires PinnedInv(w) && w.clientsQ != [] && !w.clientsQ[0].AuthEvent?
    ensures PinnedInv(TakenClients(w))
  {
  }

  lemma OpenClientPinned(w: World, p: Ptr, c: Ptr)
    requires PinnedInv(w) && p !in w.store.counts && c !in w.store.counts && p != c && Message(w.next) !in w.store.slots
    requires Message(w.next + 1) !in w.store.slots && Secret(w.next + 2) !in w.store.slots
    ensures HasCredentials(Opened(w, p, c), p) && PinnedInv(AuthStarted(Opened(w, p, c), p))
  {
    hide PinnedInv, KeepsVouchers;
    var a := Opened(w, p, c);
    OpenedPinned(w, p, c);
    AuthStartedVouches(a, p);
    AuthStartedPinned(a, p);
  }

  lemma OpenedPinned(w: World, p: Ptr, c: Ptr)
    requires PinnedInv(w) && p !in w.store.counts && c !in w.store.counts && p != c && Message(w.next) !in w.store.slots
    requires Message(w.next + 1) !in w.store.slots && Secret(w.next + 2) !in w.store.slots
    ensures var a := Opened(w, p, c);
      PinnedInv(a) && HasCredentials(a, p) && Message(a.next) !in a.store.slots && Secret(a.next + 1) !in a.store.slots
  {
    hide PinnedInv, KeepsVouchers, Opened, MessagesKept, HasCredentials;
    var a := Opened(w, p, c);
    OpenedFrame(w, p, c);
    OpenedNames(w, p, c);
    AddedKeepsVouchers(w, a);
    PinnedStill(w, a);
  }

  lemma OpenedNames(w: World, p: Ptr, c: Ptr)
    requires p !in w.store.counts && c !in w.store.counts && p != c
    requires Message(w.next + 1) !in w.store.slots && Secret(w.next + 2) !in w.store.slots
    ensures var a := Opened(w, p, c);
      HasCredentials(a, p) && Message(a.next) !in a.store.slots && Secret(a.next + 1) !in a.store.slots
  {
    OpenedHasCredentials(w, p, c);
    hide HasCredentials;
  }

  lemma OpenedFrame(w: World, p: Ptr, c: Ptr)
    requires Message(w.next) !in w.store.slots
    ensures var a := Opened(w, p, c);
      && MessagesKept(w.store.slots, a.store.slots)
      && a.clientsQ == w.clientsQ && a.serverQ == w.serverQ && a.transactions == w.transactions
      && a.clients == w.clients[p := Client(AuthInit, None)]
  {
  }

  lemma AuthStartedPinned(w: World, p: Ptr)
    requires PinnedInv(w) && HasCredentials(w, p) && KeepsVouchers(w, AuthStarted(w, p))
    ensures PinnedInv(AuthStarted(w, p))
  {
    hide KeepsVouchers;
    PinnedStill(w, AuthStarted(w, p));
  }

  /** Told of an outcome, the client is not being logged in; the transaction that this dooms was its own. */
  lemma AdvisedPinned(w: World, n: nat, advice: AuthStep)
    requires w.store.Counted() && PinnedInv(w) && TransactionsInv(w) && LiveClient(w, n)
    requires w.clientsQ != [] && w.clientsQ[0] == AuthEvent(advice, n)
    ensures PinnedInv(Advised(TakenClients(w), w.Of(n), advice))
  {
    var p := w.Of(n);
    var v := Advised(TakenClients(w), p, advice);
    forall r | r in v.clients && Awaiting(v.clients[r])
      ensures Vouched(v, r)
    {
      assert r != p && Vouched(w, r);
      OthersVouchedStill(w, n, advice, r);
    }
  }

  lemma OthersVouchedStill(w: World, n: nat, advice: AuthStep, r: Ptr)
    requires w.store.Counted() && TransactionsInv(w) && LiveClient(w, n) && r != w.Of(n) && Vouched(w, r)
    requires w.clientsQ != [] && w.clientsQ[0] == AuthEvent(advice, n)
    ensures Vouched(Advised(TakenClients(w), w.Of(n), advice), r)
  {
    hide RefersStill, Release, QueueInv, FinishInv;
    var p := w.Of(n);
    var v := Advised(TakenClients(w), p, advice);
    AdvisedRefers(w, p, advice);
    if m :| m in w.clientsQ && m.AuthEvent? && Refers(w.store.slots, m.n, r) {
      assert m != w.clientsQ[0] && m in v.clientsQ;
      RefersOn(w, v, m.n, r);
    } else if m :| m in w.serverQ && Announces(m) && Refers(w.store.slots, m.n, r) {
      assert m in v.serverQ;
      RefersOn(w, v, m.n, r);
    } else {
      var t :| Standing(w, t) && Refers(w.store.slots, w.transactions[t].consumer.value, r);
      RefersOn(w, v, w.transactions[t].consumer.value, r);
      assert w.clients[p].transaction.Some? ==>
        Owns(w.store.slots, w.serverQ, w.transactions, p, w.clients[p].transaction.value);
      assert Standing(v, t);
    }
  }

  lemma AdvisedRefers(w: World, p: Ptr, advice: AuthStep)
    requires w.store.Counted() && w.clientsQ != [] && p in w.clients
    ensures forall j: nat :: RefersStill(w, Advised(TakenClients(w), p, advice), j)
  {
    forall j: nat
      ensures RefersStill(w, Advised(TakenClients(w), p, advice), j)
    {
      ReleaseLeavesMessages(w.store, Credentials(p), Message(j));
    }
  }

  lemma RefersOn(w: World, v: World, n: nat, p: Ptr)
    requires RefersStill(w, v, n) && Refers(w.store.slots, n, p)
    ensures Refers(v.store.slots, n, p)
  {
  }

  lemma ProcessedPinned(w: World, p: Ptr, kind: EventKind)
    requires PinnedInv(w) && p in w.clients && Message(w.next) !in w.store.slots && Secret(w.next + 1) !in w.store.slots
    requires StartsLogin(w.clients[p].state, kind) ==> HasCredentials(w, p)
    ensures PinnedInv(Processed(w, p, kind))
  {
    var state := StateOnEvent(w.clients[p].state, kind);
    var a := WithClient(w, p, w.clients[p].(state := state));
    assert KeepsVouchers(w, a);
    if StartsLogin(w.clients[p].state, kind) {
      AuthStartedVouches(a, p);
      var v := AuthStarted(a, p);
      forall r | r in v.clients && Awaiting(v.clients[r])
        ensures Vouched(v, r)
      {
        if r != p {
          VouchedStill(w, a, r);
          VouchedStill(a, v, r);
        }
      }
    } else {
      PinnedStill(w, a);
    }
  }

  lemma ClosedPinned(w: World, p: Ptr)
    requires PinnedInv(w) && Linked(w.store.slots, w.listed) && p in w.listed
    ensures PinnedInv(Closed(w, p))
  {
    var v := Closed(w, p);
    forall k: Slot | k.Message? && k in w.store.slots
      ensures Get(v.store.slots, k) == Get(w.store.slots, k)
    {
      UnlinkedFrame(w.store.slots, w.listed, p, k);
    }
    AddedKeepsVouchers(w, v);
    PinnedStill(w, v);
  }

  /** The start message hands its voucher over to the new transaction. */
  lemma SubmittedPinned(w: World, t: Tid)
    requires PinnedInv(w) && FinishInv(w.serverQ, w.transactions) && w.serverQ != [] && w.serverQ[0].StartAuth?
    requires LiveClient(w, w.serverQ[0].n) && t !in w.transactions && Message(w.next) !in w.store.slots
    ensures PinnedInv(Submitted(TakenServer(w), w.serverQ[0].n, w.serverQ[0].c, t))
  {
    var n, c := w.serverQ[0].n, w.serverQ[0].c;
    var v := Submitted(TakenServer(w), n, c, t);
    assert FinishAuth(Some(t)) !in w.serverQ;
    assert Standing(v, t) && Refers(v.store.slots, w.next, w.Of(n));
    forall r | r in v.clients && Awaiting(v.clients[r])
      ensures Vouched(v, r)
    {
      if r == w.Of(n) {
      } else if m :| m in w.clientsQ && m.AuthEvent? && Refers(w.store.slots, m.n, r) {
        assert m in v.clientsQ && Refers(v.store.slots, m.n, r);
      } else if m :| m in w.serverQ && Announces(m) && Refers(w.store.slots, m.n, r) {
        assert m == w.serverQ[0] || m in v.serverQ;
        assert Refers(v.store.slots, m.n, r);
      } else {
        var x :| Standing(w, x) && Refers(w.store.slots, w.transactions[x].consumer.value, r);
        assert Standing(v, x) && Refers(v.store.slots, v.transactions[x].consumer.value, r);
      }
    }
  }

  lemma FinishedPinned(w: World)
    requires PinnedInv(w) && w.serverQ != [] && w.serverQ[0].FinishAuth? && w.serverQ[0].transaction.Some?
    requires w.serverQ[0].transaction.value in w.transactions
    ensures PinnedInv(Finished(TakenServer(w), w.serverQ[0].transaction.value))
  {
    var v := Finished(TakenServer(w), w.serverQ[0].transaction.value);
    assert w.serverQ[0] in w.serverQ;
    assert forall x :: Standing(w, x) ==> Standing(v, x);
    PinnedStill(w, v);
  }

  lemma AuthResultPinned(w: World)
    requires PinnedInv(w) && w.serverQ != [] && w.serverQ[0].AuthResult?
    ensures PinnedInv(PutClients(TakenServer(w), AuthEvent(w.serverQ[0].step, w.serverQ[0].n)))
  {
  }

  /** A processed transaction hands its voucher over to its result; a cancelled one vouched for nobody. */
  lemma ConsideringPinned(w: World, result: AuthStep)
    requires PinnedInv(w) && w.authQ != [] && Unprocessed(w.transactions, w.authQ[0].transaction)
    ensures var t := w.authQ[0].transaction;
      if w.transactions[t].state == Cancelled then PinnedInv(Considering(w, w.transactions - {t}))
      else PinnedInv(PutServer(Considering(w, w.transactions[t := Transaction(Done, None)]),
                               AuthResult(result, w.transactions[t].consumer.value)))
  {
    var t := w.authQ[0].transaction;
    if w.transactions[t].state == Cancelled {
      var v := Considering(w, w.transactions - {t});
      assert forall x :: Standing(w, x) ==> Standing(v, x);
      PinnedStill(w, v);
    } else {
      var news := AuthResult(result, w.transactions[t].consumer.value);
      var v := PutServer(Considering(w, w.transactions[t := Transaction(Done, None)]), news);
      assert news in v.serverQ && Announces(news);
      forall r | r in v.clients && Awaiting(v.clients[r])
        ensures Vouched(v, r)
      {
        assert Vouched(w, r);
        if m :| m in w.clientsQ && m.AuthEvent? && Refers(w.store.slots, m.n, r) {
          assert m in v.clientsQ;
        } else if m :| m in w.serverQ && Announces(m) && Refers(w.store.slots, m.n, r) {
          assert m in v.serverQ;
        } else {
          var x :| Standing(w, x) && Refers(w.store.slots, w.transactions[x].consumer.value, r);
          assert x == t || Standing(v, x);
        }
      }
    }
  }
}
