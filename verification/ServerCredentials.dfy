/** Who has credentials, and whose are decided on: those of the client that the verdict goes to. */
module ServerCredentials {
  import opened SharedPtr
  import opened ClientList
  import opened ServerWorld
  import opened ServerReferences
  import opened ServerTransactions
  import opened ServerSteps
  import opened ServerReferenceSteps
  import opened ServerTransactionSteps
  import opened ServerPinning
  import opened ServerRuns

  // ---------------------------------------------------------------- who has credentials

  /** A client has its credentials until it has been told that it is logged in, and not after. */
  ghost predicate CredentialsInv(w: World) {
    forall p :: p in w.clients ==> (Credentials(p) in w.store.slots <==> p !in w.admitted)
  }

  ghost predicate SameCredentials(w: World, v: World) {
    && v.admitted == w.admitted
    && forall p :: p in v.clients ==> p in w.clients && (Credentials(p) in v.store.slots <==> Credentials(p) in w.store.slots)
  }

  lemma CredentialsStill(w: World, v: World)
    requires CredentialsInv(w) && SameCredentials(w, v)
    ensures CredentialsInv(v)
  {
  }

  /** A release takes credentials from freed clients only, unless it is of credentials. */
  lemma ReleaseSparesCredentials(s: Store, k: Slot, p: Ptr)
    requires p in s.counts && p in Release(s, k).counts && k != Credentials(p)
    ensures Credentials(p) in Release(s, k).slots <==> Credentials(p) in s.slots
  {
    if s.Counted() {
      assert Releases(s, k, Release(s, k));
    }
  }

  lemma DroppedKeepsCredentials(w: World, k: Slot)
    requires w.clients.Keys <= w.store.counts.Keys && !k.Credentials? && CredentialsInv(w)
    ensures CredentialsInv(Dropped(w, k))
  {
    hide Release;
    forall p | p in Dropped(w, k).clients
      ensures Credentials(p) in Dropped(w, k).store.slots <==> Credentials(p) in w.store.slots
    {
      ReleaseSparesCredentials(w.store, k, p);
    }
  }

  lemma AdvisedKeepsCredentials(w: World, p: Ptr, advice: AuthStep)
    requires w.store.Counted() && w.clients.Keys <= w.store.counts.Keys && p in w.clients && CredentialsInv(w)
    ensures CredentialsInv(Advised(w, p, advice))
  {
    hide Release, Store.Counted;
    if advice == Authenticated {
      CredentialsGone(w.store, p);
      forall r | r in Advised(w, p, advice).clients && r != p
        ensures Credentials(r) in Advised(w, p, advice).store.slots <==> Credentials(r) in w.store.slots
      {
        ReleaseSparesCredentials(w.store, Credentials(p), r);
      }
    }
  }

  lemma CredentialsGone(s: Store, p: Ptr)
    requires s.Counted()
    ensures Credentials(p) !in Release(s, Credentials(p)).slots
  {
    assert Releases(s, Credentials(p), Release(s, Credentials(p)));
  }

  lemma OpenedKeepsCredentials(w: World, p: Ptr, c: Ptr)
    requires p !in w.store.counts && c !in w.store.counts && p != c && Message(w.next) !in w.store.slots && CredentialsInv(w)
    requires HasCredentials(Opened(w, p, c), p)
    ensures CredentialsInv(AuthStarted(Opened(w, p, c), p))
  {
    hide Opened;
    OpenedCredentials(w, p, c);
    OpenedFrame(w, p, c);
  }

  lemma OpenedCredentials(w: World, p: Ptr, c: Ptr)
    ensures forall r :: Credentials(r) in Opened(w, p, c).store.slots <==> r == p || Credentials(r) in w.store.slots
    ensures Opened(w, p, c).admitted == w.admitted - {p}
  {
  }

  lemma ProcessedKeepsCredentials(w: World, p: Ptr, kind: EventKind)
    requires p in w.clients && CredentialsInv(w) && (StartsLogin(w.clients[p].state, kind) ==> HasCredentials(w, p))
    ensures CredentialsInv(Processed(w, p, kind))
  {
    CredentialsStill(w, Processed(w, p, kind));
  }

  lemma ClosedKeepsCredentials(w: World, p: Ptr)
    requires Linked(w.store.slots, w.listed) && p in w.listed && CredentialsInv(w)
    ensures CredentialsInv(Closed(w, p))
  {
    hide Linked, Unlinked;
    forall r | r in w.clients
      ensures Credentials(r) in Closed(w, p).store.slots <==> Credentials(r) in w.store.slots
    {
      UnlinkedFrame(w.store.slots, w.listed, p, Credentials(r));
      assert Get(Unlinked(w.store.slots, p), Credentials(r)) == Get(w.store.slots, Credentials(r));
    }
  }

  lemma ClientsKeepCredentials(w: World, step: Step)
    requires ReferencesInv(w) && CredentialsInv(w) && step.ClientsHandle? && Proceeds(w, step) && Safe(w, step)
    ensures CredentialsInv(Handled(w, step))
  {
    hide ReferencesInv, Store.Counted, Linked, Opened, AuthStarted, Advised, Processed, Closed;
    NextIsFree(w);
    var taken := TakenClients(w);
    CredentialsStill(w, taken);
    match w.clientsQ[0]
    case OpenClient =>
      OpenedHasCredentials(taken, step.newClient, step.newCredentials);
      OpenedKeepsCredentials(taken, step.newClient, step.newCredentials);
    case AuthEvent(advice, n) => AdvisedKeepsCredentials(taken, w.Of(n), advice);
    case IncomingEvent(kind, n) => ProcessedKeepsCredentials(taken, w.Of(n), kind);
    case ConnectionClosed(n) => ClosedKeepsCredentials(taken, w.Of(n));
  }

  lemma DecidedKeepsCredentials(w: World, result: AuthStep)
    requires w.clients.Keys <= w.store.counts.Keys && CredentialsInv(w)
    requires Proceeds(w, AuthHandle(result)) && Safe(w, AuthHandle(result))
    ensures CredentialsInv(Decided(w, result))
  {
    hide Dropped;
    var t := w.authQ[0].transaction;
    if w.transactions[t].state == Cancelled {
      var consumer := w.transactions[t].consumer.value;
      var taken := w.(authQ := w.authQ[1..], reading := false,
                      held := w.held + multiset{Secret(w.authQ[0].c), Message(consumer)}, transactions := w.transactions - {t});
      CredentialsStill(w, taken);
      DroppedKeepsCredentials(taken, Message(consumer));
    }
  }

  lemma HandledKeepsCredentials(w: World, step: Step)
    requires ReferencesInv(w) && CredentialsInv(w) && Proceeds(w, step) && Safe(w, step)
    ensures CredentialsInv(Handled(w, step))
  {
    hide ReferencesInv, CredentialsInv, Store.Counted, Linked, Decided, Handled;
    NextIsFree(w);
    match step
    case ClientsHandle(_, _) => ClientsKeepCredentials(w, step);
    case AuthReads => ReadingKeepsCredentials(w);
    case AuthHandle(result) => WorkerKeepsCredentials(w, result);
    case ServerHandle(_) => ServerKeepsCredentials(w, step);
    case _ => CallbackKeepsCredentials(w, step);
  }

  lemma WorkerKeepsCredentials(w: World, result: AuthStep)
    requires w.clients.Keys <= w.store.counts.Keys && CredentialsInv(w)
    requires Proceeds(w, AuthHandle(result)) && Safe(w, AuthHandle(result))
    ensures CredentialsInv(Handled(w, AuthHandle(result)))
  {
    hide CredentialsInv, Decided;
    DecidedKeepsCredentials(w, result);
  }

  lemma ServerKeepsCredentials(w: World, step: Step)
    requires CredentialsInv(w) && step.ServerHandle? && Proceeds(w, step) && Safe(w, step)
    ensures CredentialsInv(Handled(w, step))
  {
    hide CredentialsInv, Submitted, Finished;
    match w.serverQ[0]
    case StartAuth(n, c) =>
      SubmittedSame(w, n, c, step.newTransaction);
      CredentialsStill(w, Handled(w, step));
    case FinishAuth(transaction) =>
      FinishedSame(w, transaction.value);
      CredentialsStill(w, Handled(w, step));
    case AuthResult(_, _) => CredentialsStill(w, Handled(w, step));
  }

  lemma SubmittedSame(w: World, n: nat, c: nat, t: Tid)
    requires w.serverQ != [] && LiveClient(w, n)
    ensures SameCredentials(w, Submitted(TakenServer(w), n, c, t))
  {
  }

  lemma FinishedSame(w: World, t: Tid)
    requires w.serverQ != [] && t in w.transactions
    ensures SameCredentials(w, Finished(TakenServer(w), t))
  {
  }

  lemma ReadingKeepsCredentials(w: World)
    requires CredentialsInv(w) && Proceeds(w, AuthReads) && Safe(w, AuthReads)
    ensures CredentialsInv(Handled(w, AuthReads))
  {
    CredentialsStill(w, w.(reading := true));
  }

  lemma CallbackKeepsCredentials(w: World, step: Step)
    requires CredentialsInv(w) && !step.ClientsHandle? && !step.ServerHandle? && !step.AuthHandle? && !step.AuthReads?
    requires Proceeds(w, step) && Safe(w, step)
    ensures CredentialsInv(Handled(w, step))
  {
    hide CredentialsInv;
    CredentialsStill(w, Handled(w, step));
  }

  lemma StepKeepsCredentials(w: World, step: Step)
    requires Reachable(w) && CredentialsInv(w) && Proceeds(w, step) && Safe(w, step)
    ensures CredentialsInv(After(w, step))
  {
    hide Reachable, ReferencesInv, TransactionsInv, PinnedInv, CredentialsInv, Handled, Dropped;
    ReachableInv(w);
    HandledKeepsCredentials(w, step);
    HandledClientsCounted(w, step);
    if GivenUp(w, step).Some? {
      GivenUpIsNoCredentials(w, step);
      DroppedKeepsCredentials(Handled(w, step), GivenUp(w, step).value);
    }
  }

  lemma GivenUpIsNoCredentials(w: World, step: Step)
    requires Proceeds(w, step) && GivenUp(w, step).Some?
    ensures !GivenUp(w, step).value.Credentials?
  {
  }

  lemma HandledClientsCounted(w: World, step: Step)
    requires Reachable(w) && Proceeds(w, step) && Safe(w, step)
    ensures Handled(w, step).clients.Keys <= Handled(w, step).store.counts.Keys
  {
    hide Reachable, ReferencesInv, TransactionsInv, PinnedInv, Handled;
    ReachableInv(w);
    if step.ConnectionCloses? {
      CallbackClientsCounted(w, step.p);
    } else {
      HandlingIsTidy(w, step);
      NextIsFree(Handled(w, step));
    }
  }

  lemma CallbackClientsCounted(w: World, p: Ptr)
    requires ReferencesInv(w) && Proceeds(w, ConnectionCloses(p)) && Safe(w, ConnectionCloses(p))
    ensures Handled(w, ConnectionCloses(p)).clients.Keys <= Handled(w, ConnectionCloses(p)).store.counts.Keys
  {
    hide ReferencesInv, Store.Counted, Linked;
    NextIsFree(w);
  }

  lemma {:induction false} RunKeepsCredentials(w: World, steps: seq<Step>, v: World)
    requires Reachable(w) && CredentialsInv(w) && Run(w, steps, v)
    ensures CredentialsInv(v)
    decreases |steps|
  {
    hide Reachable, CredentialsInv;
    if steps != [] {
      StepKeepsCredentials(w, steps[0]);
      NoUseAfterFree(w, steps[0]);
      RunKeepsCredentials(After(w, steps[0]), steps[1..], v);
    }
  }

  lemma CredentialsOfReachable(w: World)
    requires Reachable(w)
    ensures CredentialsInv(w)
  {
    assert Run(Initial(), [], Initial());
    var steps :| Run(Initial(), steps, w);
    RunKeepsCredentials(Initial(), steps, w);
  }

  lemma CredentialsOf(w: World, p: Ptr)
    requires CredentialsInv(w) && p in w.clients
    ensures Credentials(p) in w.store.slots <==> p !in w.admitted
  {
  }

  /** Who has been told: exactly the clients that an AUTH_EVENT has told since their record was created. */
  lemma AdmittedExactly(w: World, step: Step, p: Ptr)
    requires Proceeds(w, step) && Safe(w, step)
    ensures p in After(w, step).admitted <==>
      || (step.ClientsHandle? && w.clientsQ[0].AuthEvent? && w.clientsQ[0].step == Authenticated && w.Of(w.clientsQ[0].n) == p)
      || (p in w.admitted && !(step.ClientsHandle? && w.clientsQ[0].OpenClient? && step.newClient == p))
  {
    hide Handled;
    AdmittedByHandler(w, step);
    LastReleaseAdmits(w, step);
  }

  lemma LastReleaseAdmits(w: World, step: Step)
    requires Proceeds(w, step) && Safe(w, step)
    ensures After(w, step).admitted == Handled(w, step).admitted
  {
    hide Handled, Release;
  }

  lemma AdmittedByHandler(w: World, step: Step)
    requires Proceeds(w, step) && Safe(w, step)
    ensures Handled(w, step).admitted ==
      if !step.ClientsHandle? then w.admitted
      else if w.clientsQ[0].OpenClient? then w.admitted - {step.newClient}
      else if w.clientsQ[0].AuthEvent? && w.clientsQ[0].step == Authenticated then w.admitted + {w.Of(w.clientsQ[0].n)}
      else w.admitted
  {
    hide Handled;
    if step.ClientsHandle? {
      AdmittedByClients(w, step);
    } else if step.ServerHandle? {
      AdmittedByServer(w, step.newTransaction);
    } else {
      AdmittedByOthers(w, step);
    }
  }

  lemma AdmittedByServer(w: World, t: Tid)
    requires Proceeds(w, ServerHandle(t)) && Safe(w, ServerHandle(t))
    ensures Handled(w, ServerHandle(t)).admitted == w.admitted
  {
    hide Shared;
  }

  lemma AdmittedByOthers(w: World, step: Step)
    requires !step.ClientsHandle? && !step.ServerHandle? && Proceeds(w, step) && Safe(w, step)
    ensures Handled(w, step).admitted == w.admitted
  {
    hide Release, Shared;
  }

  lemma AdmittedByClients(w: World, step: Step)
    requires step.ClientsHandle? && Proceeds(w, step) && Safe(w, step)
    ensures Handled(w, step).admitted ==
      if w.clientsQ[0].OpenClient? then w.admitted - {step.newClient}
      else if w.clientsQ[0].AuthEvent? && w.clientsQ[0].step == Authenticated then w.admitted + {w.Of(w.clientsQ[0].n)}
      else w.admitted
  {
    hide Opened, AuthStarted, Advised, Processed, Closed;
    var taken := TakenClients(w);
    match w.clientsQ[0]
    case OpenClient =>
      OpenedHasCredentials(taken, step.newClient, step.newCredentials);
      OpenedCredentials(taken, step.newClient, step.newCredentials);
      StartedAdmitsNone(Opened(taken, step.newClient, step.newCredentials), step.newClient);
    case AuthEvent(advice, n) => AdvisedAdmits(taken, w.Of(n), advice);
    case IncomingEvent(kind, n) => ProcessedAdmitsNone(taken, w.Of(n), kind);
    case ConnectionClosed(n) => ClosedAdmitsNone(taken, w.Of(n));
  }

  lemma StartedAdmitsNone(w: World, p: Ptr)
    requires HasCredentials(w, p)
    ensures AuthStarted(w, p).admitted == w.admitted
  {
    hide Shared;
  }

  lemma AdvisedAdmits(w: World, p: Ptr, advice: AuthStep)
    requires p in w.clients
    ensures Advised(w, p, advice).admitted == if advice == Authenticated then w.admitted + {p} else w.admitted
  {
    hide Release;
  }

  lemma ProcessedAdmitsNone(w: World, p: Ptr, kind: EventKind)
    requires p in w.clients && (StartsLogin(w.clients[p].state, kind) ==> HasCredentials(w, p))
    ensures Processed(w, p, kind).admitted == w.admitted
  {
    hide Shared;
  }

  lemma ClosedAdmitsNone(w: World, p: Ptr)
    requires p in w.listed
    ensures Closed(w, p).admitted == w.admitted
  {
    hide Unlinked, Recounted;
  }

  // ---------------------------------------------------------------- whose are decided on

  /** A decision is asked for about the credentials that c refers to, for the client that n refers to. */
  ghost predicate Asked(w: World, n: nat, c: nat) {
    || StartAuth(n, c) in w.serverQ
    || exists t :: Asks(w, t, n, c)
  }

  ghost predicate Asks(w: World, t: Tid, n: nat, c: nat) {
    ProcessCredentials(c, t) in w.authQ && t in w.transactions && w.transactions[t].consumer == Some(n)
  }

  /** As long as n and c are held, what c refers to are the credentials of n's client, if it has any, and
      nobody else's. */
  ghost predicate Own(slots: Slots, n: nat, c: nat) {
    Message(n) in slots && Secret(c) in slots ==>
      forall p :: Credentials(p) in slots ==> (slots[Credentials(p)] == slots[Secret(c)] <==> p == slots[Message(n)])
  }

  ghost predicate Apart(slots: Slots) {
    forall p, q :: Credentials(p) in slots && Credentials(q) in slots && p != q ==> slots[Credentials(p)] != slots[Credentials(q)]
  }

  ghost predicate OwnInv(w: World) {
    && Apart(w.store.slots)
    && forall n: nat, c: nat :: Asked(w, n, c) ==> n < w.next && c < w.next && Own(w.store.slots, n, c)
  }

  // ---------------------------------------------------------------- what keeps it

  /** Slots of references and credentials are kept or removed, and nothing new is asked. */
  ghost predicate OnlyRemoves(w: World, v: World) {
    && (forall k :: k in v.store.slots && (Reference(k) || k.Credentials?) ==> Get(w.store.slots, k) == Some(v.store.slots[k]))
    && (forall n: nat, c: nat :: Asked(v, n, c) ==> Asked(w, n, c)) && v.next >= w.next
  }

  lemma OwnStill(w: World, v: World)
    requires OwnInv(w) && OnlyRemoves(w, v)
    ensures OwnInv(v)
  {
    hide Asked;
    forall n: nat, c: nat | Asked(v, n, c)
      ensures Own(v.store.slots, n, c)
    {
      assert Asked(w, n, c) && Own(w.store.slots, n, c);
    }
    forall p, q | Credentials(p) in v.store.slots && Credentials(q) in v.store.slots && p != q
      ensures v.store.slots[Credentials(p)] != v.store.slots[Credentials(q)]
    {
      assert Get(w.store.slots, Credentials(p)).Some? && Get(w.store.slots, Credentials(q)).Some?;
    }
  }

  lemma SameAsked(w: World, v: World)
    requires forall n: nat, c: nat :: StartAuth(n, c) in v.serverQ ==> StartAuth(n, c) in w.serverQ
    requires v.authQ == w.authQ && v.transactions == w.transactions
    ensures forall n: nat, c: nat :: Asked(v, n, c) ==> Asked(w, n, c)
  {
    forall n: nat, c: nat | Asked(v, n, c)
      ensures Asked(w, n, c)
    {
      if t :| Asks(v, t, n, c) {
        assert Asks(w, t, n, c);
      }
    }
  }

  lemma ReleaseOnlyRemoves(s: Store, k: Slot)
    ensures forall j :: j in Release(s, k).slots ==> Get(s.slots, j) == Some(Release(s, k).slots[j])
  {
    if s.Counted() {
      assert Releases(s, k, Release(s, k));
    }
  }

  lemma DroppingKeepsOwn(w: World, k: Slot)
    requires OwnInv(w)
    ensures OwnInv(Dropped(w, k))
  {
    hide OwnInv, Release, Asked;
    ReleaseOnlyRemoves(w.store, k);
    SameAsked(w, Dropped(w, k));
    OwnStill(w, Dropped(w, k));
  }

  lemma CallbackKeepsOwn(w: World, p: Ptr, m: ClientsMessage)
    requires OwnInv(w) && p in w.store.counts
    ensures OwnInv(PutClients(SharedClient(w, p), m))
  {
    var v := PutClients(SharedClient(w, p), m);
    SameAsked(w, v);
    hide Asked;
    forall n: nat, c: nat | Asked(v, n, c)
      ensures Own(v.store.slots, n, c)
    {
      assert Asked(w, n, c) && Own(w.store.slots, n, c);
    }
  }

  lemma StartingKeepsOwn(w: World, p: Ptr)
    requires OwnInv(w) && HasCredentials(w, p)
    ensures OwnInv(AuthStarted(w, p))
  {
    var v := AuthStarted(w, p);
    var m := StartAuth(w.next, w.next + 1);
    assert v.serverQ == w.serverQ + [m];
    forall n: nat, c: nat | Asked(v, n, c)
      ensures Asked(w, n, c) || (n == w.next && c == w.next + 1)
    {
      if t :| Asks(v, t, n, c) {
        assert Asks(w, t, n, c);
      }
    }
    hide Asked;
    forall n: nat, c: nat | Asked(v, n, c)
      ensures n < v.next && c < v.next && Own(v.store.slots, n, c)
    {
      assert Asked(w, n, c) ==> n < w.next && c < w.next && Own(w.store.slots, n, c);
    }
  }

  /** What creating a client does to the slots of references and credentials. */
  lemma OpenedSlots(w: World, p: Ptr, c: Ptr, k: Slot)
    requires Reference(k) || k.Credentials?
    ensures Get(Opened(w, p, c).store.slots, k) ==
      if k == Message(w.next) then Some(p) else if k == Credentials(p) then Some(c) else Get(w.store.slots, k)
  {
  }

  lemma CreatingKeepsOwn(w: World, p: Ptr, c: Ptr)
    requires OwnInv(w) && w.store.Counted() && p !in w.store.counts && c !in w.store.counts
    ensures OwnInv(Opened(w, p, c))
  {
    var v := Opened(w, p, c);
    AllocatedTargets(w.store);
    CreatedNames(w, p, c);
    SameAsked(w, v);
    forall k | Reference(k) || k.Credentials?
      ensures Get(v.store.slots, k) ==
        if k == Message(w.next) then Some(p) else if k == Credentials(p) then Some(c) else Get(w.store.slots, k)
    {
      OpenedSlots(w, p, c, k);
    }
    hide Opened, Store.Counted, Asked;
    forall n: nat, d: nat | Asked(v, n, d)
      ensures n < v.next && d < v.next && Own(v.store.slots, n, d)
    {
      assert Asked(w, n, d) && Own(w.store.slots, n, d);
      assert Get(v.store.slots, Message(n)) == Get(w.store.slots, Message(n));
      assert Get(v.store.slots, Secret(d)) == Get(w.store.slots, Secret(d));
      assert Message(n) in w.store.slots ==> w.store.slots[Message(n)] != p;
    }
    forall q, r | Credentials(q) in v.store.slots && Credentials(r) in v.store.slots && q != r
      ensures v.store.slots[Credentials(q)] != v.store.slots[Credentials(r)]
    {
      assert Get(v.store.slots, Credentials(q)).Some? && Get(v.store.slots, Credentials(r)).Some?;
    }
  }

  lemma CreatedNames(w: World, p: Ptr, c: Ptr)
    ensures var v := Opened(w, p, c);
      v.next == w.next + 1 && v.serverQ == w.serverQ && v.authQ == w.authQ && v.transactions == w.transactions
  {
  }

  lemma AllocatedTargets(s: Store)
    requires s.Counted()
    ensures forall k :: k in s.slots ==> s.slots[k] in s.counts
  {
  }

  lemma AdvisingKeepsOwn(w: World, p: Ptr, advice: AuthStep)
    requires OwnInv(w) && p in w.clients
    ensures OwnInv(Advised(w, p, advice))
  {
    hide OwnInv, Asked, Release;
    ReleaseOnlyRemoves(w.store, Credentials(p));
    SameAsked(w, Advised(w, p, advice));
    OwnStill(w, Advised(w, p, advice));
  }

  lemma ProcessingKeepsOwn(w: World, p: Ptr, kind: EventKind)
    requires OwnInv(w) && p in w.clients && (StartsLogin(w.clients[p].state, kind) ==> HasCredentials(w, p))
    ensures OwnInv(Processed(w, p, kind))
  {
    hide OwnInv, AuthStarted;
    var v := WithClient(w, p, w.clients[p].(state := StateOnEvent(w.clients[p].state, kind)));
    SameAsked(w, v);
    OwnStill(w, v);
    if StartsLogin(w.clients[p].state, kind) {
      StartingKeepsOwn(v, p);
    }
  }

  lemma ClosingKeepsOwn(w: World, p: Ptr)
    requires OwnInv(w) && Linked(w.store.slots, w.listed) && p in w.listed
    ensures OwnInv(Closed(w, p))
  {
    hide OwnInv, Asked, Linked, Unlinked;
    forall k | Reference(k) || k.Credentials?
      ensures Get(Unlinked(w.store.slots, p), k) == Get(w.store.slots, k)
    {
      UnlinkedFrame(w.store.slots, w.listed, p, k);
    }
    SameAsked(w, Closed(w, p));
    OwnStill(w, Closed(w, p));
  }

  lemma SubmittingKeepsOwn(w: World, n: nat, c: nat, t: Tid)
    requires OwnInv(w) && w.serverQ != [] && w.serverQ[0] == StartAuth(n, c) && LiveClient(w, n) && t !in w.transactions
    requires Message(w.next) !in w.store.slots && forall m :: m in w.authQ ==> m.transaction in w.transactions
    ensures OwnInv(Submitted(TakenServer(w), n, c, t))
  {
    var v := Submitted(TakenServer(w), n, c, t);
    assert w.serverQ[0] in w.serverQ && Asked(w, n, c);
    forall m: nat, d: nat | Asked(v, m, d)
      ensures Asked(w, m, d) || (m == w.next && d == c)
    {
      if x :| Asks(v, x, m, d) {
        assert x != t ==> Asks(w, x, m, d);
        assert x == t ==> m == w.next && (d == c || ProcessCredentials(d, t) in w.authQ);
      }
    }
    hide Asked;
    forall m: nat, d: nat | Asked(v, m, d)
      ensures m < v.next && d < v.next && Own(v.store.slots, m, d)
    {
      assert Own(w.store.slots, n, c);
      assert Asked(w, m, d) ==> m < w.next && d < w.next && Own(w.store.slots, m, d);
    }
  }

  lemma QueuedExist(w: World)
    requires TransactionsInv(w)
    ensures forall m :: m in w.authQ ==> m.transaction in w.transactions
  {
    forall m | m in w.authQ
      ensures m.transaction in w.transactions
    {
      var i :| 0 <= i < |w.authQ| && w.authQ[i] == m;
      assert Unprocessed(w.transactions, w.authQ[i].transaction);
    }
  }

  lemma FinishingKeepsOwn(w: World, t: Tid)
    requires OwnInv(w) && w.serverQ != [] && t in w.transactions
    ensures OwnInv(Finished(TakenServer(w), t))
  {
    var v := Finished(TakenServer(w), t);
    forall n: nat, c: nat | Asked(v, n, c)
      ensures Asked(w, n, c)
    {
      if x :| Asks(v, x, n, c) {
        assert Asks(w, x, n, c);
      }
    }
    hide OwnInv, Asked;
    OwnStill(w, v);
  }

  lemma ResultKeepsOwn(w: World)
    requires OwnInv(w) && w.serverQ != [] && w.serverQ[0].AuthResult?
    ensures OwnInv(PutClients(TakenServer(w), AuthEvent(w.serverQ[0].step, w.serverQ[0].n)))
  {
    hide OwnInv, Asked;
    var v := PutClients(TakenServer(w), AuthEvent(w.serverQ[0].step, w.serverQ[0].n));
    SameAsked(w, v);
    OwnStill(w, v);
  }

  lemma DecidingKeepsOwn(w: World, result: AuthStep)
    requires OwnInv(w) && Proceeds(w, AuthHandle(result)) && Safe(w, AuthHandle(result))
    ensures OwnInv(Decided(w, result))
  {
    hide Release;
    var v := Decided(w, result);
    ReleaseOnlyRemoves(w.store, Message(w.transactions[w.authQ[0].transaction].consumer.value));
    forall n: nat, c: nat | Asked(v, n, c)
      ensures Asked(w, n, c)
    {
      if x :| Asks(v, x, n, c) {
        assert Asks(w, x, n, c);
      }
    }
    hide OwnInv, Asked;
    OwnStill(w, v);
  }

  // ---------------------------------------------------------------- every step

  lemma ClientsKeepOwn(w: World, step: Step)
    requires ReferencesInv(w) && OwnInv(w) && step.ClientsHandle? && Proceeds(w, step) && Safe(w, step)
    ensures OwnInv(Handled(w, step))
  {
    hide ReferencesInv, OwnInv, Store.Counted, Linked, Opened, AuthStarted, Advised, Processed, Closed;
    NextIsFree(w);
    var taken := TakenClients(w);
    SameAsked(w, taken);
    OwnStill(w, taken);
    match w.clientsQ[0]
    case OpenClient =>
      OpenedHasCredentials(taken, step.newClient, step.newCredentials);
      CreatingKeepsOwn(taken, step.newClient, step.newCredentials);
      StartingKeepsOwn(Opened(taken, step.newClient, step.newCredentials), step.newClient);
    case AuthEvent(advice, n) => AdvisingKeepsOwn(taken, w.Of(n), advice);
    case IncomingEvent(kind, n) => ProcessingKeepsOwn(taken, w.Of(n), kind);
    case ConnectionClosed(n) => ClosingKeepsOwn(taken, w.Of(n));
  }

  lemma ServerKeepsOwn(w: World, t: Tid)
    requires ReferencesInv(w) && TransactionsInv(w) && OwnInv(w) && Proceeds(w, ServerHandle(t)) && Safe(w, ServerHandle(t))
    ensures OwnInv(Handled(w, ServerHandle(t)))
  {
    hide ReferencesInv, TransactionsInv, OwnInv, Submitted, Finished;
    NextIsFree(w);
    QueuedExist(w);
    match w.serverQ[0]
    case StartAuth(n, c) => SubmittingKeepsOwn(w, n, c, t);
    case FinishAuth(x) => FinishingKeepsOwn(w, x.value);
    case AuthResult(_, _) => ResultKeepsOwn(w);
  }

  lemma AcceptingKeepsOwn(w: World)
    requires OwnInv(w)
    ensures OwnInv(w.(clientsQ := w.clientsQ + [OpenClient]))
  {
    hide OwnInv, Asked;
    SameAsked(w, w.(clientsQ := w.clientsQ + [OpenClient]));
    OwnStill(w, w.(clientsQ := w.clientsQ + [OpenClient]));
  }

  lemma ReadingKeepsOwn(w: World)
    requires OwnInv(w)
    ensures OwnInv(w.(reading := true))
  {
    hide OwnInv, Asked;
    SameAsked(w, w.(reading := true));
    OwnStill(w, w.(reading := true));
  }

  lemma StepKeepsOwn(w: World, step: Step)
    requires Reachable(w) && OwnInv(w) && Proceeds(w, step) && Safe(w, step)
    ensures OwnInv(After(w, step))
  {
    hide Reachable, ReferencesInv, TransactionsInv, PinnedInv, OwnInv, Decided, Dropped;
    ReachableInv(w);
    match step {
      case AcceptConnection => AcceptingKeepsOwn(w);
      case ConnectionDelivers(p, kind) => CallbackKeepsOwn(w, p, IncomingEvent(kind, w.next));
      case ConnectionCloses(p) => CallbackKeepsOwn(w, p, ConnectionClosed(w.next));
      case ClientsHandle(_, _) => ClientsKeepOwn(w, step);
      case ServerHandle(t) => ServerKeepsOwn(w, t);
      case AuthReads => ReadingKeepsOwn(w);
      case AuthHandle(result) => DecidingKeepsOwn(w, result);
    }
    hide Handled;
    if GivenUp(w, step).Some? {
      DroppingKeepsOwn(Handled(w, step), GivenUp(w, step).value);
    }
  }

  lemma {:induction false} RunKeepsOwn(w: World, steps: seq<Step>, v: World)
    requires Reachable(w) && OwnInv(w) && Run(w, steps, v)
    ensures OwnInv(v)
    decreases |steps|
  {
    hide Reachable, OwnInv;
    if steps != [] {
      StepKeepsOwn(w, steps[0]);
      NoUseAfterFree(w, steps[0]);
      RunKeepsOwn(After(w, steps[0]), steps[1..], v);
    }
  }

  lemma OwnOfReachable(w: World)
    requires Reachable(w)
    ensures OwnInv(w)
  {
    assert Run(Initial(), [], Initial());
    var steps :| Run(Initial(), steps, w);
    RunKeepsOwn(Initial(), steps, w);
  }

  // ---------------------------------------------------------------- the theorem

  lemma OwnOfHead(w: World, t: Tid, n: nat, c: nat)
    requires OwnInv(w) && w.authQ != [] && w.authQ[0] == ProcessCredentials(c, t)
    requires t in w.transactions && w.transactions[t].consumer == Some(n)
    ensures Own(w.store.slots, n, c) && Apart(w.store.slots)
  {
    assert w.authQ[0] in w.authQ;
    assert Asks(w, t, n, c);
    assert Asked(w, n, c);
  }

  /** In every reachable state, what the worker decides on next is the record of the client that the verdict
      goes to, if that has not been admitted since and so has one, and is no other client's. */
  lemma DecidesOnOwn(w: World)
    requires Reachable(w) && w.authQ != []
    ensures var t, c := w.authQ[0].transaction, w.authQ[0].c;
      && t in w.transactions && w.transactions[t].consumer.Some? && LiveClient(w, w.transactions[t].consumer.value)
      && LiveSecret(w, c)
      && forall q :: Get(w.store.slots, Credentials(q)) == Some(w.store.slots[Secret(c)]) <==>
           q == w.Of(w.transactions[t].consumer.value) && q !in w.admitted
  {
    hide Reachable, ReferencesInv, TransactionsInv, PinnedInv, CredentialsInv, OwnInv;
    ReachableInv(w);
    AuthHeadOf(w);
    CredentialsOfReachable(w);
    var t, c := w.authQ[0].transaction, w.authQ[0].c;
    var n := w.transactions[t].consumer.value;
    CredentialsOf(w, w.Of(n));
    OwnOfReachable(w);
    OwnOfHead(w, t, n, c);
  }

  lemma AuthHeadOf(w: World)
    requires Inv(w) && w.authQ != []
    ensures var t := w.authQ[0].transaction;
      && Unprocessed(w.transactions, t) && LiveClient(w, w.transactions[t].consumer.value) && LiveSecret(w, w.authQ[0].c)
  {
    hide ReferencesInv, QueueInv, FinishInv, OwnerInv, PinnedInv;
    AuthHeadLive(w);
  }
}
