/** One remote client's login, end to end: the client, its connection both ways, the client module, the
    server module and the auth module, with other clients using the same users table. Everything here is
    about a connection that delivers whatever is queued, in order; the connection as written does not, and
    `LoginStall` is what becomes of the login over it. The client does not leave before it has joined, and
    SQL does not fail. */
module Login {
  import opened ChatEvent
  import opened ClientList
  import opened ServerWorld
  import opened ChatAuth
  import opened ChatClient
  import opened ClientSession

  datatype ToClients = Connecting | Verdicts(verdict: Verdict) | From(event: FromClient)

  datatype ToServer = Start | Finish(t: Option<Tid>) | Report(verdict: Verdict)

  datatype Login = Login(
    app: App,
    session: Session,
    up: seq<FromClient>,
    clientsQ: seq<ToClients>,
    serverQ: seq<ToServer>,
    authQ: seq<Tid>,
    transactions: map<Tid, TransactionState>,
    users: seq<Row>,
    down: seq<FromServer>,
    typedName: Option<Text>,        // what the user entered last at each prompt
    typedPassword: Option<Text>)

  datatype Step =
    | UserTypes(text: Text)
    | AppReceives
    | Delivery
    | ClientsTurn
    | ServerTurn(newTransaction: Tid)
    | AuthTurn
    | OthersLogIn(credentials: Credentials)
    | OthersTalk

  /** Input is cut off at 1023 bytes before it is queued, so that its terminator fits. */
  predicate Typeable(text: Text) { 0 !in text && |text| < MAX_DATA_SIZE }

  predicate Enabled(w: Login, step: Step) {
    match step
    case UserTypes(text) => Typeable(text)
    case AppReceives => w.down != []
    case Delivery => w.up != []
    case ClientsTurn => w.clientsQ != []
    case ServerTurn(t) => w.serverQ != [] && (w.serverQ[0].Start? ==> t !in w.transactions)
    case AuthTurn => w.authQ != []
    case OthersLogIn(_) => true
    case OthersTalk => w.session.state == Active
  }

  /** No step reads released credentials, finishes a null transaction, or touches a freed one. */
  predicate Safe(w: Login, step: Step)
    requires Enabled(w, step)
  {
    match step
    case ClientsTurn =>
      w.clientsQ[0].From? && (w.clientsQ[0].event.Username? || w.clientsQ[0].event.Password?) ==> !w.session.released
    case ServerTurn(_) => w.serverQ[0].Finish? ==> w.serverQ[0].t.Some? && w.serverQ[0].t.value in w.transactions
    case AuthTurn => w.authQ[0] in w.transactions
    case _ => true
  }

  function Typed(w: Login, text: Text): Login {
    var r := React(w.app, UserInput(text));
    w.(app := r.app, up := w.up + r.sent,
       typedName := if w.app.state == UsernameEntry then Some(text) else w.typedName,
       typedPassword := if w.app.state == PasswordEntry then Some(text) else w.typedPassword)
  }

  function Received(w: Login): Login
    requires w.down != []
  {
    var r := React(w.app, Incoming(w.down[0]));
    w.(app := r.app, down := w.down[1..], up := w.up + r.sent)
  }

  function ClientsHandled(w: Login): Login
    requires w.clientsQ != []
  {
    var taken := w.(clientsQ := w.clientsQ[1..]);
    match w.clientsQ[0]
    case Connecting => taken.(session := w.session.(state := AuthInit), serverQ := w.serverQ + [Start])
    case Verdicts(verdict) =>
      taken.(session := OnVerdict(w.session, verdict), down := w.down + [Answer(verdict.step)],
             serverQ := w.serverQ + [Finish(w.session.transaction)])
    case From(event) =>
      var r := OnEventFrom(w.session, event);
      taken.(session := r.session, down := w.down + r.replies, serverQ := w.serverQ + if r.starts then [Start] else [])
  }

  function ServerHandled(w: Login, t: Tid): Login
    requires Enabled(w, ServerTurn(t)) && Safe(w, ServerTurn(t))
  {
    var taken := w.(serverQ := w.serverQ[1..]);
    match w.serverQ[0]
    case Start =>
      taken.(transactions := w.transactions[t := Processing], session := w.session.(transaction := Some(t)), authQ := w.authQ + [t])
    case Finish(x) =>
      (match w.transactions[x.value]
       case Processing => taken.(transactions := w.transactions[x.value := Cancelled])
       case Cancelled => taken
       case Done => taken.(transactions := w.transactions - {x.value}))
    case Report(verdict) => taken.(clientsQ := w.clientsQ + [Verdicts(verdict)])
  }

  function Judged(users: seq<Row>, credentials: Credentials): Verdict {
    Verdict(StepFor(users, credentials), if credentials.username.Some? then credentials.username.value else [])
  }

  function AuthHandled(w: Login): Login
    requires w.authQ != [] && w.authQ[0] in w.transactions
  {
    var t, taken := w.authQ[0], w.(authQ := w.authQ[1..]);
    if w.transactions[t] == Cancelled then taken.(transactions := w.transactions - {t})
    else
      taken.(transactions := w.transactions[t := Done], users := UsersAfter(w.users, w.session.credentials),
             serverQ := w.serverQ + [Report(Judged(w.users, w.session.credentials))])
  }

  function Next(w: Login, step: Step): Login
    requires Enabled(w, step) && Safe(w, step)
  {
    match step
    case UserTypes(text) => Typed(w, text)
    case AppReceives => Received(w)
    case Delivery => w.(up := w.up[1..], clientsQ := w.clientsQ + [From(w.up[0])])
    case ClientsTurn => ClientsHandled(w)
    case ServerTurn(t) => ServerHandled(w, t)
    case AuthTurn => AuthHandled(w)
    case OthersLogIn(credentials) => w.(users := UsersAfter(w.users, credentials))
    case OthersTalk => w.(down := w.down + [Notice])
  }

  /** A client has connected; the table is whatever it has become. */
  predicate Initial(w: Login) {
    && w.app == App(Connected, [])
    && w.session == Session(Fresh, None, Credentials(None, None), false, [])
    && w.up == [] && w.clientsQ == [Connecting] && w.serverQ == [] && w.authQ == [] && w.transactions == map[] && w.down == []
    && w.typedName == None && w.typedPassword == None
  }

  ghost predicate Run(w: Login, steps: seq<Step>, v: Login)
    decreases |steps|
  {
    if steps == [] then w == v
    else Enabled(w, steps[0]) && Safe(w, steps[0]) && Run(Next(w, steps[0]), steps[1..], v)
  }

  ghost predicate Reachable(w: Login) { exists start, steps :: Initial(start) && Run(start, steps, w) }

  // ---------------------------------------------------------------- the handshake's one token

  /** What is part of the handshake in each queue. */
  function UpTokens(q: seq<FromClient>): nat {
    if q == [] then 0 else (if q[0].Chat? then 0 else 1) + UpTokens(q[1..])
  }

  function ClientsTokens(q: seq<ToClients>): nat {
    if q == [] then 0 else (if q[0].From? && q[0].event.Chat? then 0 else 1) + ClientsTokens(q[1..])
  }

  function ServerTokens(q: seq<ToServer>): nat {
    if q == [] then 0 else (if q[0].Finish? then 0 else 1) + ServerTokens(q[1..])
  }

  function Prompts(q: seq<FromServer>): seq<FromServer> {
    if q == [] then [] else (if q[0].Notice? then [] else [q[0]]) + Prompts(q[1..])
  }

  predicate Entering(app: App) { app.state.UsernameEntry? || app.state.PasswordEntry? }

  /** A prompt counts while it is in the user's hands, too. */
  function Tokens(w: Login): nat {
    UpTokens(w.up) + ClientsTokens(w.clientsQ) + ServerTokens(w.serverQ) + |w.authQ| + |Prompts(w.down)|
    + if Entering(w.app) then 1 else 0
  }

  lemma {:induction false} PromptsAppend(q: seq<FromServer>, event: FromServer)
    ensures Prompts(q + [event]) == Prompts(q) + if event.Notice? then [] else [event]
  {
    if q == [] {
      assert q + [event] == [event];
    } else {
      assert (q + [event])[1..] == q[1..] + [event];
      PromptsAppend(q[1..], event);
    }
  }

  lemma PromptsHead(q: seq<FromServer>)
    requires q != []
    ensures if q[0].Notice? then Prompts(q[1..]) == Prompts(q)
            else Prompts(q) != [] && Prompts(q)[0] == q[0] && Prompts(q[1..]) == Prompts(q)[1..]
  {
  }

  lemma {:induction false} OnlyChat(up: seq<FromClient>, clientsQ: seq<ToClients>)
    requires forall e :: e in up ==> e.Chat?
    requires forall m :: m in clientsQ ==> m.From? && m.event.Chat?
    ensures UpTokens(up) == 0 && ClientsTokens(clientsQ) == 0
    decreases |up| + |clientsQ|
  {
    if up != [] {
      assert up[0] in up;
      OnlyChat(up[1..], clientsQ);
    } else if clientsQ != [] {
      assert clientsQ[0] in clientsQ;
      OnlyChat(up, clientsQ[1..]);
    }
  }

  // ---------------------------------------------------------------- where the token can be

  datatype Phase =
    | Opening | Starting | Deciding(t: Tid) | Reporting(t: Tid, verdict: Verdict) | Advising(t: Tid, verdict: Verdict)
    | Prompting | InHand | Submitting | Arriving | Welcoming | Asking | AskArriving | Naming | Settled

  /** No transaction is under way; the last one is gone, or done and about to be finished. */
  predicate Idle(w: Login, rest: seq<ToServer>) {
    && w.session.transaction == None && w.authQ == []
    && if w.transactions == map[] then w.serverQ == rest
       else
         && w.serverQ != [] && w.serverQ[0].Finish? && w.serverQ[0].t.Some?
         && w.transactions == map[w.serverQ[0].t.value := Done] && w.serverQ[1..] == rest
  }

  predicate Busy(w: Login, t: Tid, state: TransactionState) {
    w.session.transaction == Some(t) && w.transactions == map[t := state]
  }

  predicate Quiet(w: Login) { w.up == [] && w.clientsQ == [] && w.down == [] }

  /** The name the user entered has been accepted as one. */
  predicate Named(w: Login) {
    w.typedName.Some? && NameFits(w.typedName.value) && w.session.credentials.username == w.typedName
  }

  /** The server has what the user entered, and both sides agree on what is being verified. */
  predicate Verifying(w: Login) {
    && !w.session.released
    && match w.session.state
       case AuthInit => w.app.state == Connected && w.session.credentials == Credentials(None, None)
       case AuthProcessing =>
         && w.app.state == UsernameVerifying && w.typedName.Some?
         && w.session.credentials == Credentials(w.typedName, None)
       case AuthPassword =>
         && w.app.state == PasswordVerifying && Named(w) && w.typedPassword.Some?
         && w.session.credentials.password == w.typedPassword
       case _ => false
  }

  /** What the verdict can be, given what is being verified. */
  predicate Fitting(w: Login, verdict: Verdict) {
    match w.session.state
    case AuthInit => verdict.step == UsernameRequired
    case AuthProcessing =>
      verdict.step == UsernameRejected || (verdict.step in {PasswordCreation, PasswordRequired} && Named(w))
    case AuthPassword => verdict.step == PasswordRejected || (verdict.step == Authenticated && Proven(w, verdict.name))
    case _ => false
  }

  /** The name is the one the user entered, and its stored password is what the user entered. */
  predicate Proven(w: Login, name: Text) {
    && w.typedName == Some(name) && NameFits(name)
    && w.typedPassword.Some? && Stored(w.users, name) == w.typedPassword
  }

  /** The user is to enter, or has entered, a name or a password, as the server expects. */
  predicate Expecting(w: Login, names: set<AppState>, passwords: set<AppState>) {
    && !w.session.released
    && ((w.session.state == AuthUsername && w.app.state in names && w.session.credentials.password == None)
        || (w.session.state == AuthPassword && w.app.state in passwords && Named(w)))
  }

  predicate Submission(w: Login, event: FromClient) {
    && !w.session.released
    && ((w.session.state == AuthUsername && w.app.state == UsernameVerifying && w.session.credentials.password == None
         && w.typedName.Some? && event == Username(w.typedName.value))
        || (w.session.state == AuthPassword && w.app.state == PasswordVerifying && Named(w)
            && w.typedPassword.Some? && event == Password(w.typedPassword.value)))
  }

  predicate LoggedInAs(w: Login, state: AppState) {
    w.session.state == Active && w.app.state == state && Proven(w, w.session.name)
  }

  predicate At(w: Login, phase: Phase) {
    match phase
    case Opening =>
      && w.app.state == Connected && w.session == Session(Fresh, None, Credentials(None, None), false, [])
      && w.up == [] && w.clientsQ == [Connecting] && w.down == [] && w.serverQ == [] && w.authQ == [] && w.transactions == map[]
    case Starting => Quiet(w) && Verifying(w) && Idle(w, [Start])
    case Deciding(t) => Quiet(w) && Verifying(w) && Busy(w, t, Processing) && w.authQ == [t] && w.serverQ == []
    case Reporting(t, verdict) =>
      && Quiet(w) && Verifying(w) && Fitting(w, verdict) && Busy(w, t, Done) && w.authQ == [] && w.serverQ == [Report(verdict)]
    case Advising(t, verdict) =>
      && w.up == [] && w.clientsQ == [Verdicts(verdict)] && w.down == [] && w.authQ == [] && w.serverQ == []
      && Verifying(w) && Fitting(w, verdict) && Busy(w, t, Done)
    case Prompting =>
      && w.up == [] && w.clientsQ == [] && Idle(w, [])
      && Expecting(w, {Connected, UsernameVerifying}, {UsernameVerifying, PasswordVerifying})
      && w.down == [if w.session.state == AuthUsername then AskUsername else AskPassword]
    case InHand => Quiet(w) && Idle(w, []) && Expecting(w, {UsernameEntry}, {PasswordEntry})
    case Submitting => w.clientsQ == [] && w.down == [] && Idle(w, []) && |w.up| == 1 && Submission(w, w.up[0])
    case Arriving =>
      w.up == [] && w.down == [] && Idle(w, []) && |w.clientsQ| == 1 && w.clientsQ[0].From? && Submission(w, w.clientsQ[0].event)
    case Welcoming =>
      w.up == [] && w.clientsQ == [] && Idle(w, []) && LoggedInAs(w, PasswordVerifying) && Prompts(w.down) == [Welcome]
    case Asking => w.up == [AskName] && w.clientsQ == [] && Idle(w, []) && LoggedInAs(w, LoggedIn) && Prompts(w.down) == []
    case AskArriving =>
      w.up == [] && w.clientsQ == [From(AskName)] && Idle(w, []) && LoggedInAs(w, LoggedIn) && Prompts(w.down) == []
    case Naming =>
      w.up == [] && w.clientsQ == [] && Idle(w, []) && LoggedInAs(w, LoggedIn) && Prompts(w.down) == [Name(w.session.name)]
    case Settled =>
      && (forall e :: e in w.up ==> e.Chat?) && (forall m :: m in w.clientsQ ==> m.From? && m.event.Chat?)
      && Idle(w, []) && LoggedInAs(w, Joined) && Prompts(w.down) == [] && w.app.name == w.session.name
  }

  // ---------------------------------------------------------------- each step keeps the token in place, or moves it on

  lemma UserStep(w: Login, phase: Phase, text: Text) returns (next: Phase)
    requires At(w, phase) && Typeable(text)
    ensures At(Typed(w, text), next)
  {
    next := if phase.InHand? then Submitting else phase;
  }

  lemma AppStep(w: Login, phase: Phase) returns (next: Phase)
    requires At(w, phase) && w.down != []
    ensures At(Received(w), next)
    ensures !w.down[0].Notice? ==> Accepts(w.app.state, w.down[0])
  {
    hide Prompts;
    PromptsHead(w.down);
    next := if phase.Prompting? then InHand
            else if w.down[0].Notice? then phase
            else if phase.Welcoming? then Asking
            else Settled;
    assert NameFits(w.session.name) ==> Kept(w.session.name) == w.session.name;
  }

  lemma DeliveryStep(w: Login, phase: Phase) returns (next: Phase)
    requires At(w, phase) && w.up != []
    ensures At(Next(w, Delivery), next)
  {
    next := if phase.Submitting? then Arriving else if phase.Asking? then AskArriving else Settled;
  }

  lemma ClientsStep(w: Login, phase: Phase) returns (next: Phase)
    requires At(w, phase) && w.clientsQ != []
    ensures Safe(w, ClientsTurn) && At(ClientsHandled(w), next)
  {
    match phase
    case Opening => next := Starting;
    case Arriving => next := Starting;
    case AskArriving =>
      next := Naming;
      PromptsAppend(w.down, Name(w.session.name));
    case Settled =>
      next := Settled;
      assert w.clientsQ[0] in w.clientsQ && w.down + [] == w.down;
    case Advising(_, verdict) => next := AdviceStep(w, phase);
  }

  lemma AdviceStep(w: Login, phase: Phase) returns (next: Phase)
    requires At(w, phase) && phase.Advising?
    ensures At(ClientsHandled(w), next)
  {
    next := if phase.verdict.step == Authenticated then Welcoming else Prompting;
    var v := ClientsHandled(w);
    assert phase.t in v.transactions && v.serverQ == [Finish(Some(phase.t))];
    assert NameFits(phase.verdict.name) ==> Kept(phase.verdict.name) == phase.verdict.name;
  }

  lemma ServerStep(w: Login, phase: Phase, t: Tid) returns (next: Phase)
    requires At(w, phase) && Enabled(w, ServerTurn(t))
    ensures Safe(w, ServerTurn(t)) && At(ServerHandled(w, t), next)
  {
    if phase.Reporting? {
      next := Advising(phase.t, phase.verdict);
    } else if w.serverQ[0].Start? {
      next := Deciding(t);
    } else {
      next := phase;
      assert w.transactions - {w.serverQ[0].t.value} == map[];
    }
  }

  lemma AuthWorkerStep(w: Login, phase: Phase) returns (next: Phase)
    requires At(w, phase) && w.authQ != []
    ensures Safe(w, AuthTurn) && At(AuthHandled(w), next)
  {
    next := Reporting(phase.t, Judged(w.users, w.session.credentials));
    AuthenticatedKnows(w.users, w.session.credentials);
  }

  lemma OthersStep(w: Login, phase: Phase, step: Step)
    requires At(w, phase) && Enabled(w, step) && (step.OthersLogIn? || step.OthersTalk?)
    ensures At(Next(w, step), phase)
  {
    if step.OthersLogIn? {
      AuthenticatedKnows(w.users, step.credentials);
    } else {
      PromptsAppend(w.down, Notice);
    }
  }

  lemma StepKeepsPhase(w: Login, phase: Phase, step: Step) returns (next: Phase)
    requires At(w, phase) && Enabled(w, step)
    ensures Safe(w, step) && At(Next(w, step), next)
  {
    match step
    case UserTypes(text) => next := UserStep(w, phase, text);
    case AppReceives => next := AppStep(w, phase);
    case Delivery => next := DeliveryStep(w, phase);
    case ClientsTurn => next := ClientsStep(w, phase);
    case ServerTurn(t) => next := ServerStep(w, phase, t);
    case AuthTurn => next := AuthWorkerStep(w, phase);
    case _ =>
      OthersStep(w, phase, step);
      next := phase;
  }

  lemma {:induction false} RunKeepsPhase(w: Login, phase: Phase, steps: seq<Step>, v: Login) returns (next: Phase)
    requires At(w, phase) && Run(w, steps, v)
    ensures At(v, next)
    decreases |steps|
  {
    hide At;
    next := phase;
    if steps != [] {
      next := StepKeepsPhase(w, phase, steps[0]);
      next := RunKeepsPhase(Next(w, steps[0]), next, steps[1..], v);
    }
  }

  lemma PhaseOf(w: Login) returns (phase: Phase)
    requires Reachable(w)
    ensures At(w, phase)
  {
    var start, steps :| Initial(start) && Run(start, steps, w);
    phase := RunKeepsPhase(start, Opening, steps, w);
  }

  // ---------------------------------------------------------------- lockstep

  /** Exactly one handshake token, from connecting until the client has joined, and none after. */
  lemma OneToken(w: Login)
    requires Reachable(w)
    ensures Tokens(w) == if w.app.state == Joined then 0 else 1
  {
    var phase := PhaseOf(w);
    TokensAt(w, phase);
  }

  lemma TokensAt(w: Login, phase: Phase)
    requires At(w, phase)
    ensures Tokens(w) == if w.app.state == Joined then 0 else 1
  {
    if phase.Settled? {
      OnlyChat(w.up, w.clientsQ);
    }
    SingleUp(w.up);
    SingleInClients(w.clientsQ);
    FewInServer(w.serverQ);
    SinglePrompt(w.down);
    assert Idle(w, []) ==> ServerTokens(w.serverQ) == 0;
    assert Idle(w, [Start]) ==> ServerTokens(w.serverQ) == 1;
  }

  lemma SingleUp(up: seq<FromClient>)
    ensures |up| == 1 ==> UpTokens(up) == if up[0].Chat? then 0 else 1
  {
  }

  lemma SingleInClients(q: seq<ToClients>)
    ensures |q| == 1 ==> ClientsTokens(q) == if q[0].From? && q[0].event.Chat? then 0 else 1
  {
  }

  lemma FewInServer(q: seq<ToServer>)
    ensures |q| == 1 ==> ServerTokens(q) == if q[0].Finish? then 0 else 1
    ensures |q| == 2 ==> ServerTokens(q) == (if q[0].Finish? then 0 else 1) + if q[1].Finish? then 0 else 1
  {
  }

  lemma SinglePrompt(down: seq<FromServer>)
    ensures |down| == 1 ==> Prompts(down) == if down[0].Notice? then [] else down
  {
  }

  /** At most one auth transaction exists for the client at any time, queued at most once; the finish
      message for it never carries a null address, and comes when it is done. */
  lemma OneTransaction(w: Login)
    requires Reachable(w)
    ensures |w.transactions| <= 1 && |w.authQ| <= 1
    ensures forall t :: t in w.authQ ==> w.transactions == map[t := Processing] && w.session.transaction == Some(t)
    ensures forall m :: m in w.serverQ && m.Finish? ==>
      m.t.Some? && w.transactions == map[m.t.value := Done] && w.session.transaction == None
  {
    var _ := PhaseOf(w);
  }

  /** The client takes up every prompt it is sent: none finds it in a state that ignores it. */
  lemma NoPromptIgnored(w: Login)
    requires Reachable(w) && w.down != []
    ensures w.down[0].Notice? || (Accepts(w.app.state, w.down[0]) && Received(w).app.state != w.app.state)
  {
    var phase := PhaseOf(w);
    var _ := AppStep(w, phase);
  }

  /** The server takes up every submission: the branches that answer that it cannot process one now, or
      that the user is logged in already, are never taken. */
  lemma NoSubmissionRefused(w: Login)
    requires Reachable(w) && w.clientsQ != [] && w.clientsQ[0].From?
    ensures w.clientsQ[0].event.Username? ==> StartsLogin(w.session.state, UsernameSubmit)
    ensures w.clientsQ[0].event.Password? ==> StartsLogin(w.session.state, PasswordSubmit)
    ensures ServerError !in OnEventFrom(w.session, w.clientsQ[0].event).replies
    ensures UsernameRefused !in OnEventFrom(w.session, w.clientsQ[0].event).replies
  {
    var _ := PhaseOf(w);
  }

  /** Whoever waits for its answers submits a name alone: no earlier password is left with it. */
  lemma NameComesAlone(w: Login)
    requires Reachable(w) && w.clientsQ != [] && w.clientsQ[0].From? && w.clientsQ[0].event.Username?
    ensures ClientsHandled(w).session.credentials == Credentials(Some(w.clientsQ[0].event.text), None)
  {
    var phase := PhaseOf(w);
  }

  /** A new name goes to whoever is decided on first: if another client registers it while this one's
      password is being verified, this one is rejected, unless both chose the same password. */
  lemma NameGoesToTheFirst(w: Login, other: Text)
    requires Reachable(w) && w.authQ != [] && w.session.credentials.username.Some? && w.session.credentials.password.Some?
    requires !Known(w.users, w.session.credentials.username.value)
    ensures var name, raced := w.session.credentials.username.value,
                               Next(w, OthersLogIn(Credentials(w.session.credentials.username, Some(other))));
      && Safe(w, AuthTurn) && Safe(raced, AuthTurn)
      && Next(w, AuthTurn).serverQ == [Report(Verdict(Authenticated, name))]
      && Next(w, AuthTurn).users == w.users + [Row(name, w.session.credentials.password.value)]
      && Next(raced, AuthTurn).serverQ
         == [Report(Verdict(if other == w.session.credentials.password.value then Authenticated else PasswordRejected, name))]
      && Next(raced, AuthTurn).users == w.users + [Row(name, other)]
  {
    var phase := PhaseOf(w);
    var name, mine := w.session.credentials.username.value, w.session.credentials.password.value;
    SecondIsJudged(w.users, name, mine, mine);
    SecondIsJudged(w.users, name, other, mine);
  }

  /** While credentials are out for verification nothing can write to them or let go of them: no
      submission is on its way to the server, and no verdict. */
  lemma CredentialsUndisturbed(w: Login)
    requires Reachable(w) && (w.authQ != [] || Start in w.serverQ)
    ensures w.up == [] && w.clientsQ == [] && w.down == [] && !Entering(w.app) && !w.session.released
  {
    var _ := PhaseOf(w);
  }

  /** No run is cut short. */
  lemma NoFault(w: Login, step: Step)
    requires Reachable(w) && Enabled(w, step)
    ensures Safe(w, step)
  {
    var phase := PhaseOf(w);
    var _ := StepKeepsPhase(w, phase, step);
  }

  // ---------------------------------------------------------------- identity

  /** A client that has joined goes by the name the server knows it by, which is the name its user entered
      last; and the password stored for that name is the one its user entered last. */
  lemma IdentityAgrees(w: Login)
    requires Reachable(w) && w.app.state == Joined
    ensures w.session.state == Active && w.app.name == w.session.name
    ensures w.typedName == Some(w.app.name) && w.typedPassword.Some?
    ensures Stored(w.users, w.app.name) == w.typedPassword
  {
    var _ := PhaseOf(w);
  }

  /** The same holds as soon as the server takes the client for logged in. */
  lemma ServerKnowsWhom(w: Login)
    requires Reachable(w) && w.session.state == Active
    ensures w.typedName == Some(w.session.name) && Stored(w.users, w.session.name) == w.typedPassword != None
  {
    var _ := PhaseOf(w);
  }

  /** Every run leaves the table sound, whoever logs in meanwhile. */
  lemma {:induction false} RunKeepsTable(w: Login, steps: seq<Step>, v: Login)
    requires Run(w, steps, v)
    ensures w.users <= v.users
    ensures OneRowEach(w.users) ==> OneRowEach(v.users)
    ensures forall username :: Stored(w.users, username).Some? ==> Stored(v.users, username) == Stored(w.users, username)
    decreases |steps|
  {
    if steps != [] {
      AuthenticatedKnows(w.users, w.session.credentials);
      if steps[0].OthersLogIn? {
        AuthenticatedKnows(w.users, steps[0].credentials);
      }
      RunKeepsTable(Next(w, steps[0]), steps[1..], v);
    }
  }

  // ---------------------------------------------------------------- progress

  predicate Internal(step: Step) {
    step.AppReceives? || step.Delivery? || step.ClientsTurn? || step.ServerTurn? || step.AuthTurn?
  }

  function UpWork(q: seq<FromClient>): nat {
    if q == [] then 0
    else (match q[0] case Username(_) => 11 case Password(_) => 11 case AskName => 3 case _ => 2) + UpWork(q[1..])
  }

  function ClientsWork(q: seq<ToClients>): nat {
    if q == [] then 0
    else
      (match q[0]
       case Connecting => 10
       case Verdicts(_) => 6
       case From(Username(_)) => 10
       case From(Password(_)) => 10
       case From(AskName) => 2
       case From(_) => 1) + ClientsWork(q[1..])
  }

  function ServerWork(q: seq<ToServer>): nat {
    if q == [] then 0 else (match q[0] case Start => 9 case Finish(_) => 1 case Report(_) => 7) + ServerWork(q[1..])
  }

  function DownWork(q: seq<FromServer>): nat {
    if q == [] then 0 else (if q[0].Welcome? then 4 else 1) + DownWork(q[1..])
  }

  /** How many more messages there are to handle, at most, before the user is needed. */
  function Work(w: Login): nat {
    UpWork(w.up) + ClientsWork(w.clientsQ) + ServerWork(w.serverQ) + 8 * |w.authQ| + DownWork(w.down)
  }

  lemma {:induction false} UpWorkAppend(q: seq<FromClient>, more: seq<FromClient>)
    ensures UpWork(q + more) == UpWork(q) + UpWork(more)
  {
    if q == [] {
      assert q + more == more;
    } else {
      assert (q + more)[1..] == q[1..] + more;
      UpWorkAppend(q[1..], more);
    }
  }

  lemma {:induction false} ClientsWorkAppend(q: seq<ToClients>, m: ToClients)
    ensures ClientsWork(q + [m]) == ClientsWork(q) + ClientsWork([m])
  {
    if q == [] {
      assert q + [m] == [m];
    } else {
      assert (q + [m])[1..] == q[1..] + [m];
      ClientsWorkAppend(q[1..], m);
    }
  }

  lemma {:induction false} ServerWorkAppend(q: seq<ToServer>, more: seq<ToServer>)
    ensures ServerWork(q + more) == ServerWork(q) + ServerWork(more)
  {
    if q == [] {
      assert q + more == more;
    } else {
      assert (q + more)[1..] == q[1..] + more;
      ServerWorkAppend(q[1..], more);
    }
  }

  lemma {:induction false} DownWorkAppend(q: seq<FromServer>, more: seq<FromServer>)
    ensures DownWork(q + more) == DownWork(q) + DownWork(more)
  {
    if q == [] {
      assert q + more == more;
    } else {
      assert (q + more)[1..] == q[1..] + more;
      DownWorkAppend(q[1..], more);
    }
  }

  /** Handling any message, in any state, leaves strictly less to handle. */
  lemma HandlingProgresses(w: Login, step: Step)
    requires Enabled(w, step) && Safe(w, step) && Internal(step)
    ensures Work(Next(w, step)) < Work(w)
  {
    match step
    case AppReceives => UpWorkAppend(w.up, React(w.app, Incoming(w.down[0])).sent);
    case Delivery => ClientsWorkAppend(w.clientsQ, From(w.up[0]));
    case ClientsTurn => ClientsProgress(w);
    case ServerTurn(t) =>
      if w.serverQ[0].Report? {
        ClientsWorkAppend(w.clientsQ, Verdicts(w.serverQ[0].verdict));
      }
    case AuthTurn => ServerWorkAppend(w.serverQ, [Report(Judged(w.users, w.session.credentials))]);
  }

  lemma ClientsProgress(w: Login)
    requires w.clientsQ != []
    ensures Work(ClientsHandled(w)) < Work(w)
  {
    match w.clientsQ[0]
    case Connecting => ServerWorkAppend(w.serverQ, [Start]);
    case Verdicts(verdict) =>
      ServerWorkAppend(w.serverQ, [Finish(w.session.transaction)]);
      DownWorkAppend(w.down, [Answer(verdict.step)]);
    case From(event) =>
      var r := OnEventFrom(w.session, event);
      ServerWorkAppend(w.serverQ, if r.starts then [Start] else []);
      DownWorkAppend(w.down, r.replies);
  }

  /** Given a connection that delivers, every login gets somewhere: once nothing is left to handle, which by
      the above is after finitely many steps, the client is asking its user for something the server is
      waiting for, or it has joined. */
  lemma NeverStuck(w: Login)
    requires Reachable(w) && Work(w) == 0
    ensures w.app.state == Joined
            || (w.app.state == UsernameEntry && w.session.state == AuthUsername)
            || (w.app.state == PasswordEntry && w.session.state == AuthPassword)
    ensures w.transactions == map[]
  {
    var phase := PhaseOf(w);
    NothingLeft(w);
  }

  lemma NothingLeft(w: Login)
    requires Work(w) == 0
    ensures w.up == [] && w.clientsQ == [] && w.serverQ == [] && w.authQ == [] && w.down == []
  {
  }

  // ---------------------------------------------------------------- logins that succeed

  lemma {:induction false} RunsJoin(w: Login, a: seq<Step>, v: Login, b: seq<Step>, u: Login)
    requires Run(w, a, v) && Run(v, b, u)
    ensures Run(w, a + b, u)
    decreases |a|
  {
    if a == [] {
      assert a + b == b;
    } else {
      assert (a + b)[1..] == a[1..] + b;
      RunsJoin(Next(w, a[0]), a[1..], v, b, u);
    }
  }

  lemma OneMore(w: Login, steps: seq<Step>, v: Login, step: Step)
    requires Run(w, steps, v) && Enabled(v, step) && Safe(v, step)
    ensures Run(w, steps + [step], Next(v, step))
  {
    assert [step][1..] == [];
    RunsJoin(w, steps, v, [step], Next(v, step));
  }

  predicate Drained(w: Login) { Quiet(w) && w.serverQ == [] && w.authQ == [] && w.transactions == map[] }

  /** A verification from start to finish, up to the prompt that comes of it. */
  function Verified(w: Login): Login {
    var verdict := Judged(w.users, w.session.credentials);
    w.(session := OnVerdict(w.session, verdict), users := UsersAfter(w.users, w.session.credentials),
       serverQ := [], down := [Answer(verdict.step)])
  }

  lemma Verifies(w: Login) returns (steps: seq<Step>)
    requires Drained(w.(serverQ := [])) && w.serverQ == [Start]
    ensures Run(w, steps, Verified(w))
  {
    var a := Next(w, ServerTurn(0));
    assert a == w.(serverQ := [], transactions := map[0 := Processing], session := w.session.(transaction := Some(0)), authQ := [0]);
    var b := Next(a, AuthTurn);
    var verdict := Judged(w.users, w.session.credentials);
    assert b == a.(authQ := [], transactions := map[0 := Done], users := UsersAfter(w.users, w.session.credentials), serverQ := [Report(verdict)]);
    var c := Next(b, ServerTurn(0));
    assert c == b.(serverQ := [], clientsQ := [Verdicts(verdict)]);
    var d := Next(c, ClientsTurn);
    assert d == c.(clientsQ := [], session := OnVerdict(c.session, verdict), down := [Answer(verdict.step)], serverQ := [Finish(Some(0))]);
    var e := Next(d, ServerTurn(0));
    assert d.transactions - {0} == map[];
    assert e == Verified(w);
    steps := [];
    OneMore(w, steps, w, ServerTurn(0));
    steps := steps + [ServerTurn(0)];
    OneMore(w, steps, a, AuthTurn);
    steps := steps + [AuthTurn];
    OneMore(w, steps, b, ServerTurn(0));
    steps := steps + [ServerTurn(0)];
    OneMore(w, steps, c, ClientsTurn);
    steps := steps + [ClientsTurn];
    OneMore(w, steps, d, ServerTurn(0));
    steps := steps + [ServerTurn(0)];
  }

  /** A prompt is shown, answered, and the answer delivered and accepted. */
  lemma Answers(w: Login, text: Text) returns (steps: seq<Step>, v: Login)
    requires Drained(w.(down := [])) && Typeable(text)
    requires (w.down == [AskUsername] && w.app.state == Connected && w.session.state == AuthUsername)
             || (w.down == [AskPassword] && w.app.state == UsernameVerifying && w.session.state == AuthPassword)
    requires !w.session.released
    ensures Run(w, steps, v) && Drained(v.(serverQ := [])) && v.serverQ == [Start] && v.users == w.users
    ensures w.down == [AskUsername] ==> v.app.state == UsernameVerifying && v.session == OnUsername(w.session, text).session
    ensures w.down == [AskPassword] ==> v.app.state == PasswordVerifying && v.session == OnPassword(w.session, text).session
  {
    var event := if w.down == [AskUsername] then Username(text) else Password(text);
    var a := Next(w, AppReceives);
    assert Quiet(a) && a.app.state == if event.Username? then UsernameEntry else PasswordEntry;
    var b := Next(a, UserTypes(text));
    assert b.up == [event];
    var c := Next(b, Delivery);
    assert c.up == [] && c.clientsQ == [From(event)];
    v := Next(c, ClientsTurn);
    assert v.clientsQ == [] && v.down == [] && v.serverQ == [Start];
    steps := [];
    OneMore(w, steps, w, AppReceives);
    steps := steps + [AppReceives];
    OneMore(w, steps, a, UserTypes(text));
    steps := steps + [UserTypes(text)];
    OneMore(w, steps, b, Delivery);
    steps := steps + [Delivery];
    OneMore(w, steps, c, ClientsTurn);
    steps := steps + [ClientsTurn];
  }

  /** The last exchange: the client, told that it is logged in, asks for its name and joins. */
  lemma Joins(w: Login) returns (steps: seq<Step>, v: Login)
    requires Drained(w.(down := [])) && w.down == [Welcome] && w.app.state == PasswordVerifying && NameFits(w.session.name)
    ensures Run(w, steps, v) && v.app == App(Joined, w.session.name)
  {
    var a := Next(w, AppReceives);
    assert a.up == [AskName] && a.down == [] && a.app.state == LoggedIn;
    var b := Next(a, Delivery);
    assert b.clientsQ == [From(AskName)];
    var c := Next(b, ClientsTurn);
    assert c.down == [Name(w.session.name)];
    v := Next(c, AppReceives);
    assert Kept(w.session.name) == w.session.name;
    steps := [];
    OneMore(w, steps, w, AppReceives);
    steps := steps + [AppReceives];
    OneMore(w, steps, a, Delivery);
    steps := steps + [Delivery];
    OneMore(w, steps, b, ClientsTurn);
    steps := steps + [ClientsTurn];
    OneMore(w, steps, c, AppReceives);
    steps := steps + [AppReceives];
  }

  lemma ReachesFurther(w: Login, steps: seq<Step>, v: Login)
    requires Reachable(w) && Run(w, steps, v)
    ensures Reachable(v)
  {
    var start, before :| Initial(start) && Run(start, before, w);
    RunsJoin(start, before, w, steps, v);
  }

  lemma AskedForName(users: seq<Row>) returns (w: Login)
    ensures Reachable(w) && Drained(w.(down := [])) && w.down == [AskUsername] && w.users == users
    ensures w.app.state == Connected && w.session.state == AuthUsername && !w.session.released
    ensures w.session.credentials == Credentials(None, None)
  {
    var start := Login(App(Connected, []), Session(Fresh, None, Credentials(None, None), false, []),
                       [], [Connecting], [], [], map[], users, [], None, None);
    assert Run(start, [], start) && Reachable(start);
    var a := Next(start, ClientsTurn);
    assert a.clientsQ == [] && a.serverQ == [Start];
    OneMore(start, [], start, ClientsTurn);
    ReachesFurther(start, [ClientsTurn], a);
    var steps := Verifies(a);
    w := Verified(a);
    ReachesFurther(a, steps, w);
  }

  lemma AskedForPassword(users: seq<Row>, name: Text) returns (w: Login)
    requires Typeable(name) && NameFits(name)
    ensures Reachable(w) && Drained(w.(down := [])) && w.down == [AskPassword] && w.users == users
    ensures w.app.state == UsernameVerifying && w.session.state == AuthPassword && !w.session.released
    ensures w.session.credentials == Credentials(Some(name), None)
  {
    hide Run, Reachable;
    var a := AskedForName(users);
    var steps, b := Answers(a, name);
    ReachesFurther(a, steps, b);
    steps := Verifies(b);
    w := Verified(b);
    ReachesFurther(b, steps, w);
  }

  /** Given a connection that delivers, and against any table, a user can join under any name that fits, with
      the password stored for it, or with any password when there is none. */
  lemma UserCanJoin(users: seq<Row>, name: Text, password: Text) returns (w: Login)
    requires Typeable(name) && Typeable(password) && NameFits(name)
    requires Stored(users, name) in {None, Some(password)}
    ensures Reachable(w) && w.app == App(Joined, name) && Stored(w.users, name) == Some(password)
  {
    hide Run, Reachable;
    var a := AskedForPassword(users, name);
    var steps, b := Answers(a, password);
    ReachesFurther(a, steps, b);
    steps := Verifies(b);
    ReachesFurther(b, steps, Verified(b));
    AuthenticatedKnows(users, Credentials(Some(name), Some(password)));
    assert Kept(name) == name;
    steps, w := Joins(Verified(b));
    ReachesFurther(Verified(b), steps, w);
    RunKeepsTable(Verified(b), steps, w);
  }
}
