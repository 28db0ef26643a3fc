/** The server's record of one client during its login: the submit handlers and the auth events. */
module ClientSession {
  import opened ChatEvent
  import opened ClientList
  import opened ServerWorld
  import opened ChatAuth
  import opened ChatClient

  /** The credentials are an object of their own, which the client lets go of once it is logged in. */
  datatype Session = Session(state: ClientState, transaction: Option<Tid>, credentials: Credentials, released: bool, name: Text)

  /** What a handler leaves, answers, and whether it starts an auth transaction. */
  datatype Effect = Effect(session: Session, replies: seq<FromServer>, starts: bool)

  predicate PastLogin(state: ClientState) { state in {Active, Disconnecting, DisconnectingFromActive} }

  function OnUsername(s: Session, text: Text): Effect {
    if PastLogin(s.state) then Effect(s, [UsernameRefused], false)
    else if StartsLogin(s.state, UsernameSubmit) then
      Effect(s.(state := AuthProcessing,
                credentials := Credentials(Some(text), if s.state == AuthPassword then None else s.credentials.password)), [], true)
    else Effect(s, [ServerError], false)
  }

  /** The state stays as it is, whatever happens. */
  function OnPassword(s: Session, text: Text): Effect {
    if StartsLogin(s.state, PasswordSubmit) then Effect(s.(credentials := s.credentials.(password := Some(text))), [], true)
    else Effect(s, [ServerError], false)
  }

  function OnEventFrom(s: Session, event: FromClient): Effect {
    match event
    case Username(text) => OnUsername(s, text)
    case Password(text) => OnPassword(s, text)
    case AskName => Effect(s, [Name(s.name)], false)
    case Chat(_) => Effect(s, [], false)
    case Leave => Effect(s.(state := StateOnEvent(s.state, UserLeave)), [], false)
  }

  function Answer(step: AuthStep): FromServer {
    match step
    case UsernameRequired => AskUsername
    case UsernameRejected => AskUsername
    case Authenticated => Welcome
    case _ => AskPassword
  }

  /** An auth event: the prompt is always sent, and the transaction is always handed back. */
  function OnVerdict(s: Session, verdict: Verdict): Session {
    var advised := s.(state := StateAfter(verdict.step), transaction := None);
    if verdict.step == Authenticated then advised.(name := Kept(verdict.name), released := true) else advised
  }

  /** What the state machine of the whole server sees of an event. */
  function KindOf(event: FromClient): EventKind {
    match event
    case Username(_) => UsernameSubmit
    case Password(_) => PasswordSubmit
    case Leave => UserLeave
    case Chat(_) => ChatMessage
    case AskName => OtherEvent
  }

  /** There the handlers change the client's state, start its logins and rewrite its credentials just as
      `StateOnEvent`, `StartsLogin` and `Rewritten` have it. */
  lemma AgreesWithWorld(s: Session, event: FromClient)
    ensures var r := OnEventFrom(s, event);
      && r.session.state == StateOnEvent(s.state, KindOf(event))
      && r.starts == StartsLogin(s.state, KindOf(event))
      && r.session.transaction == s.transaction && r.session.released == s.released
      && (!r.starts ==> r.session.credentials == s.credentials)
  {
  }

  /** A name that is taken leaves the credentials with it alone, unless a password was there before and the
      client was being asked for its name: only a name given in place of a password clears it. */
  lemma NameTaken(s: Session, text: Text)
    ensures var r := OnEventFrom(s, Username(text));
      && (r.starts <==> s.state in {AuthUsername, AuthPassword})
      && (r.starts ==> r.session.state == AuthProcessing && r.replies == [] && r.session.credentials.username == Some(text))
      && (r.starts ==>
            (r.session.credentials == Credentials(Some(text), None) <==> s.state == AuthPassword || s.credentials.password.None?))
      && (!r.starts ==> r.session == s)
      && (!r.starts ==> r.replies == if s.state in {Active, Disconnecting, DisconnectingFromActive} then [UsernameRefused] else [ServerError])
  {
  }

  /** A password is taken where one is asked for, next to the name that is there; nothing else changes, so
      that another may follow at once. */
  lemma PasswordTaken(s: Session, text: Text)
    ensures var r := OnEventFrom(s, Password(text));
      && (r.starts <==> s.state == AuthPassword)
      && (r.starts ==> r.session == s.(credentials := Credentials(s.credentials.username, Some(text))) && r.replies == [])
      && (!r.starts ==> r.session == s && r.replies == [ServerError])
  {
  }

  /** The other events: a request is answered with the name the server knows, a leave is told from being
      logged in, and a message is passed on without a word. */
  lemma OthersTaken(s: Session)
    ensures OnEventFrom(s, AskName) == Effect(s, [Name(s.name)], false)
    ensures forall text :: OnEventFrom(s, Chat(text)) == Effect(s, [], false)
    ensures OnEventFrom(s, Leave) == Effect(s.(state := if s.state == Active then DisconnectingFromActive else Disconnecting), [], false)
  {
  }

  /** What an auth event leads to: the client is prompted for what the verdict lacks and the state expects just
      that; or it is welcomed, with its name kept as it fits and its credentials let go of. */
  lemma VerdictTold(s: Session, verdict: Verdict)
    ensures var v, answer := OnVerdict(s, verdict), Answer(verdict.step);
      && v.transaction == None && v.credentials == s.credentials
      && (answer == AskUsername <==> verdict.step in {UsernameRequired, UsernameRejected})
      && (answer == AskPassword <==> verdict.step in {PasswordCreation, PasswordRequired, PasswordRejected})
      && (answer == Welcome <==> verdict.step == Authenticated)
      && (v.state == AuthUsername <==> answer == AskUsername)
      && (v.state == AuthPassword <==> answer == AskPassword)
      && (v.state == Active <==> answer == Welcome)
      && (answer == Welcome ==> v.released && v.name == verdict.name[..Min(|verdict.name|, 64)])
      && (answer != Welcome ==> v.released == s.released && v.name == s.name)
  {
  }

  /** A client that does not wait can leave a password behind: one submitted after a name that is then
      rejected stays for the next name. */
  lemma PasswordOutlivesName(rejected: Text, password: Text, next: Text)
    ensures var asked := Session(AuthPassword, None, Credentials(Some(rejected), None), false, []);
      var given := OnEventFrom(asked, Password(password));
      var told := OnVerdict(given.session, Verdict(UsernameRejected, []));
      var named := OnEventFrom(told, Username(next));
      given.starts && named.starts && named.session.credentials == Credentials(Some(next), Some(password))
  {
  }

  // ---------------------------------------------------------------- the code

  class ClientRecord {
    var state: ClientState
    var transaction: Option<Tid>
    var username: Option<Text>
    var password: Option<Text>
    var released: bool
    var name: Text
    var replies: seq<FromServer>    // what the connection has been given
    var starts: nat                 // START_AUTH_TRANSACTION callbacks made
    var finishes: seq<Option<Tid>>  // FINISH_AUTH_TRANSACTION callbacks made

    ghost function View(): Session
      reads this
    {
      Session(state, transaction, Credentials(username, password), released, name)
    }

    constructor ()
      ensures View() == Session(Fresh, None, Credentials(None, None), false, [])
      ensures replies == [] && starts == 0 && finishes == []
    {
      state, transaction, username, password, released, name := Fresh, None, None, None, false, [];
      replies, starts, finishes := [], 0, [];
    }

    twostate predicate Did(r: Effect)
      reads this
    {
      && View() == r.session && replies == old(replies) + r.replies
      && starts == old(starts) + (if r.starts then 1 else 0) && finishes == old(finishes)
    }

    method Reply(event: FromServer)
      modifies `replies
      ensures replies == old(replies) + [event]
    {
      replies := replies + [event];
    }

    /** The credentials are read even when they have been let go of, so a logged-in client must not get here. */
    method HandleUsernameSubmit(text: Text)
      requires !released
      modifies this
      ensures Did(OnUsername(old(View()), text))
    {
      if state in {Active, Disconnecting, DisconnectingFromActive} {
        Reply(UsernameRefused);
        return;
      }
      if state == AuthPassword || state == AuthUsername {
        if state == AuthPassword {
          password := None;
        }
        username := Some(text);
        state := AuthProcessing;
        starts := starts + 1;
      } else {
        Reply(ServerError);
      }
    }

    method HandlePasswordSubmit(text: Text)
      requires !released
      modifies this
      ensures Did(OnPassword(old(View()), text))
    {
      if state in {Active, Disconnecting, DisconnectingFromActive} {
        Reply(ServerError);
        return;
      }
      if state == AuthPassword {
        password := Some(text);
        starts := starts + 1;
      } else {
        Reply(ServerError);
      }
    }

    method HandleUserLeave()
      modifies `state
      ensures state == StateOnEvent(old(state), UserLeave)
    {
      if state == Active {
        state := DisconnectingFromActive;
      } else {
        state := Disconnecting;
      }
    }

    /** The handler table. */
    method ProcessEvent(event: FromClient)
      requires event.Username? || event.Password? ==> !released
      modifies this
      ensures Did(OnEventFrom(old(View()), event))
      ensures state == StateOnEvent(old(state), KindOf(event))
      ensures starts == old(starts) + (if StartsLogin(old(state), KindOf(event)) then 1 else 0)
      ensures (username, password) != (old(username), old(password)) ==> StartsLogin(old(state), KindOf(event))
    {
      AgreesWithWorld(View(), event);
      match event {
        case Username(text) => HandleUsernameSubmit(text);
        case Password(text) => HandlePasswordSubmit(text);
        case AskName => Reply(Name(name));
        case Chat(_) =>
        case Leave => HandleUserLeave();
      }
    }

    /** AUTH_EVENT, for the client it is about. */
    method HandleAuthEvent(verdict: Verdict)
      modifies this
      ensures View() == OnVerdict(old(View()), verdict)
      ensures replies == old(replies) + [Answer(verdict.step)]
      ensures finishes == old(finishes) + [old(transaction)] && starts == old(starts)
    {
      match verdict.step {
        case Authenticated =>
          state := Active;
          name := verdict.name[..Min(|verdict.name|, NAME_SIZE - 1)];
          Reply(Welcome);
          released := true;
        case UsernameRequired => Prompt(AuthUsername, AskUsername);
        case UsernameRejected => Prompt(AuthUsername, AskUsername);
        case PasswordCreation => Prompt(AuthPassword, AskPassword);
        case PasswordRequired => Prompt(AuthPassword, AskPassword);
        case PasswordRejected => Prompt(AuthPassword, AskPassword);
      }
      finishes := finishes + [transaction];
      transaction := None;
    }

    method Prompt(newState: ClientState, event: FromServer)
      modifies `state, `replies
      ensures state == newState && replies == old(replies) + [event]
    {
      state := newState;
      Reply(event);
    }
  }
}
