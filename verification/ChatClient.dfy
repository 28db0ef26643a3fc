/** The remote client: a state machine fed with the user's input and the server's events. */
module ChatClient {
  import opened ChatEvent
  import opened ChatAuth

  datatype AppState =
    | Connected | UsernameEntry | UsernameVerifying | PasswordEntry | PasswordVerifying | LoggedIn | Joined
    | Disconnected | Closing | Closed

  /** What the server sends. A notice is any event the handlers only show: chat, joins, leaves, shutdown. */
  datatype FromServer = AskUsername | UsernameRefused | AskPassword | PasswordRefused | Welcome | Name(name: Text) | ServerError | Notice

  datatype FromClient = Username(text: Text) | Password(text: Text) | AskName | Chat(text: Text) | Leave

  datatype App = App(state: AppState, name: Text)

  datatype AppMessage = UserInput(text: Text) | Incoming(event: FromServer) | ConnectionClosed | Close

  /** What a handler does besides: what it sends, and whether it closes the connection. */
  datatype Reaction = Reaction(app: App, sent: seq<FromClient>, closes: bool)

  predicate Open(state: AppState) { !state.Disconnected? && !state.Closing? && !state.Closed? }

  /** An open client in one of these states is waiting for the server. */
  predicate AwaitsServer(state: AppState) { state.Connected? || state.UsernameVerifying? || state.PasswordVerifying? }

  /** The server's prompts, and when the client takes them up. */
  predicate Accepts(state: AppState, event: FromServer) {
    match event
    case AskUsername => state.Connected? || state.UsernameVerifying?
    case UsernameRefused => state.Connected? || state.UsernameVerifying?
    case AskPassword => AwaitsServer(state)
    case PasswordRefused => AwaitsServer(state)
    case Welcome => AwaitsServer(state)
    case Name(_) => state.LoggedIn?
    case ServerError => false
    case Notice => false
  }

  /** A stored name: what fits the client's own record of it. */
  function Kept(name: Text): Text { name[..Min(|name|, NAME_SIZE - 1)] }

  function OnEvent(app: App, event: FromServer): Reaction {
    if !Accepts(app.state, event) then Reaction(app, [], false)
    else
      match event
      case AskUsername => Reaction(app.(state := UsernameEntry), [], false)
      case UsernameRefused => Reaction(app.(state := UsernameEntry), [], false)
      case AskPassword => Reaction(app.(state := PasswordEntry), [], false)
      case PasswordRefused => Reaction(app.(state := PasswordEntry), [], false)
      case Welcome => Reaction(app.(state := LoggedIn), [AskName], false)
      case Name(name) => Reaction(App(Joined, Kept(name)), [], false)
      case _ => Reaction(app, [], false)
  }

  function OnInput(app: App, text: Text): Reaction {
    match app.state
    case UsernameEntry => Reaction(app.(state := UsernameVerifying), [Username(text)], false)
    case PasswordEntry => Reaction(app.(state := PasswordVerifying), [Password(text)], false)
    case Joined => Reaction(app, [Chat(text)], false)
    case _ => Reaction(app, [], false)
  }

  function React(app: App, message: AppMessage): Reaction {
    match message
    case UserInput(text) => OnInput(app, text)
    case Incoming(event) => if Open(app.state) then OnEvent(app, event) else Reaction(app, [], false)
    case ConnectionClosed =>
      if Open(app.state) then Reaction(app.(state := Disconnected), [], false)
      else if app.state.Closing? then Reaction(app.(state := Closed), [], false)
      else Reaction(app, [], false)
    case Close =>
      if Open(app.state) then Reaction(app.(state := Closing), [Leave], true)
      else if app.state.Disconnected? then Reaction(app.(state := Closed), [], false)
      else Reaction(app, [], false)
  }

  // ---------------------------------------------------------------- what each message comes to

  /** What the user enters is sent, once and as it is, as what was asked for: a name, a password, or chat once
      the client has joined; and only an answer to a prompt changes the client. */
  lemma InputSends(app: App, text: Text)
    ensures var r := React(app, UserInput(text));
      && r.sent == (if app.state == UsernameEntry then [Username(text)]
                    else if app.state == PasswordEntry then [Password(text)]
                    else if app.state == Joined then [Chat(text)] else [])
      && (r.app != app <==> app.state in {UsernameEntry, PasswordEntry})
      && (r.app.state == UsernameVerifying && r.app != app <==> app.state == UsernameEntry)
      && (r.app.state == PasswordVerifying && r.app != app <==> app.state == PasswordEntry)
      && r.app.name == app.name && !r.closes
  {
  }

  /** Which of the server's events changes the client: a prompt, by leading to the entry it asks for, where the
      client is waiting for the server; a welcome there, which is answered by asking for the name; and the
      name, where it has been asked for. All others only show something. */
  lemma EventMoves(app: App, event: FromServer)
    ensures var r := React(app, Incoming(event));
      && (r.app.state == UsernameEntry && r.app != app <==>
            app.state in {Connected, UsernameVerifying} && (event == AskUsername || event == UsernameRefused))
      && (r.app.state == PasswordEntry && r.app != app <==>
            app.state in {Connected, UsernameVerifying, PasswordVerifying} && (event == AskPassword || event == PasswordRefused))
      && (r.app.state == LoggedIn && r.app != app <==>
            app.state in {Connected, UsernameVerifying, PasswordVerifying} && event == Welcome)
      && (r.app.state == Joined && app.state != Joined <==> app.state == LoggedIn && event.Name?)
      && (r.app != app ==> r.app.state in {UsernameEntry, PasswordEntry, LoggedIn, Joined})
      && (r.app.state == Joined && app.state == LoggedIn ==> r.app.name == event.name[..Min(|event.name|, 64)])
      && (r.app.state != Joined ==> r.app.name == app.name)
      && r.sent == (if r.app.state == LoggedIn && app.state != LoggedIn then [AskName] else []) && !r.closes
  {
  }

  /** How the client ends: an open one leaves and closes its connection when told to, or finds itself
      disconnected; it is closed by the other of the two, and by nothing else. */
  lemma EndsExactly(app: App, message: AppMessage)
    requires message.ConnectionClosed? || message.Close?
    ensures var r, gone := React(app, message), app.state in {Disconnected, Closing, Closed};
      && r.app.name == app.name
      && (message.Close? && !gone ==> r == Reaction(App(Closing, app.name), [Leave], true))
      && (message.ConnectionClosed? && !gone ==> r == Reaction(App(Disconnected, app.name), [], false))
      && (gone ==> r.sent == [] && !r.closes)
      && (r.app.state == Closed <==>
            || app.state == Closed
            || (app.state == Closing && message.ConnectionClosed?)
            || (app.state == Disconnected && message.Close?))
      && (gone && r.app.state != Closed ==> r.app == app)
  {
  }

  // ---------------------------------------------------------------- runs of the client alone

  /** What the client has sent and whether it has closed its connection, over any messages; those that come
      after it is closed stay in the queue. */
  function ReactAll(app: App, messages: seq<AppMessage>): (App, seq<FromClient>, nat)
    decreases |messages|
  {
    if messages == [] then (app, [], 0)
    else
      var first := React(app, messages[0]);
      var rest := ReactAll(first.app, messages[1..]);
      (rest.0, first.sent + rest.1, (if first.closes then 1 else 0) + rest.2)
  }

  /** Whatever arrives, in whatever order: the connection is closed at most once, exactly when a leave has
      been sent, which is then the last thing sent. */
  lemma {:induction false} ClosesOnce(app: App, messages: seq<AppMessage>)
    ensures var (after, sent, closes) := ReactAll(app, messages);
      && closes <= 1
      && (!Open(app.state) ==> closes == 0 && sent == [] && !Open(after.state))
      && (closes == 1 <==> sent != [] && sent[|sent| - 1] == Leave)
      && (closes == 1 ==> after.state.Closing? || after.state.Closed?)
      && forall i :: 0 <= i < |sent| && sent[i] == Leave ==> i == |sent| - 1
    decreases |messages|
  {
    if messages != [] {
      var first := React(app, messages[0]);
      var rest := ReactAll(first.app, messages[1..]);
      ClosesOnce(first.app, messages[1..]);
      OneReaction(app, messages[0]);
      if first.closes {
        ClosingStays(first.app, messages[1..]);
        assert rest.1 == [];
      }
    }
  }

  lemma OneReaction(app: App, message: AppMessage)
    ensures var r := React(app, message);
      && |r.sent| <= 1 && (r.closes <==> r.sent == [Leave]) && (Leave in r.sent ==> r.closes)
      && (!Open(app.state) ==> !r.closes && r.sent == [] && !Open(r.app.state))
      && (r.closes ==> r.app.state.Closing?)
  {
  }

  lemma {:induction false} ClosingStays(app: App, messages: seq<AppMessage>)
    requires app.state.Closing? || app.state.Closed?
    ensures ReactAll(app, messages).0.state.Closing? || ReactAll(app, messages).0.state.Closed?
    decreases |messages|
  {
    if messages != [] {
      ClosingStays(React(app, messages[0]).app, messages[1..]);
    }
  }

  // ---------------------------------------------------------------- the code

  class ChatClient {
    var state: AppState
    var name: Text
    var sent: seq<FromClient>     // what the connection has been given
    var closes: nat               // calls to close it

    ghost function View(): App
      reads this
    {
      App(state, name)
    }

    constructor ()
      ensures View() == App(Connected, []) && sent == [] && closes == 0
    {
      state, name, sent, closes := Connected, [], [], 0;
    }

    /** What a handler has done, as a reaction to the state it found. */
    twostate predicate Did(r: Reaction)
      reads this
    {
      View() == r.app && sent == old(sent) + r.sent && closes == old(closes) + if r.closes then 1 else 0
    }

    /** The handler table. */
    method HandleIncomingEvent(event: FromServer)
      modifies this
      ensures Did(OnEvent(old(View()), event))
    {
      match event {
        case AskUsername => HandleUsernameEntry();
        case UsernameRefused => HandleUsernameEntry();
        case AskPassword => HandlePasswordEntry();
        case PasswordRefused => HandlePasswordEntry();
        case Welcome => HandleAuthenticated();
        case Name(given) => HandleUsernameSubmit(given);
        case ServerError =>
        case Notice =>
      }
    }

    method HandleUsernameEntry()
      modifies this
      ensures Did(OnEvent(old(View()), AskUsername))
    {
      match state {
        case Connected => state := UsernameEntry;
        case UsernameVerifying => state := UsernameEntry;
        case _ =>
      }
    }

    method HandlePasswordEntry()
      modifies this
      ensures Did(OnEvent(old(View()), AskPassword))
    {
      match state {
        case Connected => state := PasswordEntry;
        case UsernameVerifying => state := PasswordEntry;
        case PasswordVerifying => state := PasswordEntry;
        case _ =>
      }
    }

    method HandleAuthenticated()
      modifies this
      ensures Did(OnEvent(old(View()), Welcome))
    {
      if state == Connected || state == UsernameVerifying || state == PasswordVerifying {
        state := LoggedIn;
        sent := sent + [AskName];
      }
    }

    method HandleUsernameSubmit(given: Text)
      modifies this
      ensures Did(OnEvent(old(View()), Name(given)))
    {
      if state == LoggedIn {
        name := given[..Min(|given|, NAME_SIZE - 1)];
        state := Joined;
      }
    }

    method AuthEntryInput(text: Text)
      requires state.UsernameEntry? || state.PasswordEntry?
      modifies this
      ensures Did(OnInput(old(View()), text))
    {
      var event;
      match state {
        case UsernameEntry => event := Username(text);
        case PasswordEntry => event := Password(text);
      }
      sent := sent + [event];
      match state {
        case UsernameEntry => state := UsernameVerifying;
        case PasswordEntry => state := PasswordVerifying;
      }
    }

    method CloseRequested()
      requires Open(state)
      modifies this
      ensures Did(React(old(View()), Close))
    {
      sent := sent + [Leave];
      closes := closes + 1;
      state := Closing;
    }

    /** The thread has ended once the client is closed; a message then would be an assert. */
    method DispatchMessage(message: AppMessage)
      requires !state.Closed?
      modifies this
      ensures Did(React(old(View()), message))
    {
      if Open(state) {
        match message {
          case UserInput(text) =>
            if state == UsernameEntry || state == PasswordEntry {
              AuthEntryInput(text);
            } else if state == Joined {
              sent := sent + [Chat(text)];
            }
          case Incoming(event) => HandleIncomingEvent(event);
          case ConnectionClosed => state := Disconnected;
          case Close => CloseRequested();
        }
      } else if state == Disconnected {
        if message == Close {
          state := Closed;
        }
      } else if state == Closing {
        if message == ConnectionClosed {
          state := Closed;
        }
      }
    }
  }
}
