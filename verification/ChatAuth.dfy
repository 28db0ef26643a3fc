/** The auth module: the users table, the decision made from a client's credentials, and the life of an
    auth transaction, which the worker and the consumer share. */
module ChatAuth {
  import opened ChatEvent
  import opened ClientList
  import opened ServerWorld

  type Text = seq<byte>

  datatype Row = Row(username: Text, password: Text)

  /** What a client has been told so far. */
  datatype Credentials = Credentials(username: Option<Text>, password: Option<Text>)

  datatype Verdict = Verdict(step: AuthStep, name: Text)

  // ---------------------------------------------------------------- the users table

  /** The stored password: that of the first row for the name. */
  function Stored(users: seq<Row>, username: Text): Option<Text> {
    if users == [] then None
    else if users[0].username == username then Some(users[0].password)
    else Stored(users[1..], username)
  }

  ghost predicate OneRowEach(users: seq<Row>) {
    forall i, j :: 0 <= i < j < |users| ==> users[i].username != users[j].username
  }

  /** A name is taken along with its terminator. */
  predicate NameFits(username: Text) { |username| + 1 <= NAME_SIZE }

  predicate Creates(users: seq<Row>, credentials: Credentials) {
    && credentials.username.Some? && NameFits(credentials.username.value)
    && credentials.password.Some? && Stored(users, credentials.username.value).None?
  }

  function UsersAfter(users: seq<Row>, credentials: Credentials): seq<Row> {
    if Creates(users, credentials) then users + [Row(credentials.username.value, credentials.password.value)] else users
  }

  function StepFor(users: seq<Row>, credentials: Credentials): AuthStep {
    if credentials.username.None? then UsernameRequired
    else if !NameFits(credentials.username.value) then UsernameRejected
    else
      match (Stored(users, credentials.username.value), credentials.password)
      case (None, None) => PasswordCreation
      case (None, Some(_)) => Authenticated
      case (Some(_), None) => PasswordRequired
      case (Some(stored), Some(given)) => if given == stored then Authenticated else PasswordRejected
  }

  lemma {:induction false} StoredIsFirst(users: seq<Row>, username: Text, i: nat)
    requires i < |users| && users[i].username == username && forall j :: 0 <= j < i ==> users[j].username != username
    ensures Stored(users, username) == Some(users[i].password)
  {
    if i > 0 {
      StoredIsFirst(users[1..], username, i - 1);
    }
  }

  lemma {:induction false} StoredNowhere(users: seq<Row>, username: Text)
    ensures Stored(users, username).None? <==> forall i :: 0 <= i < |users| ==> users[i].username != username
  {
    if users != [] && users[0].username != username {
      StoredNowhere(users[1..], username);
      assert forall i :: 1 <= i < |users| ==> users[i] == users[1..][i - 1];
      assert forall i :: 0 <= i < |users| - 1 ==> users[1..][i] == users[i + 1];
    }
  }

  lemma {:induction false} StoredAppend(users: seq<Row>, row: Row, username: Text)
    ensures Stored(users + [row], username)
            == if Stored(users, username).Some? then Stored(users, username)
               else if row.username == username then Some(row.password) else None
  {
    if users == [] {
      assert users + [row] == [row];
    } else {
      assert (users + [row])[1..] == users[1..] + [row];
      StoredAppend(users[1..], row, username);
    }
  }

  /** Authentication is exactly knowing the password that is stored once it is over: one that was there, or
      the one just given for a new name. Nothing else about the table changes. */
  lemma AuthenticatedKnows(users: seq<Row>, credentials: Credentials)
    ensures StepFor(users, credentials) == Authenticated <==>
      && credentials.username.Some? && NameFits(credentials.username.value) && credentials.password.Some?
      && Stored(UsersAfter(users, credentials), credentials.username.value) == credentials.password
    ensures forall username :: Stored(users, username).Some? ==>
      Stored(UsersAfter(users, credentials), username) == Stored(users, username)
    ensures forall username :: Stored(users, username).None? && Stored(UsersAfter(users, credentials), username).Some? ==>
      credentials.username == Some(username) && StepFor(users, credentials) == Authenticated
    ensures OneRowEach(users) ==> OneRowEach(UsersAfter(users, credentials))
  {
    if Creates(users, credentials) {
      forall username
        ensures Stored(UsersAfter(users, credentials), username)
                == if Stored(users, username).Some? then Stored(users, username)
                   else if credentials.username == Some(username) then credentials.password else None
      {
        StoredAppend(users, Row(credentials.username.value, credentials.password.value), username);
      }
      StoredNowhere(users, credentials.username.value);
    }
  }

  /** The i-th row is the first one for the name. */
  ghost predicate FirstRow(users: seq<Row>, username: Text, i: nat) {
    && i < |users| && users[i].username == username
    && forall j :: 0 <= j < i ==> users[j].username != username
  }

  ghost predicate Known(users: seq<Row>, username: Text) { exists i: nat :: FirstRow(users, username, i) }

  lemma {:induction false} KnownIsStored(users: seq<Row>, username: Text)
    ensures Known(users, username) <==> Stored(users, username).Some?
    ensures forall i: nat :: FirstRow(users, username, i) ==> Stored(users, username) == Some(users[i].password)
    ensures Known(users, username) <==> exists i :: 0 <= i < |users| && users[i].username == username
  {
    StoredNowhere(users, username);
    forall i: nat | FirstRow(users, username, i)
      ensures Stored(users, username) == Some(users[i].password)
    {
      StoredIsFirst(users, username, i);
    }
    if Stored(users, username).Some? {
      var i := FindFirst(users, username);
    }
  }

  lemma {:induction false} FindFirst(users: seq<Row>, username: Text) returns (i: nat)
    requires Stored(users, username).Some?
    ensures FirstRow(users, username, i)
  {
    i := 0;
    if users[0].username != username {
      var rest := FindFirst(users[1..], username);
      i := rest + 1;
      assert forall j :: 1 <= j < |users| ==> users[j] == users[1..][j - 1];
    }
  }

  /** Every verdict, by the rows of the table and what was given: no name; a name that does not fit with its
      terminator; an unknown name or a known one without a password; the first row's password, another one, or
      any for a new name. */
  lemma VerdictsExactly(users: seq<Row>, credentials: Credentials)
    ensures var step := StepFor(users, credentials);
      match credentials
      case Credentials(None, _) => step == UsernameRequired
      case Credentials(Some(name), password) =>
        && (step == UsernameRejected <==> |name| >= NAME_SIZE)
        && (step == PasswordCreation <==> |name| < NAME_SIZE && !Known(users, name) && password == None)
        && (step == PasswordRequired <==> |name| < NAME_SIZE && Known(users, name) && password == None)
        && (step == PasswordRejected <==>
              |name| < NAME_SIZE && password.Some? && exists i: nat :: FirstRow(users, name, i) && users[i].password != password.value)
        && (step == Authenticated <==>
              |name| < NAME_SIZE && password.Some? && (Known(users, name) ==> exists i: nat :: FirstRow(users, name, i) && users[i].password == password.value))
        && step != UsernameRequired
  {
    if credentials.username.Some? {
      var name := credentials.username.value;
      KnownIsStored(users, name);
      if Known(users, name) {
        var i :| FirstRow(users, name, i);
      }
    }
  }

  /** A row is added exactly for an unknown name that fits, with a password given, and is these two. */
  lemma AddsExactly(users: seq<Row>, credentials: Credentials)
    ensures UsersAfter(users, credentials) ==
      match credentials
      case Credentials(Some(name), Some(password)) =>
        if |name| < NAME_SIZE && !Known(users, name) then users + [Row(name, password)] else users
      case _ => users
  {
    if credentials.username.Some? {
      KnownIsStored(users, credentials.username.value);
    }
  }

  /** Of two clients that give the same new name, the second is judged by the first one's password. */
  lemma SecondIsJudged(users: seq<Row>, name: Text, first: Text, second: Text)
    requires |name| < NAME_SIZE && !Known(users, name)
    ensures UsersAfter(users, Credentials(Some(name), Some(first))) == users + [Row(name, first)]
    ensures StepFor(users, Credentials(Some(name), Some(first))) == Authenticated
    ensures StepFor(users + [Row(name, first)], Credentials(Some(name), Some(second)))
            == if first == second then Authenticated else PasswordRejected
    ensures UsersAfter(users + [Row(name, first)], Credentials(Some(name), Some(second))) == users + [Row(name, first)]
  {
    AddsExactly(users, Credentials(Some(name), Some(first)));
    KnownIsStored(users, name);
    StoredAppend(users, Row(name, first), name);
  }

  /** The table after any sequence of decisions, by any clients. */
  function UsersAfterAll(users: seq<Row>, all: seq<Credentials>): seq<Row>
    decreases |all|
  {
    if all == [] then users else UsersAfterAll(UsersAfter(users, all[0]), all[1..])
  }

  /** Over all runs: never two rows for a name, and never another password for a name that has one. */
  lemma {:induction false} TableIsSound(users: seq<Row>, all: seq<Credentials>)
    ensures users <= UsersAfterAll(users, all)
    ensures OneRowEach(users) ==> OneRowEach(UsersAfterAll(users, all))
    ensures forall username :: Stored(users, username).Some? ==>
      Stored(UsersAfterAll(users, all), username) == Stored(users, username)
    decreases |all|
  {
    if all != [] {
      AuthenticatedKnows(users, all[0]);
      TableIsSound(UsersAfter(users, all[0]), all[1..]);
    }
  }

  // ---------------------------------------------------------------- the code

  /** The worker, with its queue, its transactions and the table. */
  class Auth {
    var users: seq<Row>
    var queue: seq<AuthMessage>
    var transactions: map<Tid, Transaction>

    constructor ()
      ensures users == [] && queue == [] && transactions == map[]
    {
      users, queue, transactions := [], [], map[];
    }

    /** SELECT ... WHERE username = :username LIMIT 1. */
    method SelectFirst(username: Text) returns (found: Option<Row>)
      ensures found.None? <==> Stored(users, username).None?
      ensures found.Some? ==> found.value.username == username && Stored(users, username) == Some(found.value.password)
    {
      var i := 0;
      while i < |users|
        invariant 0 <= i <= |users|
        invariant forall j :: 0 <= j < i ==> users[j].username != username
      {
        if users[i].username == username {
          StoredIsFirst(users, username, i);
          return Some(users[i]);
        }
        i := i + 1;
      }
      StoredNowhere(users, username);
      found := None;
    }

    /** INSERT INTO users. */
    method CreateUser(username: Text, password: Text)
      modifies `users
      ensures users == old(users) + [Row(username, password)]
    {
      users := users + [Row(username, password)];
    }

    /** chat_auth_sql_auth_user, with the name printed for the caller. */
    method AuthUser(credentials: Credentials) returns (verdict: Verdict)
      modifies `users
      ensures users == UsersAfter(old(users), credentials)
      ensures verdict.step == StepFor(old(users), credentials)
      ensures verdict.step == Authenticated ==> Some(verdict.name) == credentials.username
    {
      verdict := Verdict(UsernameRequired, []);
      if credentials.username.None? {
        return;
      }
      var username := credentials.username.value;
      if |username| + 1 > NAME_SIZE {
        return Verdict(UsernameRejected, []);
      }
      var found := SelectFirst(username);
      if found.Some? {
        if credentials.password.Some? {
          if credentials.password.value == found.value.password {
            verdict := Verdict(Authenticated, found.value.username);
          } else {
            verdict := Verdict(PasswordRejected, []);
          }
        } else {
          verdict := Verdict(PasswordRequired, []);
        }
      } else {
        if credentials.password.Some? {
          CreateUser(username, credentials.password.value);
          verdict := Verdict(Authenticated, username);
        } else {
          verdict := Verdict(PasswordCreation, []);
        }
      }
    }

    /** chat_auth_submit_credentials: the address t of the new transaction goes to the caller. */
    method SubmitCredentials(c: nat, consumer: nat, t: Tid)
      requires t !in transactions
      modifies `queue, `transactions
      ensures queue == old(queue) + [ProcessCredentials(c, t)]
      ensures transactions == old(transactions)[t := Transaction(Processing, Some(consumer))]
    {
      transactions := transactions[t := Transaction(Processing, Some(consumer))];
      queue := queue + [ProcessCredentials(c, t)];
    }

    /** chat_auth_finish_transaction; a null address is refused. */
    method FinishTransaction(transaction: Option<Tid>, ghost w: World) returns (ok: bool)
      requires transaction.Some? ==> transaction.value in transactions
      requires w.transactions == transactions
      modifies `transactions
      ensures ok <==> transaction.Some?
      ensures transactions == if ok then Finished(w, transaction.value).transactions else old(transactions)
    {
      if transaction.None? {
        return false;
      }
      var t := transaction.value;
      match transactions[t].state {
        case Processing => transactions := transactions[t := transactions[t].(state := Cancelled)];
        case Cancelled =>
        case Done => transactions := transactions - {t};
      }
      ok := true;
    }

    /** PROCESS_CREDENTIALS: the oldest message's transaction, unless cancelled, gets a verdict, and its
        consumer goes with the verdict. Either way the message's references are the handler's to settle.
        `behind` is what the messages' references to credentials lead to. */
    method ProcessNext(behind: map<nat, Credentials>) returns (verdict: Option<Verdict>, consumer: nat)
      requires queue != [] && queue[0].transaction in transactions && transactions[queue[0].transaction].consumer.Some?
      requires queue[0].c in behind
      modifies this
      ensures queue == old(queue)[1..] && consumer == old(transactions[queue[0].transaction].consumer.value)
      ensures verdict.None? <==> old(transactions[queue[0].transaction].state) == Cancelled
      ensures verdict.None? ==> users == old(users)
      ensures verdict.Some? ==>
        var credentials := behind[old(queue[0].c)];
        && users == UsersAfter(old(users), credentials)
        && verdict.value.step == StepFor(old(users), credentials)
        && (verdict.value.step == Authenticated ==> Some(verdict.value.name) == credentials.username)
      ensures var t := old(queue[0].transaction);
        transactions == if verdict.None? then old(transactions) - {t} else old(transactions)[t := Transaction(Done, None)]
    {
      var t, credentials := queue[0].transaction, behind[queue[0].c];
      consumer := transactions[t].consumer.value;
      queue := queue[1..];
      if transactions[t].state == Cancelled {
        transactions := transactions - {t};
        verdict := None;
      } else if credentials.username.None? {
        transactions := transactions[t := Transaction(Done, None)];
        verdict := Some(Verdict(UsernameRequired, []));
      } else {
        var decided := AuthUser(credentials);
        transactions := transactions[t := Transaction(Done, None)];
        verdict := Some(decided);
      }
    }
  }
}
