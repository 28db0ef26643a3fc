/** The server thread's shutdown: it asks whichever of its three dependants are open to close, and is closed
    once all three have said that they are. */
module ChatServer {
  import opened NetworkWatcher

  datatype Dependant = Clients | Listener | Auth

  const ALL: set<Dependant> := {Clients, Listener, Auth}

  datatype State = Open | Closing | Closed

  /** Traffic is any message about a client's login. */
  datatype Message = Close | Reported(d: Dependant) | ListenerError | ListenerCancelled | IncomingConnection | Traffic

  datatype Server = Server(state: State, open: set<Dependant>)

  /** What the open server is told to close by a message, in order. */
  function CallsFor(m: Message): seq<Dependant> {
    match m
    case Close => [Clients, Listener, Auth]
    case ListenerError => [Clients, Listener, Auth]
    case Reported(Clients) => [Auth, Listener]
    case Reported(Listener) => [Clients, Auth]
    case Reported(Auth) => [Clients, Listener]
    case _ => []
  }

  function After(s: Server, m: Message): Server {
    var open := if m.Reported? then s.open - {m.d} else s.open;
    match s.state
    case Open => if CallsFor(m) == [] then s else Server(Closing, open)
    case Closing => Server(if m.Reported? && open == {} then Closed else Closing, open)
    case Closed => s
  }

  // ---------------------------------------------------------------- the code

  class ChatServer {
    var state: State
    var clientsOpen: bool
    var authOpen: bool
    var listenerOpen: bool
    const listener: Watcher
    var calls: seq<Dependant>     // close calls made, in order
    var passedOn: nat               // connections passed to the client module

    ghost function View(): Server
      reads this
    {
      Server(state, (if clientsOpen then {Clients} else {}) + (if authOpen then {Auth} else {}) + (if listenerOpen then {Listener} else {}))
    }

    /** As fsm_cblk_init leaves it when every dependant opens. */
    constructor (listener: Watcher)
      ensures View() == Server(Open, ALL) && calls == [] && this.listener == listener && passedOn == 0
    {
      state, clientsOpen, authOpen, listenerOpen, calls, passedOn := Open, true, true, true, [], 0;
      this.listener := listener;
    }

    /** What a message has come to: the next state, the close calls, and the calls made on the listener. */
    twostate predicate Did(m: Message)
      reads this, listener
    {
      var calls' := if old(state) == Open then CallsFor(m) else [];
      && View() == After(old(View()), m) && calls == old(calls) + calls'
      && passedOn == old(passedOn) + (if old(state) == Open && m == IncomingConnection then 1 else 0)
      && if old(state) == Open && m == IncomingConnection then
           listener.cancelPipe == 0 && listener.commands == old(listener.commands) + [Watch(READ)]
         else if Listener in calls' then
           listener.cancelPipe == old(listener.cancelPipe) + CANCEL_BYTES && listener.commands == old(listener.commands) + [Stop]
         else listener.cancelPipe == old(listener.cancelPipe) && listener.commands == old(listener.commands)
    }

    method CheckClosed() returns (closed: bool)
      ensures closed <==> View().open == {}
    {
      var open := false;
      open := open || authOpen;
      open := open || clientsOpen;
      open := open || listenerOpen;
      closed := !open;
      assert authOpen ==> Auth in View().open;
      assert clientsOpen ==> Clients in View().open;
      assert listenerOpen ==> Listener in View().open;
    }

    method OpenProcessing(m: Message)
      requires state == Open && m != ListenerCancelled
      modifies this, listener
      ensures Did(m)
    {
      match m {
        case Close => CloseAll();
        case ListenerError => CloseAll();
        case Reported(d) =>
          MarkClosed(d);
          match d {
            case Clients =>
              calls := calls + [Auth];
              CloseListener();
            case Listener => calls := calls + [Clients, Auth];
            case Auth =>
              calls := calls + [Clients];
              CloseListener();
          }
          state := Closing;
        case IncomingConnection =>
          passedOn := passedOn + 1;
          var _ := listener.StartWatch(READ);
        case Traffic =>
      }
    }

    method CloseListener()
      modifies `calls, listener
      ensures calls == old(calls) + [Listener]
      ensures listener.cancelPipe == old(listener.cancelPipe) + CANCEL_BYTES && listener.commands == old(listener.commands) + [Stop]
    {
      calls := calls + [Listener];
      listener.Close();
    }

    method CloseAll()
      modifies `calls, `state, listener
      ensures calls == old(calls) + [Clients, Listener, Auth] && state == Closing
      ensures listener.cancelPipe == old(listener.cancelPipe) + CANCEL_BYTES && listener.commands == old(listener.commands) + [Stop]
    {
      calls := calls + [Clients];
      CloseListener();
      calls := calls + [Auth];
      state := Closing;
    }

    method MarkClosed(d: Dependant)
      modifies `clientsOpen, `authOpen, `listenerOpen
      ensures View() == Server(state, old(View()).open - {d})
    {
      match d {
        case Clients => clientsOpen := false;
        case Auth => authOpen := false;
        case Listener => listenerOpen := false;
      }
    }

    method ClosingProcessing(m: Message)
      requires state == Closing
      modifies this
      ensures Did(m)
    {
      if m.Reported? {
        MarkClosed(m.d);
        var closed := CheckClosed();
        if closed {
          state := Closed;
        }
      }
    }

    /** A cancelled watch while the server is open, and any message once it is closed, would be asserts. */
    method DispatchMessage(m: Message)
      requires state != Closed && (state == Open ==> m != ListenerCancelled)
      modifies this, listener
      ensures Did(m)
    {
      if state == Open {
        OpenProcessing(m);
      } else {
        ClosingProcessing(m);
      }
    }
  }

  // ---------------------------------------------------------------- the server among its dependants

  /** `pipe` is the listener's cancel pipe, and `watching` whether a watch of its is unanswered. The listener
      has reported so many connections, and so many have been passed on to the client module. */
  datatype World = World(
    server: Server, queue: seq<Message>, calls: seq<Dependant>, stopped: set<Dependant>, watching: bool, pipe: nat,
    reported: nat, passedOn: nat)

  /** A dependant may stop at any time, asked or not, and says so once; the listener answers its watch as any
      watcher does. */
  datatype Step = Handle | Stops(d: Dependant) | ListenerReplies(reply: Reply) | Arrives(m: Message)

  function One(b: bool): nat { if b then 1 else 0 }

  predicate Enabled(w: World, step: Step) {
    match step
    case Handle => w.queue != [] && w.server.state != Closed
    case Stops(d) => d !in w.stopped
    case ListenerReplies(reply) => w.watching && Listener !in w.stopped && PollMayReport(READ, w.pipe, reply)
    case Arrives(m) => m in {Close, ListenerError, Traffic}
  }

  function Next(w: World, step: Step): World
    requires Enabled(w, step)
  {
    match step
    case Handle =>
      var m := w.queue[0];
      var made := if w.server.state == Open then CallsFor(m) else [];
      var restarts := w.server.state == Open && m == IncomingConnection;
      w.(server := After(w.server, m), queue := w.queue[1..], calls := w.calls + made,
         watching := w.watching || restarts,
         pipe := if restarts then 0 else if Listener in made then w.pipe + CANCEL_BYTES else w.pipe,
         passedOn := w.passedOn + One(restarts))
    case Stops(d) => w.(queue := w.queue + [Reported(d)], stopped := w.stopped + {d})
    case ListenerReplies(reply) =>
      w.(queue := w.queue + [if reply.WatchCancelled? then ListenerCancelled else IncomingConnection], watching := false,
         pipe := if reply.WatchCancelled? then 0 else w.pipe, reported := w.reported + One(!reply.WatchCancelled?))
    case Arrives(m) => w.(queue := w.queue + [m])
  }

  /** The listener has been told to watch for connections. */
  function Initial(): World { World(Server(Open, ALL), [], [], {}, true, 0, 0, 0) }

  ghost predicate Run(w: World, steps: seq<Step>, v: World)
    decreases |steps|
  {
    if steps == [] then w == v
    else Enabled(w, steps[0]) && Run(Next(w, steps[0]), steps[1..], v)
  }

  ghost predicate Reachable(w: World) { exists steps :: Run(Initial(), steps, w) }

  /** Reports are queued once by those that have stopped, and who is open is who has not been heard of. */
  ghost predicate ReportsInv(w: World) {
    && (forall i :: 0 <= i < |w.queue| && w.queue[i].Reported? ==> w.queue[i].d in w.stopped && w.queue[i].d in w.server.open)
    && (forall i, j :: 0 <= i < j < |w.queue| && w.queue[i].Reported? && w.queue[j].Reported? ==> w.queue[i].d != w.queue[j].d)
    && (forall d :: d in w.server.open && d in w.stopped ==> Reported(d) in w.queue)
    && (forall d: Dependant :: d !in w.server.open ==> d in w.stopped)
  }

  ghost predicate CallsInv(w: World) {
    && (w.server.state == Open ==> w.server.open == ALL && w.calls == [] && ListenerCancelled !in w.queue && w.pipe == 0)
    && (w.server.state == Closing ==> w.server.open != {})
    && (w.server.state == Closed ==> w.server.open == {})
    && (w.server.state != Open ==>
          && (forall d :: d in w.server.open ==> multiset(w.calls)[d] == 1)
          && (forall d: Dependant :: multiset(w.calls)[d] <= 1)
          && |w.calls| >= 2)
  }

  /** Connections that the listener has reported and the server has not yet seen. */
  function Incoming(queue: seq<Message>): nat {
    if queue == [] then 0 else One(queue[0] == IncomingConnection) + Incoming(queue[1..])
  }

  lemma {:induction false} IncomingAppend(queue: seq<Message>, m: Message)
    ensures Incoming(queue + [m]) == Incoming(queue) + One(m == IncomingConnection)
  {
    if queue == [] {
      assert queue + [m] == [m];
    } else {
      assert (queue + [m])[1..] == queue[1..] + [m];
      IncomingAppend(queue[1..], m);
    }
  }

  ghost predicate ListeningInv(w: World) {
    w.server.state == Open ==>
      && One(w.watching) + Incoming(w.queue) == 1
      && w.passedOn + Incoming(w.queue) == w.reported
  }

  lemma StepKeepsListening(w: World, step: Step)
    requires CallsInv(w) && ListeningInv(w) && Enabled(w, step)
    ensures ListeningInv(Next(w, step))
  {
    match step
    case Handle =>
      assert CallsFor(IncomingConnection) == [];
    case Stops(d) => IncomingAppend(w.queue, Reported(d));
    case ListenerReplies(reply) =>
      IncomingAppend(w.queue, if reply.WatchCancelled? then ListenerCancelled else IncomingConnection);
    case Arrives(m) => IncomingAppend(w.queue, m);
  }

  lemma HandleKeepsReports(w: World)
    requires ReportsInv(w) && Enabled(w, Handle)
    requires w.queue[0].Reported? && w.server.state == Open ==> CallsFor(w.queue[0]) != []
    ensures ReportsInv(Next(w, Handle))
  {
  }

  lemma StepKeepsReports(w: World, step: Step)
    requires ReportsInv(w) && CallsInv(w) && Enabled(w, step)
    ensures ReportsInv(Next(w, step))
  {
    match step
    case Handle => HandleKeepsReports(w);
    case Stops(d) =>
      assert Next(w, step).queue[|w.queue|] == Reported(d);
      assert forall m :: m in w.queue ==> m in Next(w, step).queue;
    case _ =>
      assert forall x :: x in w.queue ==> x in Next(w, step).queue;
  }

  lemma StepKeepsCalls(w: World, step: Step)
    requires ReportsInv(w) && CallsInv(w) && Enabled(w, step)
    ensures CallsInv(Next(w, step))
  {
    var v := Next(w, step);
    if step.Handle? {
      assert w.calls + [] == w.calls;
      if w.server.state == Open && (w.queue[0] in {Close, ListenerError} || w.queue[0].Reported?) {
        LeavesOpen(w);
      }
      assert forall m :: m in v.queue ==> m in w.queue;
    }
  }

  lemma AllOfThem(d: Dependant)
    ensures d in ALL
  {
  }

  lemma CallsCount(m: Message, d: Dependant)
    requires CallsFor(m) != []
    ensures multiset(CallsFor(m))[d] == if m.Reported? && m.d == d then 0 else 1
  {
  }

  /** On leaving the open state, every dependant still open gets its one call. */
  lemma LeavesOpen(w: World)
    requires CallsInv(w) && Enabled(w, Handle) && w.server.state == Open
    requires w.queue[0] in {Close, ListenerError} || w.queue[0].Reported?
    ensures var v := Next(w, Handle);
      && v.server.state == Closing && v.server.open != {} && |v.calls| >= 2
      && forall d: Dependant :: multiset(v.calls)[d] == if d in v.server.open then 1 else 0
  {
    var m, v := w.queue[0], Next(w, Handle);
    assert v.calls == CallsFor(m);
    forall d: Dependant
      ensures multiset(v.calls)[d] == if d in v.server.open then 1 else 0
    {
      AllOfThem(d);
      CallsCount(m, d);
    }
    assert v.calls[0] in v.server.open;
  }

  lemma {:induction false} RunKeepsInv(w: World, steps: seq<Step>, v: World)
    requires ReportsInv(w) && CallsInv(w) && ListeningInv(w) && Run(w, steps, v)
    ensures ReportsInv(v) && CallsInv(v) && ListeningInv(v)
    decreases |steps|
  {
    hide ReportsInv, CallsInv, ListeningInv;
    if steps != [] {
      StepKeepsListening(w, steps[0]);
      StepKeepsReports(w, steps[0]);
      StepKeepsCalls(w, steps[0]);
      RunKeepsInv(Next(w, steps[0]), steps[1..], v);
    }
  }

  lemma ReachableInv(w: World)
    requires Reachable(w)
    ensures ReportsInv(w) && CallsInv(w) && ListeningInv(w)
  {
    var steps :| Run(Initial(), steps, w);
    forall d: Dependant
      ensures d in Initial().server.open
    {
      AllOfThem(d);
    }
    RunKeepsInv(Initial(), steps, w);
  }

  // ---------------------------------------------------------------- the theorems

  /** The open server starts to close on exactly five messages: a CLOSE, the listener's error, and a report
      from any of the three. By then each of them that has not reported has been told once, in the order of
      the code; and no other message tells anybody. */
  lemma LeavesOpenExactly(w: World)
    requires Reachable(w) && Enabled(w, Handle) && w.server.state == Open
    ensures var m, v := w.queue[0], Next(w, Handle);
      && (v.server.state != Open <==> m == Close || m == ListenerError || m.Reported?)
      && (m == Close || m == ListenerError ==> v.server == Server(Closing, ALL) && v.calls == [Clients, Listener, Auth])
      && (m.Reported? ==> v.server == Server(Closing, ALL - {m.d}))
      && (m == Reported(Clients) ==> v.calls == [Auth, Listener])
      && (m == Reported(Listener) ==> v.calls == [Clients, Auth])
      && (m == Reported(Auth) ==> v.calls == [Clients, Listener])
      && (v.server.state == Open ==> v.server == w.server && v.calls == [])
  {
    ReachableInv(w);
    assert forall calls: seq<Dependant> :: [] + calls == calls;
  }

  /** As long as the server is open it goes on listening: a watch is unanswered, or its answer is on the way;
      and every connection reported is passed on once, in its turn. */
  lemma KeepsListening(w: World)
    requires Reachable(w) && w.server.state == Open
    ensures w.watching <==> Incoming(w.queue) == 0
    ensures Incoming(w.queue) <= 1 && w.passedOn + Incoming(w.queue) == w.reported
  {
    ReachableInv(w);
  }

  /** No dependant is ever told to close twice; none is while the server is open; and once it is not, all
      have been that are still open, leaving out at most one: the one whose report closed the server. */
  lemma EachClosedOnce(w: World, d: Dependant)
    requires Reachable(w)
    ensures multiset(w.calls)[d] <= 1
    ensures w.server.state == Open ==> multiset(w.calls)[d] == 0
    ensures w.server.state != Open && d in w.server.open ==> multiset(w.calls)[d] == 1
    ensures w.server.state != Open ==> |w.calls| >= 2
  {
    ReachableInv(w);
  }

  /** The server is closed exactly when it has heard from all three. */
  lemma ClosedIffAllReported(w: World)
    requires Reachable(w)
    ensures w.server.state == Closed <==> forall d: Dependant :: d in w.stopped && Reported(d) !in w.queue
  {
    ReachableInv(w);
    forall d: Dependant
      ensures d in w.stopped && Reported(d) !in w.queue <==> d !in w.server.open
    {
    }
    if w.server.open != {} {
      var d :| d in w.server.open;
    }
    assert w.server.state == Open ==> Auth in w.server.open;
  }

  /** Once all three have stopped and the queue is drained, the server is closed: no order of events leaves
      it waiting. */
  lemma ShutdownCompletes(w: World)
    requires Reachable(w) && w.stopped == ALL && w.queue == []
    ensures w.server.state == Closed
  {
    ClosedIffAllReported(w);
    forall d: Dependant
      ensures d in ALL
    {
      AllOfThem(d);
    }
  }

  /** The open server's assert against a cancelled watch is never reached: nobody interrupts the listener
      before it is closed, so until then none of its watches is answered as cancelled. */
  lemma NeverCancelledWhileOpen(w: World)
    requires Reachable(w) && w.server.state == Open
    ensures ListenerCancelled !in w.queue
  {
    ReachableInv(w);
  }
}
