/** The connection thread and its watcher thread, running concurrently. They share the connection's
    message queue, the watcher's command queue and the cancel pipe. Each step below is one action that
    the mutexes or the queues make atomic, so every interleaving of the two threads and of the users'
    calls is a run. */
module WatchProtocol {
  import opened ChatEvent
  import opened ChatEventIo
  import opened NetworkWatcher
  import opened ChatConnection

  /** Where the connection's thread is: start_watch and close touch the pipe first and queue their
      command in a later step. */
  datatype ConnectionAt = AtGet | QueueingWatch(modes: Modes) | QueueingStop | Exited

  /** Where the watcher's thread is. */
  datatype WatcherAt =
    | Waiting
    | Polling(modes: Modes)
    | Draining                // poll saw the pipe; it is not emptied yet
    | Replying(reply: Reply)  // about to queue a reply to a watch
    | Leaving                 // the loop has ended; about to report it
    | Halted

  datatype System = System(
    connection: Connection,
    connectionAt: ConnectionAt,
    inbox: seq<Message>,
    commands: seq<Command>,
    pipe: nat,
    watcherAt: WatcherAt,
    accepted: seq<Event>,     // events taken by QUEUE_EVENT handling
    sent: seq<Event>,         // events fully written
    closedReports: nat)       // CLOSED callbacks made

  datatype Step =
    | UserCall(message: Message)
    | ConnectionHandle(io: Io)
    | ConnectionQueues
    | ConnectionExits
    | WatcherTakes
    | PollReports(reply: Reply)
    | WatcherDrains
    | WatcherReplies

  /** The thread has just started: fsm_cblk_init is inside its first start_watch. */
  function Initial(): System {
    System(Connection(Reading, Ready, []), QueueingWatch(READ), [], [], 0, Waiting, [], [], 0)
  }

  predicate IsReply(m: Message) {
    m.FromWatcher? && (m.reply.WatchComplete? || m.reply.WatchCancelled?)
  }

  ghost predicate Enabled(s: System, step: Step) {
    match step
    case UserCall(m) => !m.FromWatcher?
    case ConnectionHandle(_) =>
      s.connectionAt == AtGet && s.connection.state != State.Closed && s.inbox != [] && s.connection.Valid()
    case ConnectionQueues => s.connectionAt.QueueingWatch? || s.connectionAt.QueueingStop?
    case ConnectionExits => s.connectionAt == AtGet && s.connection.state == State.Closed
    case WatcherTakes => s.watcherAt == Waiting && s.commands != []
    case PollReports(reply) => s.watcherAt.Polling? && PollMayReport(s.watcherAt.modes, s.pipe, reply)
    case WatcherDrains => s.watcherAt == Draining
    case WatcherReplies => s.watcherAt.Replying? || s.watcherAt == Leaving
  }

  ghost function Next(s: System, step: Step): System
    requires Enabled(s, step)
  {
    match step
    case UserCall(m) => s.(inbox := s.inbox + [m])
    case ConnectionHandle(io) =>
      var m := s.inbox[0];
      var o := Handle(s.connection, m, io);
      var t := s.(connection := o.connection, inbox := s.inbox[1..],
                  accepted := s.accepted + Accepts(s.connection, m), sent := s.sent + o.sent);
      (match o.call
       case NoCall => t
       case StartWatch(modes) => t.(pipe := 0, connectionAt := QueueingWatch(modes))
       case CancelWatch => t.(pipe := s.pipe + CANCEL_BYTES)
       case CloseWatcher => t.(pipe := s.pipe + CANCEL_BYTES, connectionAt := QueueingStop))
    case ConnectionQueues =>
      s.(connectionAt := AtGet,
         commands := s.commands + [if s.connectionAt.QueueingStop? then Stop else Watch(s.connectionAt.modes)])
    case ConnectionExits => s.(connectionAt := Exited, closedReports := s.closedReports + 1)
    case WatcherTakes =>
      s.(commands := s.commands[1..],
         watcherAt := if s.commands[0].Stop? then Leaving else Polling(s.commands[0].modes))
    case PollReports(reply) => s.(watcherAt := if reply.WatchCancelled? then Draining else Replying(reply))
    case WatcherDrains => s.(pipe := 0, watcherAt := Replying(WatchCancelled))
    case WatcherReplies =>
      if s.watcherAt == Leaving then
        s.(inbox := s.inbox + [FromWatcher(WatcherClosed)], watcherAt := Halted)
      else
        s.(inbox := s.inbox + [FromWatcher(s.watcherAt.reply)], watcherAt := Waiting)
  }

  /** `t` is what a run of `steps` from `s` ends in. */
  ghost predicate Run(s: System, steps: seq<Step>, t: System)
    decreases |steps|
  {
    if steps == [] then s == t
    else Enabled(s, steps[0]) && Run(Next(s, steps[0]), steps[1..], t)
  }

  ghost predicate Reachable(s: System) { exists steps :: Run(Initial(), steps, s) }

  // ---------------------------------------------------------------- counting what is in flight

  function One(b: bool): nat { if b then 1 else 0 }

  function Replies(inbox: seq<Message>): nat {
    if inbox == [] then 0 else One(IsReply(inbox[0])) + Replies(inbox[1..])
  }

  function ClosedNotices(inbox: seq<Message>): nat {
    if inbox == [] then 0 else One(inbox[0] == FromWatcher(WatcherClosed)) + ClosedNotices(inbox[1..])
  }

  lemma {:induction false} CountsAppend(inbox: seq<Message>, m: Message)
    ensures Replies(inbox + [m]) == Replies(inbox) + One(IsReply(m))
    ensures ClosedNotices(inbox + [m]) == ClosedNotices(inbox) + One(m == FromWatcher(WatcherClosed))
  {
    if inbox == [] {
      assert inbox + [m] == [m];
    } else {
      assert (inbox + [m])[1..] == inbox[1..] + [m];
      CountsAppend(inbox[1..], m);
    }
  }

  lemma {:induction false} CountsZero(inbox: seq<Message>)
    ensures Replies(inbox) == 0 <==> forall m :: m in inbox ==> !IsReply(m)
    ensures ClosedNotices(inbox) == 0 <==> FromWatcher(WatcherClosed) !in inbox
  {
    if inbox != [] {
      CountsZero(inbox[1..]);
      assert forall m :: m in inbox <==> m == inbox[0] || m in inbox[1..];
    }
  }

  /** Watches asked for and not yet answered to the connection: at the head of the queue, being queued,
      polled or replied. Behind the head there are none (`ShortQueue`). */
  function InFlight(s: System): nat {
    One(s.connectionAt.QueueingWatch?)
    + One(s.commands != [] && s.commands[0].Watch?)
    + One(s.watcherAt.Polling? || s.watcherAt.Draining? || s.watcherAt.Replying?)
    + Replies(s.inbox)
  }

  /** The one close request, wherever it is on its way to the watcher and back. */
  function Stopping(s: System): nat {
    One(s.connectionAt.QueueingStop?)
    + One(s.commands != [] && s.commands[|s.commands| - 1] == Stop)
    + One(s.watcherAt == Leaving)
    + ClosedNotices(s.inbox)
  }

  /** At most one watch and after it at most one stop. */
  predicate ShortQueue(commands: seq<Command>) {
    || commands == []
    || (|commands| == 1)
    || (|commands| == 2 && commands[0].Watch? && commands[1] == Stop)
  }

  predicate NoWrite(modes: Modes) { !modes.write }

  /** Whatever watch is in flight does not ask, or did not find the descriptor ready, for writing. */
  ghost predicate NoWriteInFlight(s: System) {
    && (s.connectionAt.QueueingWatch? ==> NoWrite(s.connectionAt.modes))
    && (s.commands != [] && s.commands[0].Watch? ==> NoWrite(s.commands[0].modes))
    && (s.watcherAt.Polling? ==> NoWrite(s.watcherAt.modes))
    && (s.watcherAt.Replying? && s.watcherAt.reply.WatchComplete? ==> NoWrite(s.watcherAt.reply.ready))
    && (forall m :: m in s.inbox && m.FromWatcher? && m.reply.WatchComplete? ==> NoWrite(m.reply.ready))
  }

  /** The cancel request has been answered, or the answer is on its way. */
  ghost predicate CancelAnswered(s: System) {
    s.watcherAt == Replying(WatchCancelled) || FromWatcher(WatchCancelled) in s.inbox
  }

  // ---------------------------------------------------------------- the invariant

  ghost predicate ShapeInv(s: System) {
    && s.connection.Valid()
    && s.connection.state != Init
    && ShortQueue(s.commands)
    && InFlight(s) <= 1
    && Stopping(s) == One(s.connection.state == Closing)
    && (s.watcherAt == Halted <==>
          s.connection.state == State.Closed || FromWatcher(WatcherClosed) in s.inbox)
    && (s.watcherAt == Leaving || s.watcherAt == Halted ==> s.commands == [])
    && (s.watcherAt.Replying? ==> !s.watcherAt.reply.WatcherClosed?)
    && (s.connectionAt.QueueingWatch? ==>
          s.connection.state in {Reading, ReadingWriting, Flushing} && s.pipe == 0)
    && (s.connectionAt.QueueingStop? ==> s.connection.state == Closing)
    && (s.connectionAt == Exited ==> s.connection.state == State.Closed)
    && s.closedReports == One(s.connectionAt == Exited)
  }

  ghost predicate StateInv(s: System) {
    match s.connection.state
    case Reading => InFlight(s) == 1 && s.pipe == 0 && !s.watcherAt.Draining? && !CancelAnswered(s) && NoWriteInFlight(s)
    case ReadingWriting => InFlight(s) == 1 && s.pipe == 0 && !s.watcherAt.Draining? && !CancelAnswered(s)
    case Cancelling =>
      && s.connection.events != []
      && NoWriteInFlight(s)
      && s.pipe == (if CancelAnswered(s) then 0 else CANCEL_BYTES)
    case Flushing => s.pipe <= CANCEL_BYTES
    case Closing =>
      && s.pipe <= 2 * CANCEL_BYTES
      && (s.watcherAt.Polling? || s.watcherAt.Draining? || (s.commands != [] && s.commands[0].Watch?) ==> s.pipe > 0)
    case _ => s.pipe <= 2 * CANCEL_BYTES
  }

  ghost predicate Conserved(s: System) {
    s.accepted == s.sent + s.connection.Unsent()
  }

  ghost predicate Inv(s: System) { ShapeInv(s) && StateInv(s) && Conserved(s) }

  lemma InitialInv()
    ensures Inv(Initial())
  {
  }

  lemma UserCallKeepsInv(s: System, m: Message)
    requires Inv(s) && Enabled(s, UserCall(m))
    ensures Inv(Next(s, UserCall(m)))
  {
    CountsAppend(s.inbox, m);
  }

  lemma WatcherTakesKeepsInv(s: System)
    requires Inv(s) && Enabled(s, WatcherTakes)
    ensures Inv(Next(s, WatcherTakes))
  {
    CountsZero(s.inbox);
  }

  lemma PollReportsKeepsInv(s: System, reply: Reply)
    requires Inv(s) && Enabled(s, PollReports(reply))
    ensures Inv(Next(s, PollReports(reply)))
  {
    CountsZero(s.inbox);
  }

  lemma WatcherDrainsKeepsInv(s: System)
    requires Inv(s) && Enabled(s, WatcherDrains)
    ensures Inv(Next(s, WatcherDrains))
  {
  }

  lemma WatcherRepliesKeepsInv(s: System)
    requires Inv(s) && Enabled(s, WatcherReplies)
    ensures Inv(Next(s, WatcherReplies))
  {
    CountsZero(s.inbox);
    CountsAppend(s.inbox, FromWatcher(if s.watcherAt == Leaving then WatcherClosed else s.watcherAt.reply));
  }

  lemma ConnectionQueuesKeepsInv(s: System)
    requires Inv(s) && Enabled(s, ConnectionQueues)
    ensures Inv(Next(s, ConnectionQueues))
  {
    CountsZero(s.inbox);
  }

  lemma ConnectionExitsKeepsInv(s: System)
    requires Inv(s) && Enabled(s, ConnectionExits)
    ensures Inv(Next(s, ConnectionExits))
  {
  }

  lemma HandleKeepsEvents(s: System, io: Io)
    requires Inv(s) && Enabled(s, ConnectionHandle(io))
    ensures Conserved(Next(s, ConnectionHandle(io)))
  {
    var c, m := s.connection, s.inbox[0];
    var o := Handle(c, m, io);
    HandleConserves(c, m, io);
    assert s.sent + c.Unsent() + Accepts(c, m) == s.sent + (c.Unsent() + Accepts(c, m))
           == s.sent + (o.sent + o.connection.Unsent()) == s.sent + o.sent + o.connection.Unsent();
  }

  lemma CompleteKeepsShape(s: System, io: Io)
    requires Inv(s) && Enabled(s, ConnectionHandle(io))
    requires s.inbox[0].FromWatcher? && s.inbox[0].reply.WatchComplete?
    ensures ShapeInv(Next(s, ConnectionHandle(io)))
  {
    hide Conserved, WriteReady;
    assert s.commands == [] || s.commands == [Stop];
  }

  lemma CompleteKeepsState(s: System, io: Io)
    requires Inv(s) && Enabled(s, ConnectionHandle(io))
    requires s.inbox[0].FromWatcher? && s.inbox[0].reply.WatchComplete?
    ensures StateInv(Next(s, ConnectionHandle(io)))
  {
    hide Conserved, ClosedNotices, WriteReady;
    CountsZero(s.inbox[1..]);
    assert s.inbox[0] in s.inbox;
    assert s.commands == [] || s.commands == [Stop];
  }

  lemma CancelledKeepsInv(s: System, io: Io)
    requires Inv(s) && Enabled(s, ConnectionHandle(io))
    requires s.inbox[0] == FromWatcher(WatchCancelled)
    ensures ShapeInv(Next(s, ConnectionHandle(io))) && StateInv(Next(s, ConnectionHandle(io)))
  {
    CountsZero(s.inbox[1..]);
    assert s.inbox[0] in s.inbox;
    assert s.commands == [] || s.commands == [Stop];
  }

  lemma WatcherClosedKeepsInv(s: System, io: Io)
    requires Inv(s) && Enabled(s, ConnectionHandle(io))
    requires s.inbox[0] == FromWatcher(WatcherClosed)
    ensures ShapeInv(Next(s, ConnectionHandle(io))) && StateInv(Next(s, ConnectionHandle(io)))
  {
    CountsZero(s.inbox[1..]);
    assert s.inbox[0] in s.inbox;
    assert s.connection.state == Closing && s.connectionAt == AtGet;
  }

  /** Messages from outside do not matter while they wait. */
  lemma DroppedCallKeepsInv(s: System)
    requires Inv(s) && s.inbox != [] && !s.inbox[0].FromWatcher?
    ensures Inv(s.(inbox := s.inbox[1..]))
  {
    assert s.inbox == [s.inbox[0]] + s.inbox[1..];
    assert forall r :: FromWatcher(r) in s.inbox <==> FromWatcher(r) in s.inbox[1..];
  }

  lemma QueueEventKeepsInv(s: System, io: Io)
    requires Inv(s) && Enabled(s, ConnectionHandle(io))
    requires s.inbox[0].QueueEvent?
    ensures ShapeInv(Next(s, ConnectionHandle(io))) && StateInv(Next(s, ConnectionHandle(io)))
  {
    DroppedCallKeepsInv(s);
    CountsZero(s.inbox[1..]);
  }

  lemma CloseCallKeepsInv(s: System, io: Io)
    requires Inv(s) && Enabled(s, ConnectionHandle(io))
    requires s.inbox[0].Close? || s.inbox[0].CloseImmediately?
    ensures ShapeInv(Next(s, ConnectionHandle(io))) && StateInv(Next(s, ConnectionHandle(io)))
  {
    DroppedCallKeepsInv(s);
  }

  lemma StepKeepsInv(s: System, step: Step)
    requires Inv(s) && Enabled(s, step)
    ensures Inv(Next(s, step))
  {
    match step
    case UserCall(m) => UserCallKeepsInv(s, m);
    case ConnectionHandle(io) =>
      HandleKeepsEvents(s, io);
      if s.inbox[0].QueueEvent? {
        QueueEventKeepsInv(s, io);
      } else if !s.inbox[0].FromWatcher? {
        CloseCallKeepsInv(s, io);
      } else if s.inbox[0].reply.WatcherClosed? {
        WatcherClosedKeepsInv(s, io);
      } else if s.inbox[0].reply.WatchComplete? {
        CompleteKeepsShape(s, io);
        CompleteKeepsState(s, io);
      } else {
        CancelledKeepsInv(s, io);
      }
    case ConnectionQueues => ConnectionQueuesKeepsInv(s);
    case ConnectionExits => ConnectionExitsKeepsInv(s);
    case WatcherTakes => WatcherTakesKeepsInv(s);
    case PollReports(reply) => PollReportsKeepsInv(s, reply);
    case WatcherDrains => WatcherDrainsKeepsInv(s);
    case WatcherReplies => WatcherRepliesKeepsInv(s);
  }

  lemma {:induction false} RunKeepsInv(s: System, steps: seq<Step>, t: System)
    requires Inv(s) && Run(s, steps, t)
    ensures Inv(t)
    decreases |steps|
  {
    if steps != [] {
      StepKeepsInv(s, steps[0]);
      RunKeepsInv(Next(s, steps[0]), steps[1..], t);
    }
  }

  lemma ReachableInv(s: System)
    requires Reachable(s)
    ensures Inv(s)
  {
    var steps :| Run(Initial(), steps, s);
    RunKeepsInv(Initial(), steps, s);
  }

  // ---------------------------------------------------------------- safety over every run

  function Watches(commands: seq<Command>): nat {
    if commands == [] then 0 else One(commands[0].Watch?) + Watches(commands[1..])
  }

  function Stops(commands: seq<Command>): nat {
    if commands == [] then 0 else One(commands[0].Stop?) + Stops(commands[1..])
  }

  /** All the watches asked for and not yet answered: every one in the queue, the one being queued, the one
      being polled, and the replies the connection has not handled. */
  function Outstanding(s: System): nat {
    One(s.connectionAt.QueueingWatch?) + Watches(s.commands)
    + One(s.watcherAt.Polling? || s.watcherAt.Draining? || s.watcherAt.Replying?)
    + Replies(s.inbox)
  }

  lemma ShortQueueCounts(commands: seq<Command>)
    requires ShortQueue(commands)
    ensures Watches(commands) == One(commands != [] && commands[0].Watch?)
    ensures Stops(commands) == One(commands != [] && commands[|commands| - 1] == Stop)
  {
    if |commands| == 2 {
      assert commands[1..] == [Stop];
    }
  }

  /** At most one watch is ever outstanding, exactly one while the connection just reads and writes, and
      then no interrupt is pending; the command queue never holds more than a watch and the stop behind it,
      of its eight slots, nor the pipe more than two interrupts. */
  lemma SingleWatch(s: System)
    requires Reachable(s)
    ensures Outstanding(s) <= 1
    ensures s.connection.state in {Reading, ReadingWriting} ==> Outstanding(s) == 1 && s.pipe == 0
    ensures Watches(s.commands) <= 1 && Stops(s.commands) <= 1 && |s.commands| <= 2
    ensures |s.commands| == 2 ==> s.commands[0].Watch? && s.commands[1].Stop?
    ensures s.pipe <= 2 * CANCEL_BYTES
    ensures s.connectionAt.QueueingWatch? || s.connectionAt.QueueingStop? ==> |s.commands| <= 1
  {
    ReachableInv(s);
    ShortQueueCounts(s.commands);
  }

  /** The branches the code marks as unreachable, or writes as a no-op, are never taken. */
  lemma DeadBranches(s: System, io: Io)
    requires Reachable(s) && Enabled(s, ConnectionHandle(io))
    ensures s.connection.state !in {Init, State.Closed}
    ensures s.inbox[0] == FromWatcher(WatcherClosed) ==> s.connection.state == Closing
    ensures s.inbox[0] == FromWatcher(WatchCancelled) ==> s.connection.state !in {Reading, ReadingWriting}
    ensures s.connection.state == Cancelling && s.inbox[0] == FromWatcher(WatchCancelled) ==> s.connection.events != []
    ensures s.connection.state == Cancelling && s.inbox[0].FromWatcher? && s.inbox[0].reply.WatchComplete? ==>
      NoWrite(s.inbox[0].reply.ready)
  {
    ReachableInv(s);
    CountsZero(s.inbox);
  }

  /** Outgoing events are neither lost, duplicated nor reordered on their way to the descriptor. */
  lemma OutgoingConserved(s: System)
    requires Reachable(s)
    ensures s.accepted == s.sent + s.connection.Unsent()
  {
    ReachableInv(s);
  }

  // ---------------------------------------------------------------- closing

  /** The watcher's own steps still ahead of it once its connection is closing. */
  function StepsToHalt(s: System): nat {
    (match s.watcherAt
     case Polling(_) => 3
     case Draining => 2
     case Replying(_) => 1
     case Leaving => 1
     case _ => 0)
    + (if s.commands != [] && s.commands[0].Watch? then 4 else 0)
    + (if s.commands != [] && s.commands[|s.commands| - 1] == Stop then 2 else 0)
  }

  predicate WatcherStep(step: Step) {
    step.WatcherTakes? || step.PollReports? || step.WatcherDrains? || step.WatcherReplies?
  }

  predicate ConnectionStep(step: Step) {
    step.ConnectionHandle? || step.ConnectionQueues? || step.ConnectionExits?
  }

  function Position(inbox: seq<Message>, m: Message): (i: nat)
    requires m in inbox
    ensures i < |inbox| && inbox[i] == m && m !in inbox[..i]
  {
    if inbox[0] == m then 0 else 1 + Position(inbox[1..], m)
  }

  lemma PositionAppend(inbox: seq<Message>, m: Message, last: Message)
    requires m in inbox
    ensures Position(inbox + [last], m) == Position(inbox, m)
  {
    if inbox[0] != m {
      assert (inbox + [last])[1..] == inbox[1..] + [last];
      PositionAppend(inbox[1..], m, last);
    }
  }

  const CLOSED_NOTICE := FromWatcher(WatcherClosed)

  /** The connection's own steps from the watcher's last notice to its own exit. */
  function StepsToExit(s: System): nat {
    if CLOSED_NOTICE in s.inbox then Position(s.inbox, CLOSED_NOTICE) + 2
    else if s.connection.state == State.Closed && s.connectionAt != Exited then 1
    else 0
  }

  /** The connection has asked for the close, and its request is in the watcher's queue or beyond. */
  ghost predicate StopQueued(s: System) {
    s.connection.state in {Closing, State.Closed} && !s.connectionAt.QueueingStop?
  }

  /** The watcher is never stuck on the way: an interrupt is waiting for whatever watch is ahead of the
      stop, so it has a step until it has halted. */
  lemma WatcherNotStuck(s: System)
    requires Inv(s) && StopQueued(s)
    ensures s.watcherAt != Halted <==> StepsToHalt(s) > 0
    ensures StepsToHalt(s) > 0 ==>
      || Enabled(s, WatcherTakes) || Enabled(s, PollReports(WatchCancelled))
      || Enabled(s, WatcherDrains) || Enabled(s, WatcherReplies)
    ensures StepsToHalt(s) <= 6
  {
    CountsZero(s.inbox);
  }

  /** Each of its steps brings the halt closer by one, and nobody else's step defers it. */
  lemma WatcherHalts(s: System, step: Step)
    requires Inv(s) && StopQueued(s) && Enabled(s, step)
    ensures StopQueued(Next(s, step))
    ensures StepsToHalt(Next(s, step)) == StepsToHalt(s) - One(WatcherStep(step))
  {
    CountsZero(s.inbox);
  }

  function WatcherSteps(steps: seq<Step>): nat {
    if steps == [] then 0 else One(WatcherStep(steps[0])) + WatcherSteps(steps[1..])
  }

  /** Over any schedule, then, the watcher takes at most six more steps and halts with the last of them. */
  lemma {:induction false} CloseReachesHalt(s: System, steps: seq<Step>, t: System)
    requires Inv(s) && StopQueued(s) && Run(s, steps, t)
    ensures StepsToHalt(t) == StepsToHalt(s) - WatcherSteps(steps)
    ensures WatcherSteps(steps) <= 6
    ensures t.watcherAt == Halted <==> WatcherSteps(steps) == StepsToHalt(s)
    decreases |steps|
  {
    WatcherNotStuck(s);
    if steps != [] {
      StepKeepsInv(s, steps[0]);
      WatcherHalts(s, steps[0]);
      CloseReachesHalt(Next(s, steps[0]), steps[1..], t);
    }
  }

  /** Once the watcher has halted its notice is in the queue, and the same holds of the connection. */
  lemma ConnectionExitsOnce(s: System, step: Step)
    requires Inv(s) && s.watcherAt == Halted && Enabled(s, step)
    ensures StepsToExit(s) > 0 <==> s.connectionAt != Exited
    ensures s.closedReports == One(s.connectionAt == Exited)
    ensures StepsToExit(s) > 0 ==> Enabled(s, ConnectionHandle(Io([], false))) || Enabled(s, ConnectionExits)
    ensures Next(s, step).watcherAt == Halted
    ensures StepsToExit(Next(s, step)) == StepsToExit(s) - One(ConnectionStep(step))
  {
    CountsZero(s.inbox);
    match step
    case UserCall(m) =>
      if CLOSED_NOTICE in s.inbox {
        PositionAppend(s.inbox, CLOSED_NOTICE, m);
      }
    case ConnectionHandle(io) => CountsZero(s.inbox[1..]);
    case _ =>
  }

  // ---------------------------------------------------------------- flushing before the close

  ghost predicate NoForcedClose(s: System) { CloseImmediately !in s.inbox }

  /** From FLUSHING on, nothing more is accepted, and the connection closes only behind a full flush. */
  ghost predicate FlushedOrFlushing(s: System, accepted: seq<Event>) {
    && s.accepted == accepted
    && NoForcedClose(s)
    && (s.connection.state == Flushing || (s.connection.state in {Closing, State.Closed} && s.sent == accepted))
  }

  lemma NotClosedWhileLive(s: System)
    requires Inv(s) && s.connection.Live()
    ensures FromWatcher(WatcherClosed) !in s.inbox
  {
    CountsZero(s.inbox);
  }

  lemma FlushStep(s: System, step: Step, accepted: seq<Event>)
    requires Inv(s) && Enabled(s, step) && step != UserCall(CloseImmediately)
    requires FlushedOrFlushing(s, accepted)
    ensures FlushedOrFlushing(Next(s, step), accepted)
  {
    if step.ConnectionHandle? {
      FlushHandleStep(s, step.io, accepted);
    }
  }

  lemma FlushHandleStep(s: System, io: Io, accepted: seq<Event>)
    requires Inv(s) && Enabled(s, ConnectionHandle(io)) && FlushedOrFlushing(s, accepted)
    ensures FlushedOrFlushing(Next(s, ConnectionHandle(io)), accepted)
  {
    hide InFlight, Stopping, Replies, ClosedNotices, WriteReady, ShortQueue, StateInv;
    var v := Next(s, ConnectionHandle(io));
    assert s.inbox[0] in s.inbox;
    assert NoForcedClose(v);
    HandleKeepsEvents(s, io);
    if s.connection.state == Flushing {
      NotClosedWhileLive(s);
      FlushingHandles(s.connection, s.inbox[0], io);
      assert v.accepted == s.accepted;
      if v.connection.state == Closing {
        assert v.connection.Unsent() == [] && v.sent + [] == v.sent;
      }
    } else {
      assert v.accepted == s.accepted && v.sent == s.sent;
      assert v.connection.state in {Closing, State.Closed};
    }
  }

  /** A CLOSE that finds the connection writing or cancelling flushes: unless somebody forces the close,
      every run that gets to CLOSING or CLOSED has by then written every event ever accepted. */
  lemma {:induction false} FlushBeforeClose(s: System, steps: seq<Step>, t: System)
    requires Inv(s) && s.connection.state == Flushing && NoForcedClose(s)
    requires Run(s, steps, t) && UserCall(CloseImmediately) !in steps
    ensures t.connection.state in {Flushing, Closing, State.Closed}
    ensures t.accepted == s.accepted
    ensures t.connection.state != Flushing ==> t.sent == t.accepted
  {
    FlushRun(s, steps, t, s.accepted);
  }

  lemma {:induction false} FlushRun(s: System, steps: seq<Step>, t: System, accepted: seq<Event>)
    requires Inv(s) && FlushedOrFlushing(s, accepted)
    requires Run(s, steps, t) && UserCall(CloseImmediately) !in steps
    ensures FlushedOrFlushing(t, accepted)
    decreases |steps|
  {
    if steps != [] {
      assert steps[0] in steps;
      FlushStep(s, steps[0], accepted);
      StepKeepsInv(s, steps[0]);
      FlushRun(Next(s, steps[0]), steps[1..], t, accepted);
    }
  }

  function WorkLeft(s: System): nat
    requires s.connection.Valid()
  {
    Work(s.connection.writer, s.connection.events)
  }

  /** While flushing, the remaining work never grows, and it shrinks with every write-ready wake. */
  lemma FlushProgresses(s: System, step: Step)
    requires Inv(s) && Enabled(s, step) && s.connection.state == Flushing
    ensures Next(s, step).connection.Valid() && WorkLeft(Next(s, step)) <= WorkLeft(s)
    ensures step.ConnectionHandle? && s.inbox[0].FromWatcher? && s.inbox[0].reply.WatchComplete?
            && s.inbox[0].reply.ready.write && Next(s, step).connection.state == Flushing ==>
      WorkLeft(Next(s, step)) < WorkLeft(s)
  {
    match step
    case ConnectionHandle(io) =>
      CountsZero(s.inbox);
      assert s.inbox[0] in s.inbox;
      if s.inbox[0] != CloseImmediately {
        FlushingHandles(s.connection, s.inbox[0], io);
        assert Next(s, step).connection.state == Closing ==> Next(s, step).connection.Unsent() == [];
      } else {
        assert Next(s, step).sent == s.sent;
      }
    case _ =>
  }

  // ---------------------------------------------------------------- when writing stops

  /** States in which the connection will write nothing: it watches for reading only, or its watch was
      answered without being renewed, or it is closing. */
  ghost predicate Mute(s: System) {
    match s.connection.state
    case Reading => true
    case ReadingWriting => NoWriteInFlight(s)
    case Cancelling => InFlight(s) == 0
    case Flushing => InFlight(s) == 0
    case _ => true
  }

  /** A new event in READING, or a CLOSE in READING_WRITING, are the only ways to be heard again. */
  ghost predicate Unmutes(s: System, step: Step) {
    step.ConnectionHandle? && s.inbox != []
    && ((s.connection.state == Reading && s.inbox[0].QueueEvent?)
        || (s.connection.state == ReadingWriting && s.inbox[0].Close?))
  }

  lemma MuteHandlesReply(s: System, io: Io)
    requires Inv(s) && Mute(s) && Enabled(s, ConnectionHandle(io)) && s.inbox[0].FromWatcher?
    ensures Mute(Next(s, ConnectionHandle(io))) && Next(s, ConnectionHandle(io)).sent == s.sent
  {
    CountsZero(s.inbox);
    CountsZero(s.inbox[1..]);
    assert s.inbox[0] in s.inbox;
    assert s.connection.state in {Reading, ReadingWriting} ==>
      s.inbox[0].reply.WatchComplete? && NoWrite(s.inbox[0].reply.ready);
  }

  lemma MuteHandlesCall(s: System, io: Io)
    requires Inv(s) && Mute(s) && Enabled(s, ConnectionHandle(io)) && !s.inbox[0].FromWatcher?
    requires !Unmutes(s, ConnectionHandle(io))
    ensures Mute(Next(s, ConnectionHandle(io))) && Next(s, ConnectionHandle(io)).sent == s.sent
  {
    assert s.inbox == [s.inbox[0]] + s.inbox[1..];
    HandleWritesOnlyWhenReady(s.connection, s.inbox[0], io);
  }

  /** A mute connection writes nothing and stays mute until one of those. */
  lemma MuteStays(s: System, step: Step)
    requires Inv(s) && Mute(s) && Enabled(s, step) && !Unmutes(s, step)
    ensures Mute(Next(s, step)) && Next(s, step).sent == s.sent
  {
    CountsZero(s.inbox);
    match step
    case UserCall(m) => CountsAppend(s.inbox, m);
    case ConnectionHandle(io) =>
      if s.inbox[0].FromWatcher? {
        MuteHandlesReply(s, io);
      } else {
        MuteHandlesCall(s, io);
      }
    case WatcherReplies =>
      CountsAppend(s.inbox, FromWatcher(if s.watcherAt == Leaving then WatcherClosed else s.watcherAt.reply));
    case _ =>
  }

  lemma CallsLeaveItSpeaking(s: System, io: Io)
    requires Inv(s) && !Mute(s) && Enabled(s, ConnectionHandle(io)) && !s.inbox[0].FromWatcher?
    requires Next(s, ConnectionHandle(io)).connection.state !in {Closing, State.Closed}
    ensures !Mute(Next(s, ConnectionHandle(io)))
  {
    assert s.inbox == [s.inbox[0]] + s.inbox[1..];
  }

  lemma RepliesLeaveItSpeaking(s: System, io: Io)
    requires Inv(s) && !Mute(s) && Enabled(s, ConnectionHandle(io)) && s.inbox[0].FromWatcher?
    requires Next(s, ConnectionHandle(io)).connection.state !in {Closing, State.Closed}
    requires s.connection.state == Flushing || s.inbox[0] == FromWatcher(WatchCancelled)
    ensures !Mute(Next(s, ConnectionHandle(io)))
  {
    CountsZero(s.inbox);
    assert s.connection.state in {Cancelling, Flushing} by {
      assert s.inbox[0] in s.inbox;
    }
  }

  /** A connection that may still write goes mute only when its watch completes while it is cancelling, or
      completes without write readiness, or the wake does not leave both a busy writer and a non-empty
      queue. */
  lemma GoesMute(s: System, io: Io)
    requires Inv(s) && !Mute(s) && Enabled(s, ConnectionHandle(io))
    requires Next(s, ConnectionHandle(io)).connection.state !in {Closing, State.Closed}
    ensures var t := Next(s, ConnectionHandle(io));
      Mute(t) <==>
        && s.inbox[0].FromWatcher? && s.inbox[0].reply.WatchComplete?
        && (s.connection.state == Cancelling
            || (s.connection.state == ReadingWriting
                && (!s.inbox[0].reply.ready.write
                    || t.connection.writer.Ready? || t.connection.events == [])))
  {
    if s.inbox[0].FromWatcher? && s.inbox[0].reply.WatchComplete? && s.connection.state != Flushing {
      CountsZero(s.inbox[1..]);
      assert s.commands == [] && s.connection.state in {Cancelling, ReadingWriting};
    } else if s.inbox[0].FromWatcher? {
      CountsZero(s.inbox);
      RepliesLeaveItSpeaking(s, io);
    } else {
      CallsLeaveItSpeaking(s, io);
    }
  }

  /** Whether a wake's writes end within the last thing there is to write: an idle writer is only given the
      one queued event, or every pending event but the last is written whole and the last is not. */
  predicate StopsInLast(c: Connection, writes: seq<nat>)
    requires c.Valid()
  {
    match c.writer
    case Ready => |c.events| == 1
    case InProgress(event, written) => WholeWrites([event.Size() - written] + Sizes(c.events), writes) == |c.events|
  }

  /** Exactly when writing stops, without a close, with something left to write. The code's intent is
      never; the cases are a completion while cancelling, one without write readiness, and writes that end
      within the last pending event. */
  lemma StopsEarly(s: System, io: Io)
    requires Inv(s) && !Mute(s) && Enabled(s, ConnectionHandle(io))
    requires Next(s, ConnectionHandle(io)).connection.state !in {Closing, State.Closed}
    ensures var t := Next(s, ConnectionHandle(io));
      Mute(t) && t.connection.Pending() <==>
        && s.inbox[0].FromWatcher? && s.inbox[0].reply.WatchComplete? && s.connection.Pending()
        && (s.connection.state == Cancelling
            || (s.connection.state == ReadingWriting
                && (s.inbox[0].reply.ready.write ==> StopsInLast(s.connection, io.writes))))
  {
    GoesMute(s, io);
    if s.inbox[0].FromWatcher? && s.inbox[0].reply.WatchComplete? {
      CompletionLeaves(s, io);
    }
  }

  lemma CompletionLeaves(s: System, io: Io)
    requires Inv(s) && !Mute(s) && Enabled(s, ConnectionHandle(io))
    requires s.inbox[0].FromWatcher? && s.inbox[0].reply.WatchComplete?
    ensures var c, t := s.connection, Next(s, ConnectionHandle(io)).connection;
      && (c.state == Cancelling || (c.state == ReadingWriting && !s.inbox[0].reply.ready.write) ==>
            t.writer == c.writer && t.events == c.events)
      && (c.state == ReadingWriting && s.inbox[0].reply.ready.write ==>
            (t.Pending() && (t.writer.Ready? || t.events == []) <==> c.Pending() && StopsInLast(c, io.writes)))
  {
    hide WriteReady, InFlight, Stopping, Replies, ClosedNotices, ShortQueue;
    var c := s.connection;
    assert s.inbox[0] in s.inbox;
    if c.state == ReadingWriting && s.inbox[0].reply.ready.write {
      WriteReadyLeaves(c.writer, c.events, io.writes);
    }
  }

  ghost predicate NothingUnmutes(inbox: seq<Message>) {
    forall m :: m in inbox ==> !m.QueueEvent? && !m.Close?
  }

  lemma NothingUnmutesStays(s: System, step: Step)
    requires NothingUnmutes(s.inbox) && Enabled(s, step)
    requires step.UserCall? ==> !step.message.QueueEvent? && !step.message.Close?
    ensures NothingUnmutes(Next(s, step).inbox) && !Unmutes(s, step)
  {
  }

  /** So over any run without a further event or CLOSE, what is unsent stays unsent. */
  lemma {:induction false} MuteForever(s: System, steps: seq<Step>, t: System)
    requires Inv(s) && Mute(s) && NothingUnmutes(s.inbox) && Run(s, steps, t)
    requires forall step :: step in steps && step.UserCall? ==> !step.message.QueueEvent? && !step.message.Close?
    ensures t.sent == s.sent
    decreases |steps|
  {
    if steps != [] {
      assert steps[0] in steps;
      NothingUnmutesStays(s, steps[0]);
      StepKeepsInv(s, steps[0]);
      MuteStays(s, steps[0]);
      MuteForever(Next(s, steps[0]), steps[1..], t);
    }
  }

  // ---------------------------------------------------------------- a lone event

  function QueuedEvents(inbox: seq<Message>): nat {
    if inbox == [] then 0 else One(inbox[0].QueueEvent?) + QueuedEvents(inbox[1..])
  }

  function EventCalls(steps: seq<Step>): nat {
    if steps == [] then 0 else One(steps[0].UserCall? && steps[0].message.QueueEvent?) + EventCalls(steps[1..])
  }

  lemma {:induction false} QueuedEventsAppend(inbox: seq<Message>, m: Message)
    ensures QueuedEvents(inbox + [m]) == QueuedEvents(inbox) + One(m.QueueEvent?)
  {
    if inbox == [] {
      assert inbox + [m] == [m];
    } else {
      assert (inbox + [m])[1..] == inbox[1..] + [m];
      QueuedEventsAppend(inbox[1..], m);
    }
  }

  lemma {:induction false} NoneQueued(inbox: seq<Message>, m: Message)
    requires QueuedEvents(inbox) == 0 && m in inbox
    ensures !m.QueueEvent?
  {
    if m != inbox[0] {
      NoneQueued(inbox[1..], m);
    }
  }

  /** Only one event has been asked for, no close has, nothing is written, and once the event is in the
      writer nothing watches for writing. */
  ghost predicate LoneInv(s: System) {
    && QueuedEvents(s.inbox) + |s.accepted| <= 1
    && (forall m :: m in s.inbox ==> !m.Close?)
    && s.sent == []
    && s.connection.state in {Reading, ReadingWriting, Cancelling, Closing, State.Closed}
    && (s.connection.writer.InProgress? ==> Mute(s))
  }

  lemma LoneStep(s: System, step: Step)
    requires Inv(s) && LoneInv(s) && Enabled(s, step)
    requires step.UserCall? ==> !step.message.Close?
    requires step.UserCall? && step.message.QueueEvent? ==> QueuedEvents(s.inbox) + |s.accepted| == 0
    ensures LoneInv(Next(s, step))
    ensures var t := Next(s, step);
      QueuedEvents(t.inbox) + |t.accepted|
      <= QueuedEvents(s.inbox) + |s.accepted| + One(step.UserCall? && step.message.QueueEvent?)
  {
    hide Mute, Inv;
    match step {
      case UserCall(m) => QueuedEventsAppend(s.inbox, m);
      case ConnectionHandle(io) => LoneHandle(s, io);
      case WatcherReplies =>
        QueuedEventsAppend(s.inbox, FromWatcher(if s.watcherAt == Leaving then WatcherClosed else s.watcherAt.reply));
      case _ =>
    }
    if s.connection.writer.InProgress? && !step.ConnectionHandle? {
      LoneStaysMute(s, step);
    }
  }

  lemma LoneStaysMute(s: System, step: Step)
    requires Inv(s) && Mute(s) && Enabled(s, step) && !step.ConnectionHandle?
    ensures Mute(Next(s, step))
  {
    MuteStays(s, step);
  }

  lemma HeldAccepted(s: System)
    requires Inv(s) && s.connection.writer.InProgress?
    ensures |s.accepted| >= 1
  {
  }

  lemma LoneHandle(s: System, io: Io)
    requires Inv(s) && LoneInv(s) && Enabled(s, ConnectionHandle(io))
    ensures LoneInv(Next(s, ConnectionHandle(io)))
    ensures var t := Next(s, ConnectionHandle(io));
      QueuedEvents(t.inbox) + |t.accepted| <= QueuedEvents(s.inbox) + |s.accepted|
  {
    hide Mute, Inv, StateInv, ShapeInv;
    var m, t := s.inbox[0], Next(s, ConnectionHandle(io));
    assert m in s.inbox;
    assert forall x :: x in t.inbox ==> x in s.inbox;
    LoneStates(s, io);
    if s.connection.writer.InProgress? {
      HeldAccepted(s);
      NoneQueued(s.inbox, m);
      MuteStays(s, ConnectionHandle(io));
    } else {
      IdleHandles(s, io);
    }
  }

  lemma LoneStates(s: System, io: Io)
    requires LoneInv(s) && Enabled(s, ConnectionHandle(io)) && !s.inbox[0].Close?
    ensures Next(s, ConnectionHandle(io)).connection.state in {Reading, ReadingWriting, Cancelling, Closing, State.Closed}
  {
    hide Mute, WriteReady;
  }

  /** A connection whose writer is idle writes nothing, and if it takes up its only event stops watching for
      writing. */
  lemma IdleHandles(s: System, io: Io)
    requires Inv(s) && Enabled(s, ConnectionHandle(io)) && s.connection.writer.Ready? && |s.accepted| <= 1 && s.sent == []
    requires !s.inbox[0].Close? && s.connection.state in {Reading, ReadingWriting, Cancelling, Closing, State.Closed}
    ensures var t := Next(s, ConnectionHandle(io));
      t.sent == [] && (t.connection.writer.InProgress? ==> Mute(t))
  {
    hide InFlight, Stopping, Replies, ClosedNotices, ShortQueue;
    var c := s.connection;
    assert |c.events| <= 1 by {
      assert s.accepted == [] + c.events;
    }
    assert s.inbox[0] in s.inbox;
  }

  lemma {:induction false} LoneRun(s: System, steps: seq<Step>, t: System)
    requires Inv(s) && LoneInv(s) && Run(s, steps, t)
    requires QueuedEvents(s.inbox) + |s.accepted| + EventCalls(steps) <= 1 && UserCall(Close) !in steps
    ensures t.sent == []
    decreases |steps|
  {
    hide Inv, Mute;
    if steps != [] {
      assert steps[0] in steps && forall step :: step in steps[1..] ==> step in steps;
      assert steps[0].UserCall? ==> !steps[0].message.Close?;
      LoneStep(s, steps[0]);
      StepKeepsInv(s, steps[0]);
      LoneRun(Next(s, steps[0]), steps[1..], t);
    }
  }

  /** Whatever the schedule and however ready the descriptor, a connection that is given a single event and
      is not closed never writes any of it. */
  lemma LoneEventNeverSent(steps: seq<Step>, t: System)
    requires Run(Initial(), steps, t) && EventCalls(steps) <= 1 && UserCall(Close) !in steps
    ensures t.sent == []
  {
    InitialInv();
    LoneRun(Initial(), steps, t);
  }

  // ---------------------------------------------------------------- it does happen

  lemma {:induction false} RunExtends(s: System, steps: seq<Step>, t: System, step: Step)
    requires Run(s, steps, t) && Enabled(t, step)
    ensures Run(s, steps + [step], Next(t, step))
    decreases |steps|
  {
    if steps == [] {
      assert [step][1..] == [];
    } else {
      assert (steps + [step])[1..] == steps[1..] + [step];
      RunExtends(Next(s, steps[0]), steps[1..], t, step);
    }
  }

  lemma Reaches(s: System, step: Step)
    requires Reachable(s) && Enabled(s, step)
    ensures Reachable(Next(s, step))
  {
    var steps :| Run(Initial(), steps, s);
    RunExtends(Initial(), steps, s, step);
  }

  /** The event a user queues on an idle connection, with its watch about to be cancelled. */
  function Interrupted(event: Event): System {
    System(Connection(Cancelling, Ready, [event]), AtGet, [], [Watch(READ)], CANCEL_BYTES, Waiting, [event], [], 0)
  }

  lemma InterruptedReachable(event: Event)
    ensures Reachable(Interrupted(event))
  {
    var io := Io([], false);
    var s0 := Initial();
    assert Run(s0, [], s0);
    var s1 := Next(s0, ConnectionQueues);
    Reaches(s0, ConnectionQueues);
    var s2 := Next(s1, UserCall(QueueEvent(event)));
    Reaches(s1, UserCall(QueueEvent(event)));
    Reaches(s2, ConnectionHandle(io));
    assert Next(s2, ConnectionHandle(io)) == Interrupted(event);
  }

  lemma WatchingBothReachable(event: Event)
    ensures Reachable(WatchingBoth(event))
  {
    var io := Io([], false);
    var s0 := Interrupted(event);
    InterruptedReachable(event);
    var s1 := Next(s0, WatcherTakes);
    Reaches(s0, WatcherTakes);
    var s2 := Next(s1, PollReports(WatchCancelled));
    Reaches(s1, PollReports(WatchCancelled));
    var s3 := Next(s2, WatcherDrains);
    Reaches(s2, WatcherDrains);
    var s4 := Next(s3, WatcherReplies);
    Reaches(s3, WatcherReplies);
    Reaches(s4, ConnectionHandle(io));
    assert Next(s4, ConnectionHandle(io)) == WatchingBoth(event);
  }

  /** Once the cancel is answered: watching for both, with the event still queued. */
  function WatchingBoth(event: Event): System {
    System(Connection(ReadingWriting, Ready, [event]), QueueingWatch(READ_WRITE), [], [], 0, Waiting, [event], [], 0)
  }

  /** READING with the only event sitting in a writer that is never watched. */
  function HeldBack(event: Event): System {
    System(Connection(Reading, InProgress(event, 0), []), QueueingWatch(READ), [], [], 0, Waiting, [event], [], 0)
  }

  /** A lone event is the plainest case: with the two threads alternating properly and the descriptor
      always ready, it is accepted, moved to the writer, and left there. */
  lemma LoneEventIsHeldBack(event: Event)
    ensures Reachable(HeldBack(event)) && Mute(HeldBack(event))
  {
    var io := Io([], false);
    var s0 := WatchingBoth(event);
    WatchingBothReachable(event);
    var s1 := Next(s0, ConnectionQueues);
    Reaches(s0, ConnectionQueues);
    var s2 := Next(s1, WatcherTakes);
    Reaches(s1, WatcherTakes);
    var s3 := Next(s2, PollReports(WatchComplete(WRITE)));
    Reaches(s2, PollReports(WatchComplete(WRITE)));
    var s4 := Next(s3, WatcherReplies);
    Reaches(s3, WatcherReplies);
    Reaches(s4, ConnectionHandle(io));
    assert Next(s4, ConnectionHandle(io)) == HeldBack(event);
  }

  /** CANCELLING with the watch answered by a completion that raced the cancel: no reply is left to come. */
  function Wedged(event: Event): System {
    System(Connection(Cancelling, Ready, [event]), AtGet, [], [], CANCEL_BYTES, Waiting, [event], [], 0)
  }

  /** The first watch has completed, and its reply is about to be queued. */
  function Completing(): System {
    System(Connection(Reading, Ready, []), AtGet, [], [], 0, Replying(WatchComplete(READ)), [], [], 0)
  }

  lemma CompletingReachable()
    ensures Reachable(Completing())
  {
    var s0 := Initial();
    assert Run(s0, [], s0);
    var s1 := Next(s0, ConnectionQueues);
    Reaches(s0, ConnectionQueues);
    var s2 := Next(s1, WatcherTakes);
    Reaches(s1, WatcherTakes);
    Reaches(s2, PollReports(WatchComplete(READ)));
    assert Next(s2, PollReports(WatchComplete(READ))) == Completing();
  }

  lemma CompletionBeatsCancel(event: Event)
    ensures Reachable(Wedged(event)) && Mute(Wedged(event))
  {
    var io := Io([], false);
    var s0 := Completing();
    CompletingReachable();
    var s1 := Next(s0, UserCall(QueueEvent(event)));
    Reaches(s0, UserCall(QueueEvent(event)));
    var s2 := Next(s1, WatcherReplies);
    Reaches(s1, WatcherReplies);
    var s3 := Next(s2, ConnectionHandle(io));
    Reaches(s2, ConnectionHandle(io));
    Reaches(s3, ConnectionHandle(io));
    assert Next(s3, ConnectionHandle(io)) == Wedged(event);
  }
}
