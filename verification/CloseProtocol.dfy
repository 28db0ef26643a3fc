/** What becomes of a close that a connection has accepted: when it loses an event, and when it can finish. */
module CloseProtocol {
  import opened ChatEvent
  import opened ChatEventIo
  import opened NetworkWatcher
  import opened ChatConnection
  import opened WatchProtocol

  // ---------------------------------------------------------------- events that a close loses

  /** A connection that only reads has nothing queued; what it may have is an event in the writer. */
  ghost predicate ReadingInv(s: System) { s.connection.state == Reading ==> s.connection.events == [] }

  lemma HandleKeepsReading(c: Connection, message: Message, io: Io)
    requires c.Valid() && (c.state == Reading ==> c.events == []) && c.state != Init
    requires message == FromWatcher(WatchCancelled) ==> c.state != Reading
    ensures var d := Handle(c, message, io).connection; d.state == Reading ==> d.events == []
  {
    hide WriteReady;
    WriteReadyLeaves(c.writer, c.events, io.writes);
  }

  lemma StepKeepsReading(s: System, step: Step)
    requires Inv(s) && ReadingInv(s) && Enabled(s, step)
    ensures ReadingInv(Next(s, step))
  {
    hide Inv, Handle;
    if step.ConnectionHandle? {
      CancelsNoReading(s);
      HandleKeepsReading(s.connection, s.inbox[0], step.io);
    }
  }

  lemma CancelsNoReading(s: System)
    requires Inv(s) && s.inbox != []
    ensures s.connection.state != Init
    ensures s.inbox[0] == FromWatcher(WatchCancelled) ==> s.connection.state != Reading
  {
    assert s.inbox[0] in s.inbox;
  }

  lemma {:induction false} RunKeepsReading(s: System, steps: seq<Step>, t: System)
    requires Inv(s) && ReadingInv(s) && Run(s, steps, t)
    ensures ReadingInv(t)
    decreases |steps|
  {
    hide Inv, ReadingInv;
    if steps != [] {
      StepKeepsInv(s, steps[0]);
      StepKeepsReading(s, steps[0]);
      RunKeepsReading(Next(s, steps[0]), steps[1..], t);
    }
  }

  lemma ReadingHasNoQueue(s: System)
    requires Reachable(s)
    ensures ReadingInv(s)
  {
    InitialInv();
    var steps :| Run(Initial(), steps, s);
    RunKeepsReading(Initial(), steps, s);
  }

  /** The peer has gone, and its connection is still to be told so by a read. */
  ghost predicate PeerGone(s: System, io: Io)
    requires s.inbox != []
  {
    && s.connection.state in {Reading, ReadingWriting, Cancelling}
    && s.inbox[0].FromWatcher? && s.inbox[0].reply.WatchComplete? && s.inbox[0].reply.ready.read && io.peerClosed
  }

  /** Where a close is not forced, it loses an accepted event if and only if it is handled while the
      connection reads with an event in the writer, or comes of the peer's own close with something left to
      write once this wake's writes are done. */
  lemma CloseLoses(s: System, io: Io)
    requires Reachable(s) && Enabled(s, ConnectionHandle(io)) && s.connection.Live() && s.inbox[0] != CloseImmediately
    requires Next(s, ConnectionHandle(io)).connection.state == Closing
    ensures var c, t := s.connection, Next(s, ConnectionHandle(io));
      t.sent != t.accepted <==>
        || (s.inbox[0] == Close && c.state == Reading && c.writer.InProgress?)
        || (PeerGone(s, io)
            && if c.state == ReadingWriting && s.inbox[0].reply.ready.write then LeavesSome(c, io.writes) else c.Pending())
  {
    hide WriteReady, Reachable, Inv;
    var c, t := s.connection, Next(s, ConnectionHandle(io));
    ReachableInv(s);
    StepKeepsInv(s, ConnectionHandle(io));
    ReadingHasNoQueue(s);
    DeadBranches(s, io);
    WriteReadyLeaves(c.writer, c.events, io.writes);
    UnsentIsPending(t);
    if c.state == Flushing {
      FlushingHandles(c, s.inbox[0], io);
    }
  }

  /** Over every run: when a live connection starts to close. */
  lemma ClosesWhen(s: System, io: Io)
    requires Reachable(s) && Enabled(s, ConnectionHandle(io)) && s.connection.Live()
    ensures Next(s, ConnectionHandle(io)).connection.state == Closing <==>
      || s.inbox[0] == CloseImmediately
      || (s.inbox[0] == Close && s.connection.state == Reading)
      || PeerGone(s, io)
      || (s.connection.state == Flushing && IsReply(s.inbox[0]) && !StillPending(s.connection, s.inbox[0], io))
  {
    hide Handle, StillPending;
    ClosesExactly(s.connection, s.inbox[0], io);
  }

  lemma UnsentIsPending(s: System)
    requires Inv(s)
    ensures s.sent != s.accepted <==> s.connection.Pending()
  {
    assert s.connection.Unsent() == [] ==> s.sent + s.connection.Unsent() == s.sent;
    assert |s.sent + s.connection.Unsent()| == |s.sent| + |s.connection.Unsent()|;
  }

  /** What a closing connection has not written is never written. */
  lemma {:induction false} LostForGood(s: System, steps: seq<Step>, t: System)
    requires Inv(s) && s.connection.state in {Closing, State.Closed} && Run(s, steps, t)
    ensures t.connection.state in {Closing, State.Closed} && t.sent == s.sent && t.accepted == s.accepted
    decreases |steps|
  {
    if steps != [] {
      StepKeepsInv(s, steps[0]);
      hide Inv;
      LostForGood(Next(s, steps[0]), steps[1..], t);
    }
  }

  /** The lone event of a connection that is then closed, by a CLOSE like any other. */
  function Dropped(event: Event): System {
    System(Connection(Closing, InProgress(event, 0), []), QueueingStop, [], [Watch(READ)], CANCEL_BYTES, Waiting, [event], [], 0)
  }

  lemma CloseDropsTheEvent(event: Event)
    ensures Reachable(Dropped(event))
  {
    var io := Io([], false);
    var s0 := HeldBack(event);
    LoneEventIsHeldBack(event);
    var s1 := Next(s0, ConnectionQueues);
    Reaches(s0, ConnectionQueues);
    var s2 := Next(s1, UserCall(Close));
    Reaches(s1, UserCall(Close));
    Reaches(s2, ConnectionHandle(io));
    assert Next(s2, ConnectionHandle(io)) == Dropped(event);
  }

  // ---------------------------------------------------------------- closes that cannot finish

  /** Flushing with no watch outstanding, so that no reply will come. */
  ghost predicate Stuck(s: System) { s.connection.state == Flushing && InFlight(s) == 0 && NoForcedClose(s) }

  lemma StuckStays(s: System, step: Step)
    requires Inv(s) && Stuck(s) && Enabled(s, step) && step != UserCall(CloseImmediately)
    ensures Stuck(Next(s, step)) && Next(s, step).sent == s.sent
  {
    CountsZero(s.inbox);
    match step
    case UserCall(m) => CountsAppend(s.inbox, m);
    case ConnectionHandle(io) =>
      assert s.inbox == [s.inbox[0]] + s.inbox[1..];
      assert s.inbox[0] in s.inbox;
    case _ =>
  }

  /** Then the close never finishes, unless somebody forces it: nobody is ever told that the connection has
      closed. */
  lemma {:induction false} StuckForever(s: System, steps: seq<Step>, t: System)
    requires Inv(s) && Stuck(s) && Run(s, steps, t) && UserCall(CloseImmediately) !in steps
    ensures t.connection.state == Flushing && t.closedReports == 0 && t.sent == s.sent
    decreases |steps|
  {
    if steps != [] {
      assert steps[0] in steps;
      StepKeepsInv(s, steps[0]);
      StuckStays(s, steps[0]);
      hide Inv, Stuck;
      StuckForever(Next(s, steps[0]), steps[1..], t);
    }
  }

  /** A CLOSE given to a connection whose completion beat its cancel. */
  function WedgedClosing(event: Event): System {
    Wedged(event).(connection := Connection(Flushing, Ready, [event]))
  }

  lemma WedgedCloseIsStuck(event: Event)
    ensures Reachable(WedgedClosing(event)) && Stuck(WedgedClosing(event))
  {
    var io := Io([], false);
    var s0 := Wedged(event);
    CompletionBeatsCancel(event);
    var s1 := Next(s0, UserCall(Close));
    Reaches(s0, UserCall(Close));
    Reaches(s1, ConnectionHandle(io));
    assert Next(s1, ConnectionHandle(io)) == WedgedClosing(event);
  }

  // ---------------------------------------------------------------- closes that can

  /** The watch in flight will find the descriptor ready for writing, if it is. */
  ghost predicate WillWrite(s: System) {
    && s.pipe == 0
    && (s.connectionAt.QueueingWatch? ==> s.connectionAt.modes.write)
    && (s.commands != [] && s.commands[0].Watch? ==> s.commands[0].modes.write)
    && (s.watcherAt.Polling? ==> s.watcherAt.modes.write)
    && !s.watcherAt.Draining?
    && (s.watcherAt.Replying? ==> s.watcherAt.reply.WatchComplete? && s.watcherAt.reply.ready.write)
    && (forall m :: m in s.inbox && IsReply(m) ==> m.reply.WatchComplete? && m.reply.ready.write)
  }

  /** How far the watch is from the connection's handling of its reply. */
  function Stage(s: System): nat {
    if s.connectionAt.QueueingWatch? then 5
    else if s.commands != [] then 4
    else match s.watcherAt
      case Polling(_) => 3
      case Draining => 2
      case Replying(_) => 1
      case _ => 0
  }

  /** A step that brings it there, with a descriptor that takes all that is written. */
  function Forward(s: System): Step {
    if s.connectionAt.QueueingWatch? then ConnectionQueues
    else if s.commands != [] then WatcherTakes
    else match s.watcherAt
      case Polling(modes) => PollReports(if s.pipe > 0 then WatchCancelled else WatchComplete(modes))
      case Draining => WatcherDrains
      case Replying(_) => WatcherReplies
      case _ => ConnectionHandle(Io([], false))
  }

  ghost predicate Finishing(s: System) { s.connection.state == Flushing && InFlight(s) == 1 && NoForcedClose(s) }

  lemma ForwardEnabled(s: System)
    requires Inv(s) && Finishing(s)
    ensures Enabled(s, Forward(s)) && !Forward(s).UserCall?
    ensures Forward(s).ConnectionHandle? <==> Stage(s) == 0
  {
    CountsZero(s.inbox);
  }

  /** Before the reply is handled, the watch stays what it is. */
  lemma WatcherForward(s: System)
    requires Inv(s) && Finishing(s) && Stage(s) > 0
    ensures Enabled(s, Forward(s)) && Finishing(Next(s, Forward(s)))
    ensures Stage(Next(s, Forward(s))) < Stage(s) && Next(s, Forward(s)).connection == s.connection
    ensures WillWrite(s) ==> WillWrite(Next(s, Forward(s)))
  {
    ForwardEnabled(s);
    CountsZero(s.inbox);
    if s.watcherAt.Replying? {
      CountsAppend(s.inbox, FromWatcher(s.watcherAt.reply));
    }
  }

  /** What is in front of the reply is ignored. */
  lemma OthersForward(s: System)
    requires Inv(s) && Finishing(s) && Stage(s) == 0 && s.inbox != [] && !IsReply(s.inbox[0])
    ensures Enabled(s, Forward(s)) && Finishing(Next(s, Forward(s)))
    ensures var t := Next(s, Forward(s));
      Stage(t) == 0 && |t.inbox| < |s.inbox| && t.connection == s.connection && (WillWrite(s) ==> WillWrite(t))
  {
    ForwardEnabled(s);
    NotClosedWhileLive(s);
    assert s.inbox[0] in s.inbox && s.inbox == [s.inbox[0]] + s.inbox[1..];
  }

  /** The reply itself ends the flushing, or a watch for writing is started, and then there is less to write,
      or it had not been one for writing. */
  lemma ReplyForward(s: System)
    requires Inv(s) && Finishing(s) && Stage(s) == 0 && s.inbox != [] && IsReply(s.inbox[0])
    ensures Enabled(s, Forward(s))
    ensures var t := Next(s, Forward(s));
      t.connection.state == Closing || (Finishing(t) && WillWrite(t) && (WillWrite(s) ==> s.inbox[0].reply.WatchComplete? && s.inbox[0].reply.ready.write))
  {
    hide WriteReady;
    ForwardEnabled(s);
    CountsZero(s.inbox[1..]);
    assert s.inbox[0] in s.inbox && s.inbox == [s.inbox[0]] + s.inbox[1..];
  }

  lemma ReplyWaits(s: System)
    requires Inv(s) && Finishing(s) && Stage(s) == 0
    ensures s.inbox != []
  {
  }

  /** As long as a watch is outstanding a flushing connection can finish: some run, in which nobody forces
      the close and the peer takes what it is sent, has it close with everything written. */
  lemma CanFinish(s: System) returns (steps: seq<Step>, t: System)
    requires Inv(s) && Finishing(s)
    ensures Run(s, steps, t) && UserCall(CloseImmediately) !in steps && t.connection.state == Closing
    decreases WorkLeft(s), !WillWrite(s), Stage(s), |s.inbox|
  {
    var step := Forward(s);
    ForwardEnabled(s);
    if Stage(s) > 0 {
      WatcherForward(s);
    } else {
      ReplyWaits(s);
      if IsReply(s.inbox[0]) {
        ReplyForward(s);
      } else {
        OthersForward(s);
      }
    }
    var next := Next(s, step);
    FlushProgresses(s, step);
    StepKeepsInv(s, step);
    if next.connection.state == Closing {
      steps, t := [step], next;
      assert Run(next, steps[1..], t);
    } else {
      var rest;
      rest, t := CanFinish(next);
      steps := [step] + rest;
      assert steps[1..] == rest;
    }
  }

  /** A close that is flushing can finish without being forced if and only if a watch is outstanding. */
  lemma FinishesExactly(s: System)
    requires Inv(s) && s.connection.state == Flushing && NoForcedClose(s)
    ensures InFlight(s) == 1 <==>
      exists steps, t :: Run(s, steps, t) && UserCall(CloseImmediately) !in steps && t.connection.state == Closing
  {
    if InFlight(s) == 1 {
      var steps, t := CanFinish(s);
    } else {
      forall steps, t | Run(s, steps, t) && UserCall(CloseImmediately) !in steps
        ensures t.connection.state == Flushing
      {
        StuckForever(s, steps, t);
      }
    }
  }

  /** And a CLOSE becomes one that cannot, if and only if it is handled where a completion beat the cancel. */
  lemma CloseSticks(s: System, io: Io)
    requires Reachable(s) && Enabled(s, ConnectionHandle(io)) && s.inbox[0] == Close && NoForcedClose(s)
    ensures s.connection.state != Flushing ==>
      (Stuck(Next(s, ConnectionHandle(io))) <==> s.connection.state == Cancelling && InFlight(s) == 0)
  {
    ReachableInv(s);
    assert s.inbox == [s.inbox[0]] + s.inbox[1..];
  }
}
