/** One connection's thread: it forwards what it reads, queues and writes outgoing events, and drives a
    network watcher. `Handle` is the whole machine as one table; the class is the code, state by state. */
module ChatConnection {
  import opened ChatEvent
  import opened ChatEventIo
  import opened NetworkWatcher

  datatype State = Init | Reading | ReadingWriting | Cancelling | Flushing | Closing | Closed

  datatype Message = FromWatcher(reply: Reply) | QueueEvent(event: Event) | Close | CloseImmediately

  /** What the operating system answers while one message is handled: how many bytes each write takes,
      in order, and whether a read finds the peer gone. A missing, zero or too large entry stands for a
      write that takes everything. Failing reads and writes end the program (the code asserts). */
  datatype Io = Io(writes: seq<nat>, peerClosed: bool)

  function Rest(writes: seq<nat>): seq<nat> { if writes == [] then [] else writes[1..] }

  /** The call a handler makes on the watcher. */
  datatype Call = NoCall | StartWatch(modes: Modes) | CancelWatch | CloseWatcher

  datatype Connection = Connection(state: State, writer: Writer, events: seq<Event>)
  {
    predicate Valid() { writer.Valid() }

    predicate Live() { state in {Reading, ReadingWriting, Cancelling, Flushing} }

    /** Something accepted is still to be written. */
    predicate Pending() { writer.InProgress? || events != [] }

    /** The accepted events that are not yet fully written, oldest first. */
    function Unsent(): seq<Event> { Held(writer) + events }
  }

  function Held(writer: Writer): seq<Event> {
    if writer.InProgress? then [writer.event] else []
  }

  datatype Outcome = Outcome(connection: Connection, call: Call, sent: seq<Event>)

  // ---------------------------------------------------------------- the writing loop

  datatype Wrote = Wrote(writer: Writer, events: seq<Event>, sent: seq<Event>)

  /** write_ready: an idle writer is only given the next event; a busy one is written, and as long as
      writes finish, refilled and written again. */
  function WriteReady(writer: Writer, events: seq<Event>, writes: seq<nat>): (r: Wrote)
    requires writer.Valid()
    ensures r.writer.Valid()
    decreases |events|
  {
    match writer
    case Ready =>
      if events == [] then Wrote(Ready, [], []) else Wrote(InProgress(events[0], 0), events[1..], [])
    case InProgress(event, written) =>
      var k := Taken(event.Size() - written, writes);
      if written + k < event.Size() then
        Wrote(InProgress(event, written + k), events, [])
      else if events == [] then
        Wrote(Ready, [], [event])
      else
        var rest := WriteReady(InProgress(events[0], 0), events[1..], Rest(writes));
        Wrote(rest.writer, rest.events, [event] + rest.sent)
  }

  lemma OneTurn(writer: Writer, events: seq<Event>, writes: seq<nat>)
    requires writer.Valid()
    ensures var r := WriteReady(writer, events, writes);
      match writer
      case Ready => r == if events == [] then Wrote(Ready, [], []) else Wrote(InProgress(events[0], 0), events[1..], [])
      case InProgress(event, written) =>
        var k := Taken(event.Size() - written, writes);
        if written + k < event.Size() then r == Wrote(InProgress(event, written + k), events, [])
        else if events == [] then r == Wrote(Ready, [], [event])
        else
          var rest := WriteReady(InProgress(events[0], 0), events[1..], Rest(writes));
          r == Wrote(rest.writer, rest.events, [event] + rest.sent)
  {
  }

  /** Nothing is lost, duplicated or reordered, and in particular no half-written event is overwritten. */
  lemma {:induction false} WriteReadyConserves(writer: Writer, events: seq<Event>, writes: seq<nat>)
    requires writer.Valid()
    ensures var r := WriteReady(writer, events, writes);
      Held(writer) + events == r.sent + (Held(r.writer) + r.events)
    decreases |events|
  {
    if writer.InProgress? && writer.written + Taken(writer.event.Size() - writer.written, writes) == writer.event.Size()
       && events != []
    {
      WriteReadyConserves(InProgress(events[0], 0), events[1..], Rest(writes));
      assert events == [events[0]] + events[1..];
    }
  }

  /** Bytes and hand-overs still ahead of an empty queue and an idle writer. */
  function Work(writer: Writer, events: seq<Event>): nat
    requires writer.Valid()
  {
    (if writer.InProgress? then writer.event.Size() - writer.written else 0) + QueueWork(events)
  }

  function QueueWork(events: seq<Event>): nat {
    if events == [] then 0 else events[0].Size() + 1 + QueueWork(events[1..])
  }

  /** Every wake with something pending makes progress. */
  lemma {:induction false} WriteReadyProgresses(writer: Writer, events: seq<Event>, writes: seq<nat>)
    requires writer.Valid() && (writer.InProgress? || events != [])
    ensures var r := WriteReady(writer, events, writes); Work(r.writer, r.events) < Work(writer, events)
    decreases |events|
  {
    if writer.InProgress? && writer.written + Taken(writer.event.Size() - writer.written, writes) == writer.event.Size()
       && events != []
    {
      WriteReadyProgresses(InProgress(events[0], 0), events[1..], Rest(writes));
    }
  }

  // ---------------------------------------------------------------- the machine as a table

  function Sizes(events: seq<Event>): (r: seq<nat>)
    ensures |r| == |events|
  {
    if events == [] then [] else [events[0].Size()] + Sizes(events[1..])
  }

  /** How many things of these sizes the writes take whole before one takes only part of one. */
  function WholeWrites(sizes: seq<nat>, writes: seq<nat>): (n: nat)
    ensures n <= |sizes|
  {
    if sizes == [] || (writes != [] && 0 < writes[0] < sizes[0]) then 0
    else 1 + WholeWrites(sizes[1..], Rest(writes))
  }

  /** What the writing loop leaves: an idle writer with one event passes it on unwritten; a busy one stops
      at the first event that a write does not take whole. */
  lemma {:induction false} WriteReadyLeaves(writer: Writer, events: seq<Event>, writes: seq<nat>)
    requires writer.Valid()
    ensures var r := WriteReady(writer, events, writes);
      match writer
      case Ready => r.events == (if events == [] then [] else events[1..]) && r.writer.InProgress? == (events != [])
      case InProgress(event, written) =>
        var n := WholeWrites([event.Size() - written] + Sizes(events), writes);
        if n > |events| then r.writer == Ready && r.events == [] else r.writer.InProgress? && r.events == events[n..]
    decreases |events|
  {
    if writer.InProgress? {
      var sizes := [writer.event.Size() - writer.written] + Sizes(events);
      assert sizes[1..] == Sizes(events);
      if events != [] {
        assert Sizes(events) == [events[0].Size() - 0] + Sizes(events[1..]);
        WriteReadyLeaves(InProgress(events[0], 0), events[1..], Rest(writes));
      }
    }
  }

  /** What it sends are the events that are written whole, in order; the one after them keeps exactly the count
      of bytes that its write has taken. */
  lemma {:induction false} WriteReadySends(event: Event, written: nat, events: seq<Event>, writes: seq<nat>)
    requires written < event.Size()
    ensures var r, all := WriteReady(InProgress(event, written), events, writes), [event] + events;
      var n := WholeWrites([event.Size() - written] + Sizes(events), writes);
      && r.sent == all[..n]
      && (n < |all| ==> n < |writes| && r.writer == InProgress(all[n], (if n == 0 then written else 0) + writes[n]))
    decreases |events|
  {
    hide WriteReady;
    var all, sizes := [event] + events, [event.Size() - written] + Sizes(events);
    OneTurn(InProgress(event, written), events, writes);
    assert sizes[1..] == Sizes(events);
    var k := Taken(event.Size() - written, writes);
    if written + k == event.Size() {
      assert WholeWrites(sizes, writes) == 1 + WholeWrites(Sizes(events), Rest(writes));
      if events != [] {
        var rest, n := [events[0]] + events[1..], WholeWrites(Sizes(events), Rest(writes));
        assert rest == events && Sizes(events) == [events[0].Size() - 0] + Sizes(events[1..]);
        WriteReadySends(events[0], 0, events[1..], Rest(writes));
        assert all[..n + 1] == [event] + rest[..n];
      } else {
        assert all[..1] == [event];
      }
    }
  }

  function CloseNow(c: Connection, sent: seq<Event>): Outcome {
    Outcome(c.(state := Closing), CloseWatcher, sent)
  }

  function HandleComplete(c: Connection, ready: Modes, io: Io): Outcome
    requires c.Valid()
  {
    var wrote := if ready.write && c.state in {ReadingWriting, Cancelling, Flushing}
                 then WriteReady(c.writer, c.events, io.writes) else Wrote(c.writer, c.events, []);
    var d := Connection(c.state, wrote.writer, wrote.events);
    if ready.read && io.peerClosed && c.state in {Reading, ReadingWriting, Cancelling} then
      CloseNow(d, wrote.sent)
    else match c.state
      case Reading => Outcome(d, StartWatch(READ), [])
      case ReadingWriting =>
        if !ready.write then
          Outcome(d, StartWatch(READ), wrote.sent)
        else if d.writer.InProgress? && d.events != [] then
          Outcome(d, StartWatch(READ_WRITE), wrote.sent)
        else
          Outcome(d.(state := Reading), StartWatch(READ), wrote.sent)
      case Cancelling => Outcome(d, NoCall, wrote.sent)
      case Flushing =>
        if d.Pending() then Outcome(d, StartWatch(WRITE), wrote.sent) else CloseNow(d, wrote.sent)
      case _ => Outcome(c, NoCall, [])
  }

  function Handle(c: Connection, message: Message, io: Io): Outcome
    requires c.Valid()
  {
    var ignored := Outcome(c, NoCall, []);
    match message
    case FromWatcher(WatchComplete(ready)) => HandleComplete(c, ready, io)
    case FromWatcher(WatchCancelled) =>
      if c.state == Cancelling then
        if c.Pending() then Outcome(c.(state := ReadingWriting), StartWatch(READ_WRITE), [])
        else Outcome(c, StartWatch(READ), [])
      else if c.state == Flushing then
        if c.Pending() then Outcome(c, StartWatch(WRITE), []) else CloseNow(c, [])
      else ignored
    case FromWatcher(WatcherClosed) =>
      if c.Live() || c.state == Closing then Outcome(c.(state := Closed), NoCall, []) else ignored
    case QueueEvent(event) =>
      if c.state == Reading then Outcome(c.(state := Cancelling, events := c.events + [event]), CancelWatch, [])
      else if c.state in {ReadingWriting, Cancelling} then Outcome(c.(events := c.events + [event]), NoCall, [])
      else ignored
    case Close =>
      if c.state == Reading then CloseNow(c, [])
      else if c.state in {ReadingWriting, Cancelling} then Outcome(c.(state := Flushing), NoCall, [])
      else ignored
    case CloseImmediately =>
      if c.Live() then CloseNow(c, []) else ignored
  }

  /** The events a message adds to the connection's care. */
  function Accepts(c: Connection, message: Message): seq<Event> {
    if message.QueueEvent? && c.state in {Reading, ReadingWriting, Cancelling} then [message.event] else []
  }

  lemma HandleCompleteConserves(c: Connection, ready: Modes, io: Io)
    requires c.Valid()
    ensures var o := HandleComplete(c, ready, io);
      o.connection.Valid() && c.Unsent() == o.sent + o.connection.Unsent()
  {
    if ready.write && c.state in {ReadingWriting, Cancelling, Flushing} {
      WriteReadyConserves(c.writer, c.events, io.writes);
    } else {
      assert [] + c.Unsent() == c.Unsent();
    }
  }

  /** Handling a message neither loses nor invents nor reorders an outgoing event. */
  lemma HandleConserves(c: Connection, message: Message, io: Io)
    requires c.Valid()
    ensures var o := Handle(c, message, io);
      o.connection.Valid() && c.Unsent() + Accepts(c, message) == o.sent + o.connection.Unsent()
  {
    if message.FromWatcher? && message.reply.WatchComplete? {
      HandleCompleteConserves(c, message.reply.ready, io);
      assert c.Unsent() + [] == c.Unsent();
    } else {
      var o := Handle(c, message, io);
      assert o.sent == [] && o.connection.writer == c.writer;
      assert o.connection.events == c.events + Accepts(c, message);
    }
  }

  /** A flushing connection takes nothing new, leaves only with nothing pending, never adds to its work,
      and takes some of it away with every write-ready wake. */
  lemma FlushingHandles(c: Connection, message: Message, io: Io)
    requires c.Valid() && c.state == Flushing
    requires message != CloseImmediately && message != FromWatcher(WatcherClosed)
    ensures var o := Handle(c, message, io);
      && Accepts(c, message) == []
      && o.connection.Valid()
      && (o.connection.state == Flushing || (o.connection.state == Closing && !o.connection.Pending()))
      && Work(o.connection.writer, o.connection.events) <= Work(c.writer, c.events)
      && (message.FromWatcher? && message.reply.WatchComplete? && message.reply.ready.write && c.Pending() ==>
            Work(o.connection.writer, o.connection.events) < Work(c.writer, c.events))
  {
    if c.Pending() {
      WriteReadyProgresses(c.writer, c.events, io.writes);
    }
  }

  // ---------------------------------------------------------------- when the state changes

  /** Whether a write-ready wake would leave something to write. */
  predicate LeavesSome(c: Connection, writes: seq<nat>)
    requires c.Valid()
  {
    match c.writer
    case Ready => c.events != []
    case InProgress(event, written) => WholeWrites([event.Size() - written] + Sizes(c.events), writes) <= |c.events|
  }

  /** Whether it would leave one event in the writer and others behind it. */
  predicate LeavesQueue(c: Connection, writes: seq<nat>)
    requires c.Valid()
  {
    match c.writer
    case Ready => |c.events| > 1
    case InProgress(event, written) => WholeWrites([event.Size() - written] + Sizes(c.events), writes) < |c.events|
  }

  lemma WakeLeaves(c: Connection, writes: seq<nat>)
    requires c.Valid()
    ensures var r := WriteReady(c.writer, c.events, writes);
      && (r.writer.InProgress? || r.events != [] <==> LeavesSome(c, writes))
      && (r.writer.InProgress? && r.events != [] <==> LeavesQueue(c, writes))
  {
    hide WriteReady, WholeWrites, Sizes;
    WriteReadyLeaves(c.writer, c.events, writes);
  }

  predicate Completes(message: Message) { message.FromWatcher? && message.reply.WatchComplete? }

  /** A connection that listens finds, by a read, that its peer has gone. */
  predicate FindsPeerGone(c: Connection, message: Message, io: Io) {
    c.state in {Reading, ReadingWriting, Cancelling} && Completes(message) && message.reply.ready.read && io.peerClosed
  }

  /** What is pending once the wake's writes are done. */
  predicate StillPending(c: Connection, message: Message, io: Io)
    requires c.Valid()
  {
    if Completes(message) && message.reply.ready.write then LeavesSome(c, io.writes) else c.Pending()
  }

  /** A live connection starts to close in exactly four cases: it is made to at once; a CLOSE finds it only
      reading; its peer has gone, with or without anything pending; or it was flushing and has nothing left. */
  lemma ClosesExactly(c: Connection, message: Message, io: Io)
    requires c.Valid() && c.Live()
    ensures Handle(c, message, io).connection.state == Closing <==>
      || message == CloseImmediately
      || (message == Close && c.state == Reading)
      || FindsPeerGone(c, message, io)
      || (c.state == Flushing && (message == FromWatcher(WatchCancelled) || Completes(message)) && !StillPending(c, message, io))
    ensures Handle(c, message, io).call == CloseWatcher <==> Handle(c, message, io).connection.state == Closing
  {
    hide WriteReady, LeavesSome;
    WakeLeaves(c, io.writes);
  }

  /** Otherwise it changes its state in exactly these: a queued event makes a reading connection interrupt its
      watch; the interrupt's answer has it watch for both; a wake that leaves no queue has it only read; and a
      CLOSE that finds it writing has it flush. */
  lemma MovesExactly(c: Connection, message: Message, io: Io)
    requires c.Valid() && c.Live()
    ensures var d := Handle(c, message, io).connection; d.state != c.state && d.state != Closing ==>
      && (d.state == Cancelling <==> c.state == Reading && message.QueueEvent?)
      && (d.state == ReadingWriting <==> c.state == Cancelling && message == FromWatcher(WatchCancelled) && c.Pending())
      && (d.state == Reading <==> c.state == ReadingWriting && Completes(message) && message.reply.ready.write && !LeavesQueue(c, io.writes))
      && (d.state == Flushing <==> c.state in {ReadingWriting, Cancelling} && message == Close)
      && (d.state == Closed <==> message == FromWatcher(WatcherClosed))
      && d.state != Init
    ensures Handle(c, message, io).connection.state == c.state ==>
      && !(c.state == Reading && (message.QueueEvent? || message == Close))
      && !(c.state == Cancelling && ((message == FromWatcher(WatchCancelled) && c.Pending()) || message == Close))
      && !(c.state == ReadingWriting && (message == Close || (Completes(message) && message.reply.ready.write && !LeavesQueue(c, io.writes))))
      && message != FromWatcher(WatcherClosed)
  {
    hide WriteReady, LeavesSome, LeavesQueue;
    WakeLeaves(c, io.writes);
  }

  /** What a live connection that goes on asks of its watcher: it listens as long as it is not flushing, for
      writing too while it has a queue behind a busy writer, and it interrupts a watch for reading only, to
      ask again. */
  lemma AsksExactly(c: Connection, message: Message, io: Io)
    requires c.Valid() && c.Live() && Handle(c, message, io).connection.state != Closing
    ensures var o := Handle(c, message, io);
      && (o.call == CancelWatch <==> c.state == Reading && message.QueueEvent?)
      && (o.call.StartWatch? <==>
            || (c.state != Cancelling && Completes(message))
            || (c.state in {Cancelling, Flushing} && message == FromWatcher(WatchCancelled)))
      && (o.call.StartWatch? ==>
            o.call.modes ==
              if c.state == Flushing then WRITE
              else if c.state == Cancelling && c.Pending() then READ_WRITE
              else if c.state == ReadingWriting && message.reply.ready.write && LeavesQueue(c, io.writes) then READ_WRITE
              else READ)
  {
    hide WriteReady, LeavesSome, LeavesQueue;
    WakeLeaves(c, io.writes);
  }

  /** An event is taken in exactly while the connection listens, behind all others; else it is dropped. */
  lemma TakesInExactly(c: Connection, event: Event, io: Io)
    requires c.Valid()
    ensures var d := Handle(c, QueueEvent(event), io).connection;
      && d.writer == c.writer
      && d.events == if c.state in {Reading, ReadingWriting, Cancelling} then c.events + [event] else c.events
    ensures Accepts(c, QueueEvent(event)) == if c.state in {Reading, ReadingWriting, Cancelling} then [event] else []
  {
  }

  /** Only a write-ready completion writes. */
  lemma HandleWritesOnlyWhenReady(c: Connection, message: Message, io: Io)
    requires c.Valid()
    requires message.FromWatcher? && message.reply.WatchComplete? ==> !message.reply.ready.write || c.state == Reading
    ensures Handle(c, message, io).sent == []
    ensures Handle(c, message, io).connection.writer == c.writer
    ensures Handle(c, message, io).connection.events == c.events + Accepts(c, message)
  {
  }

  // ---------------------------------------------------------------- the code

  class ChatConnection {
    var state: State
    var writer: Writer
    var events: seq<Event>
    const watcher: Watcher
    ghost var sent: seq<Event>

    ghost function View(): Connection
      reads this
    {
      Connection(state, writer, events)
    }

    /** What one handler call amounts to: the table's next state, and its call made on the watcher. */
    twostate predicate Does(outcome: Outcome)
      reads this, watcher
    {
      && View() == outcome.connection
      && sent == old(sent) + outcome.sent
      && match outcome.call
         case NoCall => watcher.commands == old(watcher.commands) && watcher.cancelPipe == old(watcher.cancelPipe)
         case StartWatch(modes) =>
           watcher.commands == old(watcher.commands) + [Watch(modes)] && watcher.cancelPipe == 0
         case CancelWatch =>
           watcher.commands == old(watcher.commands) && watcher.cancelPipe == old(watcher.cancelPipe) + CANCEL_BYTES
         case CloseWatcher =>
           watcher.commands == old(watcher.commands) + [Stop]
           && watcher.cancelPipe == old(watcher.cancelPipe) + CANCEL_BYTES
    }

    constructor (watcher: Watcher)
      ensures View() == Connection(Init, Ready, []) && this.watcher == watcher && sent == []
    {
      state, writer, events, sent := Init, Ready, [], [];
      this.watcher := watcher;
    }

    /** The do-while loop over write, get and populate. */
    method WriteReadyLoop(writes: seq<nat>)
      requires writer.Valid()
      modifies this`writer, this`events, this`sent
      ensures writer.Valid()
      ensures var r := WriteReady(old(writer), old(events), writes);
        writer == r.writer && events == r.events && sent == old(sent) + r.sent
    {
      hide WriteReady;
      var left := writes;
      var writeFinished := true;
      while writeFinished
        invariant writer.Valid()
        invariant writeFinished ==>
          var all, here := WriteReady(old(writer), old(events), writes), WriteReady(writer, events, left);
          here.writer == all.writer && here.events == all.events && sent + here.sent == old(sent) + all.sent
        invariant !writeFinished ==>
          var all := WriteReady(old(writer), old(events), writes);
          writer == all.writer && events == all.events && sent == old(sent) + all.sent
        decreases writeFinished, |events|
      {
        OneTurn(writer, events, left);
        writeFinished := false;
        var notPopulated := writer.Ready?;
        if writer.InProgress? {
          var k := Taken(writer.event.Size() - writer.written, left);
          left := Rest(left);
          if writer.written + k < writer.event.Size() {
            writer := InProgress(writer.event, writer.written + k);
          } else {
            sent := sent + [writer.event];
            writer := Ready;
            writeFinished := true;
          }
        }
        if notPopulated || writeFinished {
          if events == [] {
            return;
          }
          assert writer.Ready?;
          writer := InProgress(events[0], 0);
          events := events[1..];
        }
      }
    }

    method CloseTheWatcher()
      modifies this`state, watcher
      ensures state == Closing
      ensures watcher.commands == old(watcher.commands) + [Stop]
      ensures watcher.cancelPipe == old(watcher.cancelPipe) + CANCEL_BYTES
    {
      watcher.Close();
      state := Closing;
    }

    method ReadingProcessing(message: Message, io: Io)
      requires state == Reading && writer.Valid()
      modifies this, watcher
      ensures writer.Valid() && Does(Handle(old(View()), message, io))
    {
      match message
      case FromWatcher(WatchComplete(ready)) =>
        if ready.read && io.peerClosed {
          CloseTheWatcher();
        } else {
          var accepted := watcher.StartWatch(READ);
        }
      case QueueEvent(event) =>
        watcher.CancelWatch();
        state := Cancelling;
        events := events + [event];
      case Close => CloseTheWatcher();
      case CloseImmediately => CloseTheWatcher();
      case FromWatcher(WatcherClosed) => state := Closed;
      case FromWatcher(WatchCancelled) =>
    }

    method ReadingWritingProcessing(message: Message, io: Io)
      requires state == ReadingWriting && writer.Valid()
      modifies this, watcher
      ensures writer.Valid() && Does(Handle(old(View()), message, io))
    {
      match message
      case FromWatcher(WatchComplete(ready)) =>
        var watchMode := READ;
        if ready.write {
          WriteReadyLoop(io.writes);
          if !writer.Ready? && |events| > 0 {
            watchMode := watchMode.(write := true);
          } else {
            state := Reading;
          }
        }
        if ready.read && io.peerClosed {
          CloseTheWatcher();
        } else {
          var accepted := watcher.StartWatch(watchMode);
        }
      case QueueEvent(event) => events := events + [event];
      case Close => state := Flushing;
      case CloseImmediately => CloseTheWatcher();
      case FromWatcher(WatcherClosed) => state := Closed;
      case FromWatcher(WatchCancelled) =>
    }

    method CancellingProcessing(message: Message, io: Io)
      requires state == Cancelling && writer.Valid()
      modifies this, watcher
      ensures writer.Valid() && Does(Handle(old(View()), message, io))
    {
      match message
      case FromWatcher(WatchComplete(ready)) =>
        if ready.write {
          WriteReadyLoop(io.writes);
        }
        if ready.read && io.peerClosed {
          CloseTheWatcher();
        }
      case FromWatcher(WatchCancelled) =>
        var watchMode := READ;
        if !writer.Ready? || |events| > 0 {
          watchMode := watchMode.(write := true);
          state := ReadingWriting;
        }
        var accepted := watcher.StartWatch(watchMode);
      case QueueEvent(event) => events := events + [event];
      case Close => state := Flushing;
      case CloseImmediately => CloseTheWatcher();
      case FromWatcher(WatcherClosed) => state := Closed;
    }

    method FlushingProcessing(message: Message, io: Io)
      requires state == Flushing && writer.Valid()
      modifies this, watcher
      ensures writer.Valid() && Does(Handle(old(View()), message, io))
    {
      match message
      case FromWatcher(WatchComplete(ready)) =>
        if ready.write {
          WriteReadyLoop(io.writes);
        }
        if writer.Ready? && |events| <= 0 {
          CloseTheWatcher();
        } else {
          var accepted := watcher.StartWatch(WRITE);
        }
      case FromWatcher(WatchCancelled) =>
        if writer.Ready? && |events| <= 0 {
          CloseTheWatcher();
        } else {
          var accepted := watcher.StartWatch(WRITE);
        }
      case CloseImmediately => CloseTheWatcher();
      case FromWatcher(WatcherClosed) => state := Closed;
      case QueueEvent(_) =>
      case Close =>
    }

    method ClosingProcessing(message: Message, io: Io)
      requires state == Closing && writer.Valid()
      modifies this, watcher
      ensures writer.Valid() && Does(Handle(old(View()), message, io))
    {
      if message == FromWatcher(WatcherClosed) {
        state := Closed;
      }
    }

    /** One turn of the thread's loop. */
    method DispatchMessage(message: Message, io: Io)
      requires state != Init && state != Closed && writer.Valid()
      modifies this, watcher
      ensures writer.Valid() && Does(Handle(old(View()), message, io))
    {
      match state
      case Reading => ReadingProcessing(message, io);
      case ReadingWriting => ReadingWritingProcessing(message, io);
      case Cancelling => CancellingProcessing(message, io);
      case Flushing => FlushingProcessing(message, io);
      case Closing => ClosingProcessing(message, io);
    }
  }
}
