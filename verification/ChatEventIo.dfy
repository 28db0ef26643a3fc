/** Event I/O over one descriptor: a reader that assembles events in a buffer of exactly one event's
    size, and a writer that serialises one event at a time. */
module ChatEventIo {
  import opened ChatEvent
  import opened WireFormat

  // ---------------------------------------------------------------- the reader

  /** What read() answers: an error, the end of the stream, or some bytes. */
  datatype Input = Failed | EndOfFile | Bytes(chunk: seq<byte>)

  datatype ReadStatus = Finished | Incomplete | Oversized | PeerClosed | Failure

  datatype ExtractResult = NothingToExtract | ExtractFinished | ExtractMore

  datatype ReaderState = Collecting | Skipping

  /** How a read that leaves these bytes in the buffer is reported. */
  function Classify(pending: seq<byte>): ReadStatus {
    if Complete(pending) then Finished else if Oversize(pending) then Oversized else Incomplete
  }

  /** A header is given up as oversize exactly when nothing that may still come into the buffer would
      complete its event, and a full buffer is never waited on. */
  lemma GivesUpExactly(b: seq<byte>)
    requires 72 <= |b| <= 1096
    ensures Classify(b) == Oversized <==> forall more: seq<byte> :: |b + more| <= 1096 ==> !Complete(b + more)
    ensures Classify(b) == Finished <==> 72 + b[70] as int * 256 + b[71] as int <= |b|
    ensures |b| == 1096 ==> Classify(b) != Incomplete
  {
    var length := WireLength(b);
    assert length == b[70] as int * 256 + b[71] as int;
    forall more: seq<byte>
      ensures WireLength(b + more) == length
    {
      assert (b + more)[LENGTH_AT..HEADER_SIZE] == b[LENGTH_AT..HEADER_SIZE];
    }
    if length <= MAX_DATA_SIZE {
      var rest: seq<byte> := seq(1096 - |b|, _ => 0);
      assert |b + rest| <= 1096 && Complete(b + rest);
    }
  }

  class EventReader {
    const buffer: array<byte>
    var processed: nat
    var flushBytes: nat
    var state: ReaderState

    ghost predicate Valid()
      reads this, buffer
    {
      && buffer.Length == EVENT_SIZE
      && (state == Collecting ==> processed <= EVENT_SIZE)
      && (state == Skipping ==> processed < flushBytes && EVENT_SIZE < flushBytes)
    }

    /** The bytes collected and not yet taken out as events. */
    ghost function Pending(): seq<byte>
      requires Valid() && state == Collecting
      reads this, buffer
    {
      buffer[..processed]
    }

    constructor ()
      ensures Valid() && state == Collecting && Pending() == [] && fresh(buffer)
    {
      buffer := new byte[EVENT_SIZE](_ => 0);
      processed, flushBytes, state := 0, 0, Collecting;
    }

    /** Ntohs of the length field, meaningful once a header is there. */
    method HeaderLength() returns (length: nat)
      requires Valid()
      ensures length == Ntohs(buffer[LENGTH_AT..HEADER_SIZE])
    {
      length := buffer[LENGTH_AT] as int * 0x100 + buffer[LENGTH_AT + 1] as int;
    }

    method DoRead(input: Input) returns (status: ReadStatus)
      requires Valid() && state == Collecting
      requires input.Bytes? ==> 0 < |input.chunk| <= EVENT_SIZE - processed || processed == EVENT_SIZE
      modifies this`processed, this`flushBytes, buffer
      ensures Valid()
      ensures old(processed) == EVENT_SIZE ==> status == Finished && Pending() == old(Pending())
      ensures old(processed) < EVENT_SIZE ==>
        match input
        case Failed => status == Failure && Pending() == old(Pending())
        case EndOfFile => status == PeerClosed && Pending() == old(Pending())
        case Bytes(chunk) =>
          && Pending() == old(Pending()) + chunk
          && status == Classify(Pending())
          && (status == Oversized ==> flushBytes == HEADER_SIZE + WireLength(Pending()))
    {
      if processed == buffer.Length {
        return Finished;
      }
      match input
      case Failed => return Failure;
      case EndOfFile => return PeerClosed;
      case Bytes(chunk) =>
        for i := 0 to |chunk|
          invariant processed == old(processed)
          invariant buffer[..processed] == old(buffer[..processed])
          invariant buffer[processed..processed + i] == chunk[..i]
        {
          buffer[processed + i] := chunk[i];
        }
        processed := processed + |chunk|;
        assert Pending() == old(Pending()) + chunk;

        if processed < HEADER_SIZE {
          return Incomplete;
        }
        var length := HeaderLength();
        assert buffer[LENGTH_AT..HEADER_SIZE] == Pending()[LENGTH_AT..HEADER_SIZE];
        if buffer.Length < HEADER_SIZE + length {
          flushBytes := HEADER_SIZE + length;
          return Oversized;
        }
        if processed < HEADER_SIZE + length {
          return Incomplete;
        }
        return Finished;
    }

    /** Skips part of an oversize event by reading over the buffer. */
    method DoFlush(input: Input) returns (status: ReadStatus)
      requires Valid() && state == Skipping
      requires input.Bytes? ==> 0 < |input.chunk| <= EVENT_SIZE && |input.chunk| <= flushBytes - processed
      modifies this`processed, buffer
      ensures input.Failed? ==> status == Failure && processed == old(processed)
      ensures input.EndOfFile? ==> status == PeerClosed && processed == old(processed)
      ensures input.Bytes? ==>
        && processed == old(processed) + |input.chunk| <= flushBytes
        && status == if processed == flushBytes then Finished else Incomplete
    {
      match input
      case Failed => return Failure;
      case EndOfFile => return PeerClosed;
      case Bytes(chunk) =>
        for i := 0 to |chunk|
          invariant processed == old(processed)
        {
          buffer[i] := chunk[i];
        }
        processed := processed + |chunk|;
        return if processed == flushBytes then Finished else Incomplete;
    }

    /** chat_event_io_read_from_fd, in either state. An oversize event turns the reader to skipping, and
        skipping it reports nothing but progress. Once all of it is skipped the reader goes back to
        collecting with its count where it is, beyond the end of the buffer: it is not valid again. */
    method ReadFromFd(input: Input) returns (status: ReadStatus)
      requires Valid()
      requires state == Collecting && input.Bytes? ==> 0 < |input.chunk| <= EVENT_SIZE - processed || processed == EVENT_SIZE
      requires state == Skipping && input.Bytes? ==> 0 < |input.chunk| <= EVENT_SIZE && |input.chunk| <= flushBytes - processed
      modifies this, buffer
      ensures status != Oversized
      ensures old(state) == Collecting && input.Bytes? && old(processed) < EVENT_SIZE ==>
        var arrived := old(buffer[..processed]) + input.chunk;
        && status == (if Complete(arrived) then Finished else Incomplete)
        && state == (if Oversize(arrived) then Skipping else Collecting)
        && processed == |arrived| <= EVENT_SIZE && buffer[..processed] == arrived
        && (state == Skipping ==> processed < flushBytes == HEADER_SIZE + WireLength(arrived))
      ensures old(state) == Collecting && !(input.Bytes? && old(processed) < EVENT_SIZE) ==>
        && state == Collecting && processed == old(processed) && buffer[..processed] == old(buffer[..processed])
        && status == (if old(processed) == EVENT_SIZE then Finished
                      else if input.EndOfFile? then PeerClosed else Failure)
      ensures old(state) == Skipping && input.Bytes? ==>
        && status == Incomplete
        && processed == old(processed) + |input.chunk| <= flushBytes
        && state == (if processed == flushBytes then Collecting else Skipping)
        && (Valid() <==> state == Skipping) && (state == Collecting ==> processed > EVENT_SIZE)
      ensures old(state) == Skipping ==> flushBytes == old(flushBytes)
      ensures old(state) == Skipping && !input.Bytes? ==>
        state == Skipping && processed == old(processed) && status == (if input.EndOfFile? then PeerClosed else Failure)
    {
      match state
      case Collecting =>
        status := DoRead(input);
        if status == Oversized {
          state := Skipping;
          status := Incomplete;
        }
      case Skipping =>
        status := DoFlush(input);
        if status == Finished {
          state := Collecting;
          status := Incomplete;
        }
    }

    /** Copies the first event's fields out of the buffer. */
    method FillEvent(event: EventBuffer, length: nat)
      requires Valid() && state == Collecting && event.Valid() && buffer != event.name && buffer != event.data
      requires Complete(Pending()) && length == WireLength(Pending())
      modifies event, event.name, event.data
      ensures event.Valid() && event.length == length && FrameOf(event.View()) == Decode(Pending())
      ensures event.data[length..] == old(event.data[..])[length..]
    {
      ghost var before := Pending();
      assert before[..NAME_AT] == buffer[..NAME_AT];
      assert before[NAME_AT..PADDING_AT] == buffer[NAME_AT..PADDING_AT];
      assert before[HEADER_SIZE..HEADER_SIZE + length] == buffer[HEADER_SIZE..HEADER_SIZE + length];
      event.kind := buffer[0] as int * 0x100_0000 + buffer[1] as int * 0x1_0000 + buffer[2] as int * 0x100 + buffer[3] as int;
      CopyBytes(buffer, NAME_AT, event.name, NAME_SIZE);
      event.length := length;
      CopyBytes(buffer, HEADER_SIZE, event.data, length);
      assert event.data[..length] == before[HEADER_SIZE..HEADER_SIZE + length];
      assert event.name[..] == before[NAME_AT..PADDING_AT];
    }

    /** Takes the first event out of the buffer and moves the rest down. A skipping reader has none. */
    method ExtractReadEvent(event: EventBuffer) returns (result: ExtractResult)
      requires Valid() && event.Valid() && buffer != event.name && buffer != event.data
      modifies this`processed, buffer, event, event.name, event.data
      ensures Valid() && event.Valid()
      ensures state == Skipping || !Complete(old(Pending())) ==>
        && result == NothingToExtract && event.View() == old(event.View())
        && processed == old(processed) && buffer[..] == old(buffer[..])
      ensures state == Collecting && Complete(old(Pending())) ==>
        && event.length <= MAX_DATA_SIZE && FrameOf(event.View()) == Decode(old(Pending()))
        && var b := old(Pending());
        && event.kind == ((b[0] as int * 256 + b[1] as int) * 256 + b[2] as int) * 256 + b[3] as int
        && event.length == b[70] as int * 256 + b[71] as int
        && event.name[..] == b[4..69] && event.data[..event.length] == b[72..72 + event.length]
        && event.data[event.length..] == old(event.data[..])[event.length..]
        && Pending() == old(Pending())[FirstSize(old(Pending()))..]
        && result == if Complete(Pending()) then ExtractMore else ExtractFinished
    {
      if state != Collecting {
        return NothingToExtract;
      }
      var length := HeaderLength();
      ghost var before := Pending();
      assert processed >= HEADER_SIZE ==> before[LENGTH_AT..HEADER_SIZE] == buffer[LENGTH_AT..HEADER_SIZE];
      if processed < HEADER_SIZE || processed < HEADER_SIZE + length {
        return NothingToExtract;
      }

      FillEvent(event, length);
      DecodedAt(before);

      var size := HEADER_SIZE + length;
      processed := processed - size;
      MoveDown(buffer, size, processed);
      assert Pending() == before[size..];

      length := HeaderLength();
      assert processed >= HEADER_SIZE ==> Pending()[LENGTH_AT..HEADER_SIZE] == buffer[LENGTH_AT..HEADER_SIZE];
      if processed >= HEADER_SIZE && processed >= HEADER_SIZE + length {
        return ExtractMore;
      }
      return ExtractFinished;
    }
  }

  /** memcpy from one array into the start of another. */
  method CopyBytes(source: array<byte>, from: nat, target: array<byte>, count: nat)
    requires source != target && from + count <= source.Length && count <= target.Length
    modifies target
    ensures target[..] == source[from..from + count] + old(target[..])[count..]
  {
    for i := 0 to count
      invariant forall j :: 0 <= j < i ==> target[j] == source[from + j]
      invariant forall j :: i <= j < target.Length ==> target[j] == old(target[j])
    {
      target[i] := source[from + i];
    }
  }

  /** memmove towards the start of the same array. */
  method MoveDown(a: array<byte>, from: nat, count: nat)
    requires from + count <= a.Length
    modifies a
    ensures a[..count] == old(a[from..from + count])
  {
    for i := 0 to count
      invariant forall j :: 0 <= j < i ==> a[j] == old(a[from + j])
      invariant forall j :: i <= j < a.Length ==> a[j] == old(a[j])
    {
      a[i] := a[from + i];
    }
  }

  // ---------------------------------------------------------------- the writer

  /** How much of which event has been written. */
  datatype Writer = Ready | InProgress(event: Event, written: nat)
  {
    predicate Valid() {
      InProgress? ==> written < event.Size()
    }
  }

  /** The bytes a write takes, out of the answers left: a missing, zero or too large answer stands for
      everything that remains. */
  function Taken(remaining: nat, writes: seq<nat>): (k: nat)
    ensures remaining > 0 ==> 0 < k <= remaining
  {
    if writes != [] && 0 < writes[0] < remaining then writes[0] else remaining
  }

  datatype WriteResult = NotPopulated | WriteFinished | WriteIncomplete | WriteFailed

  class EventWriter {
    const buffer: array<byte>
    var processed: nat
    var inProgress: bool
    ghost var event: Event

    ghost predicate Valid()
      reads this, buffer
    {
      && buffer.Length == EVENT_SIZE
      && buffer[PADDING_AT] == 0
      && (!inProgress ==> processed == 0)
      && (inProgress ==>
            && event.Valid() && event.length <= MAX_DATA_SIZE && processed < event.Size()
            && buffer[..event.Size()] == Encode(FrameOf(event)))
    }

    ghost function View(): Writer
      reads this
    {
      if inProgress then InProgress(event, processed) else Ready
    }

    constructor ()
      ensures Valid() && View() == Ready && fresh(buffer)
    {
      buffer := new byte[EVENT_SIZE](_ => 0);
      processed, inProgress := 0, false;
    }

    method PutBytes(at: nat, bytes: seq<byte>)
      requires at + |bytes| <= buffer.Length
      modifies buffer
      ensures buffer[..] == old(buffer[..at]) + bytes + old(buffer[at + |bytes|..])
    {
      for i := 0 to |bytes|
        invariant forall j :: 0 <= j < buffer.Length ==>
          buffer[j] == if at <= j < at + i then bytes[j - at] else old(buffer[j])
      {
        buffer[at + i] := bytes[i];
      }
    }

    /** The header's fields; the byte between the name and the length keeps its zero. */
    method PutHeader(kind: nat, name: seq<byte>, length: nat)
      requires buffer.Length == EVENT_SIZE && buffer[PADDING_AT] == 0
      requires kind < 0x1_0000_0000 && |name| == NAME_SIZE && length < 0x1_0000
      modifies buffer
      ensures buffer[..HEADER_SIZE] == Header(kind, name, length)
    {
      PutBytes(0, Htonl(kind));
      PutBytes(NAME_AT, name);
      PutBytes(LENGTH_AT, Htons(length));
      assert buffer[PADDING_AT] == 0;
    }

    /** Serialises an event whose text fits. The code does not look at the state: a busy writer loses its
        event, and the count of what was written of it goes on counting for the new one. */
    method Populate(source: Event) returns (populated: bool)
      requires Valid() && source.Valid()
      modifies this, buffer
      ensures populated == (source.length <= MAX_DATA_SIZE)
      ensures View() == if populated then InProgress(source, old(processed)) else old(View())
      ensures populated ==>
        && ((buffer[0] as int * 256 + buffer[1] as int) * 256 + buffer[2] as int) * 256 + buffer[3] as int == source.kind
        && buffer[4..69] == source.name && buffer[69] == 0
        && buffer[70] as int * 256 + buffer[71] as int == source.length
        && buffer[72..72 + source.length] == source.data[..source.length]
      ensures Valid() <==> !populated || old(processed) < source.Size()
      ensures !old(inProgress) ==> Valid()
    {
      if source.length > MAX_DATA_SIZE {
        return false;
      }
      PutHeader(source.kind, source.name, source.length);
      assert buffer[PADDING_AT] == Header(source.kind, source.name, source.length)[PADDING_AT];
      ghost var header := buffer[..HEADER_SIZE];
      PutBytes(HEADER_SIZE, source.data[..source.length]);
      assert buffer[..HEADER_SIZE] == header;
      assert buffer[..source.Size()] == header + source.data[..source.length];
      BufferLayout(buffer[..], source);
      event := source;
      inProgress := true;
      populated := true;
    }

    /** One write call, which takes `k` bytes, or none when it fails. It always offers the buffer from its
        first byte. */
    method WriteToFd(k: nat) returns (result: WriteResult, wire: seq<byte>)
      requires Valid()
      requires inProgress ==> k <= event.Size() - processed
      modifies this
      ensures Valid()
      ensures !old(inProgress) ==> result == NotPopulated && wire == [] && View() == Ready
      ensures result == WriteFailed <==> old(inProgress) && k == 0
      ensures result == WriteFailed ==> wire == [] && View() == old(View())
      ensures old(inProgress) && k > 0 ==>
        && wire == Encode(FrameOf(old(event)))[..k]
        && (result == WriteFinished <==> old(processed) + k == old(event).Size())
        && View() == if result == WriteFinished then Ready else InProgress(old(event), old(processed) + k)
      ensures old(inProgress) ==> result != NotPopulated
    {
      if !inProgress {
        return NotPopulated, [];
      }
      var size := HEADER_SIZE + buffer[LENGTH_AT] as int * 0x100 + buffer[LENGTH_AT + 1] as int;
      assert size == event.Size() by {
        var encoded := Encode(FrameOf(event));
        assert buffer[LENGTH_AT] == encoded[LENGTH_AT] && buffer[LENGTH_AT + 1] == encoded[LENGTH_AT + 1];
        assert encoded[LENGTH_AT..HEADER_SIZE] == Htons(event.length);
        ShortOrder(event.length);
      }
      if k == 0 {
        return WriteFailed, [];
      }
      wire := buffer[..k];
      assert wire == buffer[..size][..k];
      processed := processed + k;
      if processed < size {
        return WriteIncomplete, wire;
      }
      inProgress := false;
      processed := 0;
      return WriteFinished, wire;
    }
  }

  lemma BufferLayout(buffer: seq<byte>, event: Event)
    requires event.Valid() && event.length <= MAX_DATA_SIZE && |buffer| == EVENT_SIZE
    requires buffer[..event.Size()] == Encode(FrameOf(event))
    ensures ((buffer[0] as int * 256 + buffer[1] as int) * 256 + buffer[2] as int) * 256 + buffer[3] as int == event.kind
    ensures buffer[4..69] == event.name && buffer[69] == 0
    ensures buffer[70] as int * 256 + buffer[71] as int == event.length
    ensures buffer[72..72 + event.length] == event.data[..event.length]
  {
    hide Encode;
    LayoutOf(FrameOf(event));
    var b := buffer[..event.Size()];
    assert forall i :: 0 <= i < |b| ==> b[i] == buffer[i];
    assert b[4..69] == buffer[4..69] && b[72..] == buffer[72..72 + event.length];
  }

  /** Writing an event in the given pieces puts on the wire what `Wire` says; in one piece, its encoding. */
  method WriteEvent(writer: EventWriter, event: Event, sizes: seq<nat>) returns (wire: seq<byte>)
    requires writer.Valid() && !writer.inProgress
    requires event.Valid() && event.length <= MAX_DATA_SIZE && Splits(sizes, event.Size())
    modifies writer, writer.buffer
    ensures writer.Valid() && !writer.inProgress
    ensures wire == Wire(Encode(FrameOf(event)), sizes)
    ensures |sizes| == 1 ==> wire == Encode(FrameOf(event))
  {
    hide Encode;
    EncodedSize(FrameOf(event));
    var populated := writer.Populate(event);
    wire := [];
    var n := 0;
    assert sizes[..0] == [] && sizes[0..] == sizes;
    while n < |sizes|
      invariant 0 <= n <= |sizes| && writer.Valid()
      invariant Sum(sizes[n..]) == event.Size() - (if n < |sizes| then writer.processed else event.Size())
      invariant writer.View() == if n < |sizes| then InProgress(event, writer.processed) else Ready
      invariant wire + Wire(Encode(FrameOf(event)), sizes[n..]) == Wire(Encode(FrameOf(event)), sizes)
    {
      var result, part;
      assert sizes[n..][0] == sizes[n] && sizes[n..][1..] == sizes[n + 1..];
      result, part := writer.WriteToFd(sizes[n]);
      wire := wire + part;
      n := n + 1;
      SumPositive(sizes[n..], event.Size());
    }
  }

  lemma SumPositive(sizes: seq<nat>, total: nat)
    requires forall i :: 0 <= i < |sizes| ==> 0 < sizes[i] <= total
    ensures Sum(sizes) == 0 <==> sizes == []
  {
  }

  // ---------------------------------------------------------------- receiving

  /** What is in the buffer once a read has been made; a full buffer is not read into. */
  function Arrived(pending: seq<byte>, chunk: seq<byte>): seq<byte> {
    if |pending| == EVENT_SIZE then pending else pending + chunk
  }

  /** The extraction loop: events are taken out until none is left, and the one for which extraction says
      FINISHED, which is the last, is handed on. */
  method DrainEvents(reader: EventReader, event: EventBuffer) returns (handedOn: seq<Frame>, ghost batch: seq<Frame>)
    requires reader.Valid() && event.Valid() && reader.buffer != event.name && reader.buffer != event.data
    requires reader.state == Collecting
    modifies reader`processed, reader.buffer, event, event.name, event.data
    ensures reader.Valid() && event.Valid()
    ensures batch == Parse(old(reader.Pending())).frames && handedOn == Last(batch)
    ensures reader.Pending() == Parse(old(reader.Pending())).rest
    ensures |reader.Pending()| < EVENT_SIZE || !Complete(old(reader.Pending()))
  {
    handedOn, batch := [], [];
    var more := true;
    while more
      invariant reader.Valid() && event.Valid()
      invariant batch != [] ==> (more <==> Complete(reader.Pending()))
      invariant Parse(old(reader.Pending())) == Parsed(batch, []).Then(Parse(reader.Pending()))
      invariant handedOn == if more then [] else Last(batch)
      invariant |reader.Pending()| <= EVENT_SIZE - (if batch == [] then 0 else HEADER_SIZE)
      invariant batch == [] ==> reader.Pending() == old(reader.Pending()) && (!more ==> !Complete(reader.Pending()))
      decreases reader.processed, more
    {
      ghost var before := reader.Pending();
      var result := reader.ExtractReadEvent(event);
      more := result == ExtractMore;
      if result != NothingToExtract {
        batch := batch + [Decode(before)];
        if result == ExtractFinished {
          handedOn := [Frame(event.kind, event.name[..], event.data[..event.length])];
        }
        ThenAssociates(Parsed(batch[..|batch| - 1], []), Parsed([Decode(before)], reader.Pending()), Parse(reader.Pending()));
      }
    }
  }

  /** The connection's read loop: reads once, and if an event is complete extracts until none is left.
      It hands an event on only when extraction says FINISHED, so only the last of a batch. */
  method ReadReady(reader: EventReader, event: EventBuffer, input: Input)
    returns (closed: bool, handedOn: seq<Frame>, ghost batch: seq<Frame>)
    requires reader.Valid() && event.Valid() && reader.buffer != event.name && reader.buffer != event.data
    requires input.Failed? ==> reader.state == Collecting && reader.processed == EVENT_SIZE
    requires reader.state == Collecting && input.Bytes? ==>
      0 < |input.chunk| <= EVENT_SIZE - reader.processed || reader.processed == EVENT_SIZE
    requires reader.state == Skipping && input.Bytes? ==>
      0 < |input.chunk| <= EVENT_SIZE && |input.chunk| <= reader.flushBytes - reader.processed
    modifies reader, reader.buffer, event, event.name, event.data
    ensures event.Valid()
    ensures closed == (input.EndOfFile? && !(old(reader.state) == Collecting && old(reader.processed) == EVENT_SIZE))
    ensures closed || old(reader.state) == Skipping ==> handedOn == batch == [] && event.View() == old(event.View())
    ensures closed ==> reader.Valid() && reader.state == old(reader.state) && reader.processed == old(reader.processed)
    ensures closed && reader.state == Collecting ==> reader.Pending() == old(reader.Pending())
    ensures !closed && old(reader.state) == Skipping ==>
      && reader.processed == old(reader.processed) + |input.chunk|
      && reader.state == (if reader.processed == reader.flushBytes then Collecting else Skipping)
    ensures !closed && old(reader.state) == Collecting ==>
      var arrived := Arrived(old(reader.Pending()), if input.Bytes? then input.chunk else []);
      && batch == Parse(arrived).frames && handedOn == Last(batch)
      && (!Oversize(arrived) ==>
            reader.Valid() && reader.state == Collecting && reader.Pending() == Parse(arrived).rest
            && |reader.Pending()| < EVENT_SIZE)
  {
    handedOn, batch, closed := [], [], false;
    var status := reader.ReadFromFd(input);
    if status == PeerClosed {
      return true, [], [];
    }
    if status == Finished {
      handedOn, batch := DrainEvents(reader, event);
    }
  }
}
