/** Whole streams: the reader run over any sequence of reads, and the way of an event from the text one
    side populates to the text the other side extracts. */
module EventStream {
  import opened ChatEvent
  import opened WireFormat
  import opened ChatEventIo

  /** Chunks that read() may return: each fits in the room the ones before it leave. */
  ghost predicate Fits(pending: seq<byte>, chunks: seq<seq<byte>>)
    decreases |chunks|
  {
    chunks != [] ==>
      && 0 < |chunks[0]| <= EVENT_SIZE - |pending|
      && Fits(Parse(pending + chunks[0]).rest, chunks[1..])
  }

  /** No event on the way announces more text than fits. */
  ghost predicate NeverOversize(pending: seq<byte>, chunks: seq<seq<byte>>)
    decreases |chunks|
  {
    chunks != [] ==>
      && !Oversize(pending + chunks[0])
      && NeverOversize(Parse(pending + chunks[0]).rest, chunks[1..])
  }

  /** The reader and its drain loop, read after read, take out exactly the parse of all that arrived. */
  method ReceiveAll(reader: EventReader, event: EventBuffer, chunks: seq<seq<byte>>)
    returns (handedOn: seq<Frame>, ghost batches: seq<seq<Frame>>)
    requires reader.Valid() && event.Valid() && reader.buffer != event.name && reader.buffer != event.data
    requires reader.state == Collecting && !Complete(reader.Pending()) && reader.processed < EVENT_SIZE
    requires Fits(reader.Pending(), chunks) && NeverOversize(reader.Pending(), chunks)
    modifies reader, reader.buffer, event, event.name, event.data
    ensures reader.Valid() && reader.state == Collecting && event.Valid()
    ensures Parsed(Flatten(batches), reader.Pending()) == Parse(old(reader.Pending()) + Concat(chunks))
    ensures handedOn == HandedOn(batches)
    ensures handedOn == Flatten(batches) <==> forall batch :: batch in batches ==> |batch| <= 1
  {
    handedOn := [];
    batches := [];
    ghost var start := reader.Pending();
    var n := 0;
    while n < |chunks|
      invariant 0 <= n <= |chunks|
      invariant reader.Valid() && event.Valid() && reader.state == Collecting && reader.processed < EVENT_SIZE
      invariant Fits(reader.Pending(), chunks[n..]) && NeverOversize(reader.Pending(), chunks[n..])
      invariant Received(batches, []).Then(Receive(reader.Pending(), chunks[n..])) == Receive(start, chunks)
      invariant HandedOn(batches) == handedOn
    {
      assert chunks[n..][0] == chunks[n] && chunks[n..][1..] == chunks[n + 1..];
      ghost var parsed := Parse(reader.Pending() + chunks[n]);
      ReceivedThenAssociates(batches, parsed, Receive(parsed.rest, chunks[n + 1..]));
      var closed, last;
      ghost var batch;
      closed, last, batch := ReadReady(reader, event, Bytes(chunks[n]));
      handedOn := handedOn + last;
      HandedOnAppends(batches, batch);
      batches := batches + [batch];
      n := n + 1;
    }
    assert chunks[n..] == [] && batches + [] == batches;
    ChunkIndependent(start, chunks);
    HandedOnEverything(batches);
  }

  lemma ReceivedThenAssociates(batches: seq<seq<Frame>>, parsed: Parsed, tail: Received)
    ensures Received(batches, []).Then(Received([parsed.frames], parsed.rest).Then(tail))
            == Received(batches + [parsed.frames], []).Then(tail)
  {
  }

  lemma HandedOnAppends(batches: seq<seq<Frame>>, batch: seq<Frame>)
    ensures HandedOn(batches + [batch]) == HandedOn(batches) + Last(batch)
  {
    if batches == [] {
      assert [batch][1..] == [];
    } else {
      assert (batches + [batch])[1..] == batches[1..] + [batch];
      HandedOnAppends(batches[1..], batch);
    }
  }

  // ---------------------------------------------------------------- a stream of well-formed events

  lemma {:induction false} EncodeAllSplits(frames: seq<Frame>, n: nat)
    requires AllValid(frames) && n <= |frames|
    ensures EncodeAll(frames) == EncodeAll(frames[..n]) + EncodeAll(frames[n..])
  {
    if n == 0 {
      assert frames[0..] == frames;
    } else {
      assert frames[..n][1..] == frames[1..][..n - 1] && frames[1..][n - 1..] == frames[n..];
      EncodeAllSplits(frames[1..], n - 1);
    }
  }

  lemma PrefixNotOversize(frames: seq<Frame>, b: seq<byte>)
    requires AllValid(frames) && b <= EncodeAll(frames)
    ensures !Oversize(b)
  {
  }

  lemma {:induction false} EncodedNeverOversize(frames: seq<Frame>, pending: seq<byte>, chunks: seq<seq<byte>>)
    requires AllValid(frames) && pending + Concat(chunks) == EncodeAll(frames)
    ensures NeverOversize(pending, chunks)
    decreases |chunks|
  {
    if chunks != [] {
      var arrived, later := pending + chunks[0], Concat(chunks[1..]);
      assert arrived + later == EncodeAll(frames);
      PrefixNotOversize(frames, arrived);
      var n := ParsePrefix(frames, arrived);
      EncodeAllSplits(frames, n);
      var gone, rest := EncodeAll(frames[..n]), Parse(arrived).rest;
      assert gone + (rest + later) == gone + EncodeAll(frames[n..]);
      assert rest + later == (gone + (rest + later))[|gone|..] == EncodeAll(frames[n..]);
      EncodedNeverOversize(frames[n..], rest, chunks[1..]);
    }
  }

  // ---------------------------------------------------------------- from text to text

  /** What a module asks to be sent, with whatever the two event records it passes through held before. */
  datatype Outgoing = Outgoing(kind: nat, origin: seq<byte>, text: seq<byte>, populated: Event, queued: Event)
  {
    predicate Sendable() {
      && kind < 0x1_0000_0000 && populated.Valid() && queued.Valid()
      && |origin| < NAME_SIZE && |text| < MAX_DATA_SIZE && 0 !in origin && 0 !in text
    }

    /** The event that reaches the writer: populated, then copied into the queue's message. */
    function Queued(): (e: Event)
      requires Sendable()
      ensures WellFormed(e) && e.kind == kind && CString(e.name) == origin && CString(e.data) == text
    {
      PopulateKeepsText(populated, kind, origin, text);
      var first := PopulateResult(populated, kind, origin, text).event;
      CopyIsIdentity(queued, first);
      PopulateKeepsText(queued, kind, origin, text);
      CopyResult(queued, first).event
    }

    function OnWire(): (f: Frame)
      requires Sendable()
      ensures f.Valid()
    {
      FrameOf(Queued())
    }
  }

  /** The receiver's reading of a frame. */
  predicate ReadsAs(f: Frame, o: Outgoing) {
    f.kind == o.kind && Terminated(f.name) && CString(f.name) == o.origin && f.text == o.text + [0]
  }

  lemma OnWireReadsAs(o: Outgoing)
    requires o.Sendable()
    ensures ReadsAs(o.OnWire(), o)
  {
    var e := o.Queued();
    assert e.data[..e.length] == o.text + [0];
  }

  ghost predicate AllSendable(outgoing: seq<Outgoing>) {
    forall i :: 0 <= i < |outgoing| ==> outgoing[i].Sendable()
  }

  function Frames(outgoing: seq<Outgoing>): (frames: seq<Frame>)
    requires forall i :: 0 <= i < |outgoing| ==> outgoing[i].Sendable()
    ensures |frames| == |outgoing| && AllValid(frames)
    ensures forall i :: 0 <= i < |frames| ==> frames[i] == outgoing[i].OnWire()
  {
    seq(|outgoing|, i requires 0 <= i < |outgoing| => outgoing[i].OnWire())
  }

  /** Any list of sendable texts, written whole and cut anyhow by the network, is extracted as the same
      types, names and texts, in order, with nothing over; and the reader never meets an oversize event. */
  lemma EndToEnd(outgoing: seq<Outgoing>, chunks: seq<seq<byte>>)
    requires AllSendable(outgoing) && Concat(chunks) == EncodeAll(Frames(outgoing))
    ensures NeverOversize([], chunks)
    ensures var r := Receive([], chunks);
      && r.rest == []
      && |Flatten(r.batches)| == |outgoing|
      && forall i :: 0 <= i < |outgoing| ==> ReadsAs(Flatten(r.batches)[i], outgoing[i])
  {
    StreamRoundTrip(Frames(outgoing), chunks);
    assert [] + Concat(chunks) == Concat(chunks);
    EncodedNeverOversize(Frames(outgoing), [], chunks);
    forall i | 0 <= i < |outgoing|
      ensures ReadsAs(Frames(outgoing)[i], outgoing[i])
    {
      OnWireReadsAs(outgoing[i]);
    }
  }
}
