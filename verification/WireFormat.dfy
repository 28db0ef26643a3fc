/** The wire format of an event, what a byte stream of events means, and the laws between the two. */
module WireFormat {
  import opened ChatEvent

  /** What one event carries on the wire: 4 bytes of type, the name, a padding byte, 2 bytes of length,
      then that many bytes of text. */
  datatype Frame = Frame(kind: nat, name: seq<byte>, text: seq<byte>)
  {
    predicate Valid() { kind < 0x1_0000_0000 && |name| == NAME_SIZE && |text| <= MAX_DATA_SIZE }
  }

  const NAME_AT: nat := 4
  const PADDING_AT: nat := 69
  const LENGTH_AT: nat := 70

  function Htonl(n: nat): seq<byte>
    requires n < 0x1_0000_0000
  {
    [n / 0x100_0000, n / 0x1_0000 % 0x100, n / 0x100 % 0x100, n % 0x100]
  }

  function Ntohl(b: seq<byte>): nat
    requires |b| == 4
  {
    b[0] as int * 0x100_0000 + b[1] as int * 0x1_0000 + b[2] as int * 0x100 + b[3] as int
  }

  function Htons(n: nat): seq<byte>
    requires n < 0x1_0000
  {
    [n / 0x100, n % 0x100]
  }

  function Ntohs(b: seq<byte>): nat
    requires |b| == 2
  {
    b[0] as int * 0x100 + b[1] as int
  }

  lemma SplitByte(n: nat)
    ensures n == n / 0x100 * 0x100 + n % 0x100
  {
  }

  /** Network order has the most significant byte first. */
  lemma ShortOrder(n: nat)
    requires n < 0x1_0000
    ensures |Htons(n)| == 2 && Htons(n)[0] as int * 256 + Htons(n)[1] as int == n
    ensures Ntohs(Htons(n)) == n
  {
    SplitByte(n);
  }

  /** Byte by byte from the low end. */
  lemma LongOrder(n: nat)
    requires n < 0x1_0000_0000
    ensures var b := Htonl(n);
      |b| == 4 && ((b[0] as int * 256 + b[1] as int) * 256 + b[2] as int) * 256 + b[3] as int == n
    ensures Ntohl(Htonl(n)) == n
  {
    var a, b, c := n / 0x100, n / 0x1_0000, n / 0x100_0000;
    assert a / 0x100 == b && b / 0x100 == c;
    SplitByte(n);
    SplitByte(a);
    SplitByte(b);
  }

  function FrameOf(event: Event): Frame
    requires event.Valid() && event.length <= MAX_DATA_SIZE
  {
    Frame(event.kind, event.name, event.data[..event.length])
  }

  function Header(kind: nat, name: seq<byte>, length: nat): (r: seq<byte>)
    requires kind < 0x1_0000_0000 && |name| == NAME_SIZE && length < 0x1_0000
    ensures |r| == HEADER_SIZE
    ensures r[..NAME_AT] == Htonl(kind) && r[NAME_AT..PADDING_AT] == name
    ensures r[LENGTH_AT..] == Htons(length)
  {
    Htonl(kind) + name + [0] + Htons(length)
  }

  function Encode(f: Frame): (r: seq<byte>)
    requires f.Valid()
    ensures |r| == HEADER_SIZE + |f.text|
  {
    Header(f.kind, f.name, |f.text|) + f.text
  }

  ghost predicate AllValid(frames: seq<Frame>) { forall i :: 0 <= i < |frames| ==> frames[i].Valid() }

  function EncodeAll(frames: seq<Frame>): seq<byte>
    requires AllValid(frames)
  {
    if frames == [] then [] else Encode(frames[0]) + EncodeAll(frames[1..])
  }

  // ---------------------------------------------------------------- reading a stream

  function WireLength(b: seq<byte>): nat
    requires |b| >= HEADER_SIZE
  {
    Ntohs(b[LENGTH_AT..HEADER_SIZE])
  }

  /** The bytes start with an event that fits the reader's buffer, and it is all there. */
  predicate Complete(b: seq<byte>) {
    |b| >= HEADER_SIZE && WireLength(b) <= MAX_DATA_SIZE && HEADER_SIZE + WireLength(b) <= |b|
  }

  /** The bytes start with a header that announces more text than any event may have. */
  predicate Oversize(b: seq<byte>) {
    |b| >= HEADER_SIZE && WireLength(b) > MAX_DATA_SIZE
  }

  function FirstSize(b: seq<byte>): nat
    requires Complete(b)
  {
    HEADER_SIZE + WireLength(b)
  }

  function Decode(b: seq<byte>): (f: Frame)
    requires Complete(b)
    ensures f.Valid()
  {
    Frame(Ntohl(b[..NAME_AT]), b[NAME_AT..PADDING_AT], b[HEADER_SIZE..FirstSize(b)])
  }

  datatype Parsed = Parsed(frames: seq<Frame>, rest: seq<byte>)
  {
    /** This parse, resumed by another from its rest. */
    function Then(next: Parsed): Parsed { Parsed(frames + next.frames, next.rest) }
  }

  /** All the events a stream starts with, and the bytes after them. */
  function Parse(b: seq<byte>): (r: Parsed)
    ensures !Complete(r.rest)
  {
    if Complete(b) then
      Parsed([Decode(b)], b[FirstSize(b)..]).Then(Parse(b[FirstSize(b)..]))
    else
      Parsed([], b)
  }

  lemma ParseNothing(b: seq<byte>)
    requires !Complete(b)
    ensures Parse(b) == Parsed([], b)
  {
  }

  lemma {:induction false} ParsedFramesValid(b: seq<byte>)
    ensures AllValid(Parse(b).frames)
  {
    if Complete(b) {
      ParsedFramesValid(b[FirstSize(b)..]);
    }
  }

  /** Decoding undoes encoding, whatever follows on the stream. */
  lemma DecodeEncode(f: Frame, more: seq<byte>)
    requires f.Valid()
    ensures Complete(Encode(f) + more) && Decode(Encode(f) + more) == f
    ensures FirstSize(Encode(f) + more) == |Encode(f)|
    ensures (Encode(f) + more)[|Encode(f)|..] == more
  {
    LongOrder(f.kind);
    ShortOrder(|f.text|);
    var header := Header(f.kind, f.name, |f.text|);
    var b := Encode(f) + more;
    assert b[..NAME_AT] == header[..NAME_AT];
    assert b[NAME_AT..PADDING_AT] == header[NAME_AT..PADDING_AT];
    assert b[LENGTH_AT..HEADER_SIZE] == header[LENGTH_AT..];
    assert b[HEADER_SIZE..HEADER_SIZE + |f.text|] == f.text;
  }

  /** The 72 bytes in front of the text, counted and read without the functions that make them. */
  lemma LayoutOf(f: Frame)
    requires f.Valid()
    ensures var b := Encode(f);
      && |b| == 72 + |f.text|
      && ((b[0] as int * 256 + b[1] as int) * 256 + b[2] as int) * 256 + b[3] as int == f.kind
      && b[4..69] == f.name && b[69] == 0
      && b[70] as int * 256 + b[71] as int == |f.text|
      && b[72..] == f.text
  {
    LongOrder(f.kind);
    ShortOrder(|f.text|);
    var b, header := Encode(f), Header(f.kind, f.name, |f.text|);
    assert b[..4] == header[..4] == Htonl(f.kind);
    assert b[4..69] == header[4..69] == f.name;
    assert b[70..72] == header[70..] == Htons(|f.text|);
    assert b[0] == b[..4][0] && b[1] == b[..4][1] && b[2] == b[..4][2] && b[3] == b[..4][3];
    assert b[70] == b[70..72][0] && b[71] == b[70..72][1];
  }

  /** And the same of what is read out of such bytes. */
  lemma DecodedAt(b: seq<byte>)
    requires Complete(b)
    ensures var f := Decode(b);
      && f.kind == ((b[0] as int * 256 + b[1] as int) * 256 + b[2] as int) * 256 + b[3] as int
      && f.name == b[4..69]
      && |f.text| == b[70] as int * 256 + b[71] as int <= 1024
      && f.text == b[72..72 + |f.text|]
  {
    assert b[..4][0] == b[0] && b[..4][1] == b[1] && b[..4][2] == b[2] && b[..4][3] == b[3];
    assert b[70..72][0] == b[70] && b[70..72][1] == b[71];
  }

  /** A stream of encoded events parses to exactly those events, with nothing left over. */
  lemma {:induction false} ParseEncodeAll(frames: seq<Frame>)
    requires AllValid(frames)
    ensures Parse(EncodeAll(frames)) == Parsed(frames, [])
  {
    if frames != [] {
      DecodeEncode(frames[0], EncodeAll(frames[1..]));
      ParseEncodeAll(frames[1..]);
    }
  }

  /** The head of a stream does not depend on what comes later. */
  lemma CompleteExtends(b: seq<byte>, more: seq<byte>)
    requires Complete(b)
    ensures Complete(b + more) && FirstSize(b + more) == FirstSize(b) && Decode(b + more) == Decode(b)
    ensures (b + more)[FirstSize(b)..] == b[FirstSize(b)..] + more
  {
  }

  lemma ThenAssociates(a: Parsed, b: Parsed, c: Parsed)
    ensures a.Then(b).Then(c) == a.Then(b.Then(c))
  {
  }

  /** Parsing may stop anywhere and carry its rest over. */
  lemma {:induction false} ParseResumes(b: seq<byte>, more: seq<byte>)
    ensures Parse(b + more) == Parse(b).Then(Parse(Parse(b).rest + more))
  {
    if Complete(b) {
      var tail := b[FirstSize(b)..];
      CompleteExtends(b, more);
      ParseResumes(tail, more);
      ThenAssociates(Parsed([Decode(b)], tail), Parse(tail), Parse(Parse(tail).rest + more));
    } else {
      assert [] + Parse(b + more).frames == Parse(b + more).frames;
    }
  }

  lemma ProperPrefixIncomplete(f: Frame, b: seq<byte>)
    requires f.Valid() && b <= Encode(f) && |b| < |Encode(f)|
    ensures !Complete(b)
  {
  }

  lemma ParseOne(f: Frame, more: seq<byte>)
    requires f.Valid()
    ensures Parse(Encode(f) + more) == Parsed([f], more).Then(Parse(more))
  {
    DecodeEncode(f, more);
  }

  lemma PrefixCases(first: seq<byte>, tail: seq<byte>, b: seq<byte>) returns (more: seq<byte>)
    requires b <= first + tail
    ensures |b| < |first| ==> b <= first && more == []
    ensures |b| >= |first| ==> b == first + more && more <= tail
  {
    more := if |b| < |first| then [] else b[|first|..];
    assert |b| < |first| ==> b == (first + tail)[..|b|] == first[..|b|];
    assert |b| >= |first| ==> b == (first + tail)[..|b|] == first + tail[..|b| - |first|];
  }

  /** The consumed bytes are the encodings of the first n events and what parsing leaves over. */
  ghost predicate AccountedFor(frames: seq<Frame>, consumed: seq<byte>, n: nat) {
    && AllValid(frames) && n <= |frames|
    && Parse(consumed).frames == frames[..n]
    && consumed == EncodeAll(frames[..n]) + Parse(consumed).rest
  }

  lemma OneMoreAccountedFor(frames: seq<Frame>, more: seq<byte>, n: nat)
    requires AllValid(frames) && frames != [] && AccountedFor(frames[1..], more, n)
    ensures AccountedFor(frames, Encode(frames[0]) + more, n + 1)
  {
    hide Parse, Encode;
    var first, rest := Encode(frames[0]), Parse(more).rest;
    ParseOne(frames[0], more);
    assert frames[..n + 1][1..] == frames[1..][..n];
    assert frames[..n + 1] == [frames[0]] + frames[1..][..n];
    assert first + (EncodeAll(frames[1..][..n]) + rest) == first + EncodeAll(frames[1..][..n]) + rest;
  }

  /** Having consumed any part of a stream of encoded events, a receiver has the first few of those
      events, and its leftover bytes are all that is not accounted for by them. */
  lemma {:induction false} ParsePrefix(frames: seq<Frame>, consumed: seq<byte>) returns (n: nat)
    requires AllValid(frames) && consumed <= EncodeAll(frames)
    ensures AccountedFor(frames, consumed, n)
  {
    n := 0;
    if frames != [] {
      var more := PrefixCases(Encode(frames[0]), EncodeAll(frames[1..]), consumed);
      if |consumed| >= |Encode(frames[0])| {
        var k := ParsePrefix(frames[1..], more);
        OneMoreAccountedFor(frames, more, k);
        n := k + 1;
      } else {
        ProperPrefixIncomplete(frames[0], consumed);
      }
    }
  }

  // ---------------------------------------------------------------- chunks

  function Concat(chunks: seq<seq<byte>>): seq<byte> {
    if chunks == [] then [] else chunks[0] + Concat(chunks[1..])
  }

  function Flatten(batches: seq<seq<Frame>>): seq<Frame> {
    if batches == [] then [] else batches[0] + Flatten(batches[1..])
  }

  datatype Received = Received(batches: seq<seq<Frame>>, rest: seq<byte>)
  {
    function Then(next: Received): Received { Received(batches + next.batches, next.rest) }
  }

  /** Receiving chunk by chunk: after each one, everything complete is taken out of the buffer. */
  function Receive(pending: seq<byte>, chunks: seq<seq<byte>>): (r: Received)
    ensures |r.batches| == |chunks|
    decreases |chunks|
  {
    if chunks == [] then Received([], pending)
    else
      var parsed := Parse(pending + chunks[0]);
      var r := Receive(parsed.rest, chunks[1..]);
      Received([parsed.frames], parsed.rest).Then(r)
  }

  /** Chunking does not matter: any splitting yields the parse of the whole stream. */
  lemma {:induction false} ChunkIndependent(pending: seq<byte>, chunks: seq<seq<byte>>)
    requires !Complete(pending)
    ensures var r := Receive(pending, chunks);
      Parse(pending + Concat(chunks)) == Parsed(Flatten(r.batches), r.rest)
    decreases |chunks|
  {
    hide Parse, Complete;
    if chunks == [] {
      ParseNothing(pending);
      assert pending + Concat(chunks) == pending;
    } else {
      var parsed := Parse(pending + chunks[0]);
      ChunkIndependent(parsed.rest, chunks[1..]);
      ParseResumes(pending + chunks[0], Concat(chunks[1..]));
      assert pending + Concat(chunks) == pending + chunks[0] + Concat(chunks[1..]);
    }
  }

  /** So a stream of encoded events arrives whole and in order however it is cut. */
  lemma StreamRoundTrip(frames: seq<Frame>, chunks: seq<seq<byte>>)
    requires AllValid(frames) && Concat(chunks) == EncodeAll(frames)
    ensures Flatten(Receive([], chunks).batches) == frames && Receive([], chunks).rest == []
  {
    ChunkIndependent([], chunks);
    ParseEncodeAll(frames);
    assert [] + Concat(chunks) == Concat(chunks);
  }

  // ---------------------------------------------------------------- what is handed on

  /** read_ready hands on only the last event of each batch. */
  function HandedOn(batches: seq<seq<Frame>>): seq<Frame> {
    if batches == [] then [] else Last(batches[0]) + HandedOn(batches[1..])
  }

  function Last(batch: seq<Frame>): seq<Frame> {
    if batch == [] then [] else [batch[|batch| - 1]]
  }

  lemma {:induction false} HandedOnIsShorter(batches: seq<seq<Frame>>)
    ensures |HandedOn(batches)| <= |Flatten(batches)|
    ensures |HandedOn(batches)| == |Flatten(batches)| <==> forall batch :: batch in batches ==> |batch| <= 1
  {
    if batches != [] {
      HandedOnIsShorter(batches[1..]);
      assert forall batch :: batch in batches <==> batch == batches[0] || batch in batches[1..];
    }
  }

  /** The newest event received is always handed on, as the last. */
  lemma {:induction false} NewestHandedOn(batches: seq<seq<Frame>>)
    requires Flatten(batches) != []
    ensures HandedOn(batches) != []
    ensures HandedOn(batches)[|HandedOn(batches)| - 1] == Flatten(batches)[|Flatten(batches)| - 1]
  {
    HandedOnIsShorter(batches[1..]);
    if Flatten(batches[1..]) != [] {
      NewestHandedOn(batches[1..]);
    }
  }

  lemma {:induction false} HandedOnSingles(batches: seq<seq<Frame>>)
    requires forall batch :: batch in batches ==> |batch| <= 1
    ensures HandedOn(batches) == Flatten(batches)
  {
    if batches != [] {
      var first, rest := batches[0], batches[1..];
      assert first in batches && forall batch :: batch in rest ==> batch in batches;
      HandedOnSingles(rest);
      assert Last(first) == first by {
        hide HandedOn, Flatten;
      }
      assert HandedOn(batches) == Last(first) + HandedOn(rest) && Flatten(batches) == first + Flatten(rest);
    }
  }

  /** Nothing received is dropped exactly when no read ever completes two events at once. */
  lemma HandedOnEverything(batches: seq<seq<Frame>>)
    ensures HandedOn(batches) == Flatten(batches) <==> forall batch :: batch in batches ==> |batch| <= 1
  {
    HandedOnIsShorter(batches);
    if forall batch :: batch in batches ==> |batch| <= 1 {
      HandedOnSingles(batches);
    }
  }

  // ---------------------------------------------------------------- writing in pieces

  /** How many of the events end within the first m bytes of their encodings. */
  function Ended(frames: seq<Frame>, m: nat): (n: nat)
    requires AllValid(frames)
    ensures n <= |frames|
  {
    if frames == [] || m < HEADER_SIZE + |frames[0].text| then 0
    else 1 + Ended(frames[1..], m - HEADER_SIZE - |frames[0].text|)
  }

  /** No chunk holds the last bytes of two events. `m` bytes went before. */
  predicate OneEndEach(frames: seq<Frame>, m: nat, chunks: seq<seq<byte>>)
    requires AllValid(frames)
    decreases |chunks|
  {
    chunks == []
    || (Ended(frames, m + |chunks[0]|) <= Ended(frames, m) + 1 && OneEndEach(frames, m + |chunks[0]|, chunks[1..]))
  }

  lemma EncodedSize(f: Frame)
    requires f.Valid()
    ensures |Encode(f)| == HEADER_SIZE + |f.text|
  {
  }

  lemma {:induction false} ParseEnds(frames: seq<Frame>, consumed: seq<byte>)
    requires AllValid(frames) && consumed <= EncodeAll(frames)
    ensures Parse(consumed).frames == frames[..Ended(frames, |consumed|)]
  {
    hide Parse, Complete, Encode;
    if frames == [] {
      ParseNothing(consumed) by {
        NothingIsIncomplete();
      }
    } else {
      EncodedSize(frames[0]);
    }
    if frames != [] {
      var more := PrefixCases(Encode(frames[0]), EncodeAll(frames[1..]), consumed);
      if |consumed| >= |Encode(frames[0])| {
        ParseEnds(frames[1..], more);
        ParseOne(frames[0], more);
        assert frames[..Ended(frames, |consumed|)] == [frames[0]] + frames[1..][..Ended(frames[1..], |more|)];
      } else {
        ProperPrefixIncomplete(frames[0], consumed);
        ParseNothing(consumed);
      }
    }
  }

  lemma NothingIsIncomplete()
    ensures !Complete([])
  {
  }

  /** `before` has been received, and its rest is pending. */
  lemma {:induction false} SinglesAreSingleEnds(frames: seq<Frame>, before: seq<byte>, chunks: seq<seq<byte>>)
    requires AllValid(frames) && before + Concat(chunks) == EncodeAll(frames)
    ensures (forall batch :: batch in Receive(Parse(before).rest, chunks).batches ==> |batch| <= 1)
            <==> OneEndEach(frames, |before|, chunks)
    decreases |chunks|
  {
    hide Parse, AllValid, EncodeAll, Ended;
    if chunks != [] {
      var after := before + chunks[0];
      assert after + Concat(chunks[1..]) == EncodeAll(frames);
      ParseResumes(before, chunks[0]);
      ParseEnds(frames, before);
      ParseEnds(frames, after);
      SinglesAreSingleEnds(frames, after, chunks[1..]);
      var r := Receive(Parse(before).rest, chunks);
      assert r.batches == [Parse(Parse(before).rest + chunks[0]).frames] + Receive(Parse(after).rest, chunks[1..]).batches;
      assert |Parse(after).frames| == |Parse(before).frames| + |r.batches[0]|;
    }
  }

  /** Of a stream of encoded events every one is handed on exactly when no chunk holds the last bytes of
      two of them. */
  lemma HandedOnIffSpread(frames: seq<Frame>, chunks: seq<seq<byte>>)
    requires AllValid(frames) && Concat(chunks) == EncodeAll(frames)
    ensures HandedOn(Receive([], chunks).batches) == frames <==> OneEndEach(frames, 0, chunks)
  {
    StreamRoundTrip(frames, chunks);
    HandedOnEverything(Receive([], chunks).batches);
    assert [] + Concat(chunks) == EncodeAll(frames);
    SinglesAreSingleEnds(frames, [], chunks);
  }

  function Sum(sizes: seq<nat>): nat {
    if sizes == [] then 0 else sizes[0] + Sum(sizes[1..])
  }

  /** What a writer that always starts at the first byte puts on the wire in writes of these sizes. */
  function Wire(encoded: seq<byte>, sizes: seq<nat>): (r: seq<byte>)
    requires forall i :: 0 <= i < |sizes| ==> sizes[i] <= |encoded|
    ensures |r| == Sum(sizes)
  {
    if sizes == [] then [] else encoded[..sizes[0]] + Wire(encoded, sizes[1..])
  }

  /** Whatever is written at position i comes from position i or an earlier one. */
  lemma {:induction false} WireLagsBehind(encoded: seq<byte>, sizes: seq<nat>, i: nat) returns (j: nat)
    requires forall k :: 0 <= k < |sizes| ==> sizes[k] <= |encoded|
    requires i < Sum(sizes)
    ensures j <= i && j < |encoded| && Wire(encoded, sizes)[i] == encoded[j]
  {
    if i < sizes[0] {
      j := i;
    } else {
      j := WireLagsBehind(encoded, sizes[1..], i - sizes[0]);
    }
  }

  ghost predicate Splits(sizes: seq<nat>, total: nat) {
    Sum(sizes) == total && forall i :: 0 <= i < |sizes| ==> 0 < sizes[i] <= total
  }

  /** A frame on which every split write goes wrong. */
  function Witness(length: nat): (f: Frame)
    requires length <= MAX_DATA_SIZE
    ensures f.Valid() && |f.text| == length
  {
    Frame(1, seq(NAME_SIZE, _ => 97), seq(length, _ => 98))
  }

  /** Four small leading bytes, and large ones where name and text are. */
  ghost predicate Telltale(e: seq<byte>) {
    && |e| > HEADER_SIZE
    && e[0] == 0 && e[1] == 0 && e[2] == 0 && e[3] == 1
    && (forall i :: NAME_AT <= i < PADDING_AT ==> e[i] > 1)
    && (forall i :: HEADER_SIZE <= i < |e| ==> e[i] > 1)
  }

  lemma WitnessIsTelltale(length: nat)
    requires 0 < length <= MAX_DATA_SIZE
    ensures Telltale(Encode(Witness(length)))
  {
  }

  /** Restarting at the first byte shows wherever small leading bytes land on large later ones. */
  lemma GarbledAt(e: seq<byte>, sizes: seq<nat>, at: nat)
    requires |sizes| > 1 && (forall i :: 0 <= i < |sizes| ==> sizes[i] <= |e|)
    requires sizes[0] <= at < Sum(sizes) == |e| && |e| > 3
    requires forall j :: 0 <= j <= at - sizes[0] ==> e[j] != e[at]
    ensures Wire(e, sizes) != e
  {
    var j := WireLagsBehind(e, sizes[1..], at - sizes[0]);
    assert Wire(e, sizes)[at] == Wire(e, sizes[1..])[at - sizes[0]] == e[j];
  }

  lemma SplitWriteGarbles(e: seq<byte>, sizes: seq<nat>)
    requires Telltale(e) && Splits(sizes, |e|) && |sizes| > 1
    ensures Wire(e, sizes) != e
  {
    var first := sizes[0];
    assert Sum(sizes[1..]) >= sizes[1];
    GarbledAt(e, sizes,
              if first < NAME_AT then 3 else if PADDING_AT <= first < HEADER_SIZE then HEADER_SIZE else first);
  }

  ghost predicate Intact(f: Frame, sizes: seq<nat>)
    requires f.Valid()
  {
    (forall i :: 0 <= i < |sizes| ==> sizes[i] <= |Encode(f)|) && Wire(Encode(f), sizes) == Encode(f)
  }

  /** Every event of a given length reaches the wire intact exactly when it is written in one piece. */
  lemma OnlyWholeWritesAreIntact(length: nat, sizes: seq<nat>)
    requires 0 < length <= MAX_DATA_SIZE && Splits(sizes, HEADER_SIZE + length)
    ensures (forall f: Frame :: f.Valid() && |f.text| == length ==> Intact(f, sizes)) <==> |sizes| == 1
  {
    if |sizes| == 1 {
      forall f: Frame | f.Valid() && |f.text| == length
        ensures Intact(f, sizes)
      {
        assert Wire(Encode(f), sizes) == Encode(f)[..sizes[0]] + Wire(Encode(f), []);
        assert Sum(sizes) == sizes[0] + Sum([]);
      }
    } else {
      assert sizes != [];
      WitnessIsTelltale(length);
      SplitWriteGarbles(Encode(Witness(length)), sizes);
      assert Witness(length).Valid() && !Intact(Witness(length), sizes);
    }
  }
}
