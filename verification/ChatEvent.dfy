/** The event record that every module passes around, and the two operations that fill it:
    printing a C string into a fixed buffer, and populating or copying an event. */
module ChatEvent {

  type byte = x: int | 0 <= x < 256

  const NAME_SIZE: nat := 65
  const MAX_DATA_SIZE: nat := 1024
  const HEADER_SIZE: nat := 72
  const EVENT_SIZE: nat := 1096

  /** An sCHAT_EVENT as a value; `data` is the whole fixed array, of which `length` bytes are meant. */
  datatype Event = Event(kind: nat, name: seq<byte>, length: nat, data: seq<byte>)
  {
    predicate Valid() {
      kind < 0x1_0000_0000 && |name| == NAME_SIZE && length < 0x1_0000 && |data| == MAX_DATA_SIZE
    }

    /** The number of bytes this event takes on the wire. */
    function Size(): nat { HEADER_SIZE + length }
  }

  datatype Status = Success | NoSpace

  // ---------------------------------------------------------------- C strings

  /** A buffer that holds a terminating zero somewhere. */
  predicate Terminated(buffer: seq<byte>) { 0 in buffer }

  /** The characters before the first zero: what "%s" prints. */
  function CString(buffer: seq<byte>): (text: seq<byte>)
    requires Terminated(buffer)
    ensures |text| < |buffer| && text == buffer[..|text|] && buffer[|text|] == 0 && 0 !in text
  {
    if buffer[0] == 0 then [] else [buffer[0]] + CString(buffer[1..])
  }

  lemma {:induction false} CStringUnique(buffer: seq<byte>, text: seq<byte>)
    requires |text| < |buffer| && text == buffer[..|text|] && buffer[|text|] == 0 && 0 !in text
    ensures Terminated(buffer) && CString(buffer) == text
  {
  }

  function Min(a: nat, b: nat): nat { if a < b then a else b }

  /** The buffer after snprintf(buffer, size, "%s", text): a truncated copy, a zero, and old bytes; nothing
      at all fits an empty buffer, not even the zero. */
  function Printed(buffer: seq<byte>, text: seq<byte>): (r: seq<byte>)
    ensures |r| == |buffer|
  {
    if buffer == [] then []
    else
      var kept := Min(|text|, |buffer| - 1);
      text[..kept] + [0] + buffer[kept + 1..]
  }

  /** The printed text reads back whole exactly when the buffer has room for its terminator, and nothing
      behind the terminator is touched. */
  lemma PrintedReadsBack(buffer: seq<byte>, text: seq<byte>)
    requires |buffer| > 0 && 0 !in text
    ensures Terminated(Printed(buffer, text))
    ensures CString(Printed(buffer, text)) == text <==> |text| < |buffer|
    ensures CString(Printed(buffer, text)) == text[..Min(|text|, |buffer| - 1)]
    ensures forall i :: |CString(Printed(buffer, text))| < i < |buffer| ==> Printed(buffer, text)[i] == buffer[i]
  {
    var kept := text[..Min(|text|, |buffer| - 1)];
    var printed := Printed(buffer, text);
    assert printed[..|kept|] == kept && printed[|kept|] == 0;
    CStringUnique(printed, kept);
  }

  /** Prints a string into a fixed buffer. A string of exactly the buffer's size is truncated
      and still reported as a success, because the source compares with `>`. */
  method PrintStringToBuffer(buffer: array<byte>, text: seq<byte>) returns (status: Status, printedLength: nat)
    modifies buffer
    ensures buffer[..] == Printed(old(buffer[..]), text)
    ensures status == if |text| > buffer.Length then NoSpace else Success
    ensures printedLength == Min(|text|, buffer.Length) + 1
  {
    if buffer.Length > 0 {
      var i := 0;
      while i < |text| && i < buffer.Length - 1
        invariant 0 <= i <= Min(|text|, buffer.Length - 1)
        invariant forall j :: 0 <= j < i ==> buffer[j] == text[j]
        invariant forall j :: i <= j < buffer.Length ==> buffer[j] == old(buffer[j])
      {
        buffer[i] := text[i];
        i := i + 1;
      }
      buffer[i] := 0;
    }
    assert buffer[..] == Printed(old(buffer[..]), text);

    if |text| > buffer.Length {
      printedLength := buffer.Length;
      status := NoSpace;
    } else {
      printedLength := |text|;
      status := Success;
    }
    printedLength := printedLength + 1;
  }

  // ---------------------------------------------------------------- populating events

  datatype Populated = Populated(status: Status, event: Event)

  /** The event a populate call leaves behind; on failure the length is not written, and a failing
      name leaves the data alone too. */
  function PopulateResult(event: Event, kind: nat, origin: seq<byte>, text: seq<byte>): Populated
    requires event.Valid()
  {
    var named := event.(kind := kind, name := Printed(event.name, origin));
    if |origin| > NAME_SIZE then
      Populated(NoSpace, named)
    else
      var filled := named.(data := Printed(event.data, text));
      if |text| > MAX_DATA_SIZE then
        Populated(NoSpace, filled)
      else
        Populated(Success, filled.(length := |text| + 1))
  }

  /** chat_event_copy: populate from the source's own strings. */
  function CopyResult(event: Event, source: Event): Populated
    requires event.Valid() && Terminated(source.name) && Terminated(source.data)
  {
    PopulateResult(event, source.kind, CString(source.name), CString(source.data))
  }

  /** The record the modules fill in place. */
  class EventBuffer {
    var kind: nat
    const name: array<byte>
    var length: nat
    const data: array<byte>

    ghost predicate Valid()
      reads this, name, data
    {
      name != data && View().Valid()
    }

    ghost function View(): Event
      reads this, name, data
    {
      Event(kind, name[..], length, data[..])
    }

    constructor ()
      ensures Valid() && fresh(name) && fresh(data)
    {
      kind, length := 0, 0;
      name := new byte[NAME_SIZE](_ => 0);
      data := new byte[MAX_DATA_SIZE](_ => 0);
    }

    method Populate(newKind: nat, origin: seq<byte>, text: seq<byte>) returns (status: Status)
      requires Valid() && newKind < 0x1_0000_0000
      modifies this, name, data
      ensures Valid()
      ensures Populated(status, View()) == PopulateResult(old(View()), newKind, origin, text)
    {
      kind := newKind;

      var printedLength;
      status, printedLength := PrintStringToBuffer(name, origin);
      if status != Success {
        return;
      }

      status, printedLength := PrintStringToBuffer(data, text);
      if status != Success {
        return;
      }

      if printedLength > 0xFFFF {
        assert false;
        return NoSpace;
      }
      length := printedLength;
    }

    method CopyFrom(source: EventBuffer) returns (status: Status)
      requires Valid() && source.Valid()
      requires {name, data} !! {source.name, source.data} && source != this
      requires Terminated(source.name[..]) && Terminated(source.data[..])
      modifies this, name, data
      ensures Valid() && source.View() == old(source.View())
      ensures Populated(status, View()) == CopyResult(old(View()), source.View())
    {
      status := Populate(source.kind, CString(source.name[..]), CString(source.data[..]));
    }
  }

  // ---------------------------------------------------------------- what populate and copy promise

  /** An event as the code means it: terminated name, text with its terminator counted in the length. */
  predicate WellFormed(event: Event) {
    && event.Valid()
    && Terminated(event.name)
    && Terminated(event.data)
    && event.length == |CString(event.data)| + 1
  }

  /** Populate yields a well-formed event holding the given strings exactly when both fit with their
      terminators. In particular a text of exactly 1024 bytes is reported as a success but is not kept. */
  lemma PopulateKeepsText(event: Event, kind: nat, origin: seq<byte>, text: seq<byte>)
    requires event.Valid() && kind < 0x1_0000_0000 && 0 !in origin && 0 !in text
    ensures var r := PopulateResult(event, kind, origin, text);
      r.event.Valid()
      && ((r.status.Success? && WellFormed(r.event)
           && CString(r.event.name) == origin && CString(r.event.data) == text)
          <==> |origin| < NAME_SIZE && |text| < MAX_DATA_SIZE)
  {
    PrintedReadsBack(event.name, origin);
    PrintedReadsBack(event.data, text);
  }

  /** What a caller is told, and what it finds. A failure leaves the length, and a failing name the text,
      as they were. A success cuts a string off exactly when one fills its whole buffer. */
  lemma PopulateReports(event: Event, kind: nat, origin: seq<byte>, text: seq<byte>)
    requires event.Valid() && 0 !in origin && 0 !in text
    ensures var r := PopulateResult(event, kind, origin, text);
      && r.event.kind == kind && CString(r.event.name) == origin[..Min(|origin|, 64)]
      && (r.status.NoSpace? <==> |origin| > 65 || |text| > 1024)
      && r.event.length == (if r.status.NoSpace? then event.length else |text| + 1)
      && (|origin| > 65 ==> r.event.data == event.data)
      && (|origin| <= 65 ==> CString(r.event.data) == text[..Min(|text|, 1023)])
      && (r.status.Success? ==>
            (CString(r.event.name) != origin || CString(r.event.data) != text <==> |origin| == 65 || |text| == 1024))
  {
    PrintedReadsBack(event.name, origin);
    PrintedReadsBack(event.data, text);
  }

  /** Two events that agree on everything a receiver may look at. */
  predicate SameContent(a: Event, b: Event) {
    && a.kind == b.kind
    && a.length == b.length <= MAX_DATA_SIZE
    && |a.data| == |b.data| == MAX_DATA_SIZE
    && Terminated(a.name) && Terminated(b.name) && CString(a.name) == CString(b.name)
    && a.data[..a.length] == b.data[..b.length]
  }

  /** Copying is the identity on well-formed events. */
  lemma CopyIsIdentity(event: Event, source: Event)
    requires event.Valid() && WellFormed(source)
    ensures CopyResult(event, source).status.Success?
    ensures WellFormed(CopyResult(event, source).event)
    ensures SameContent(CopyResult(event, source).event, source)
  {
    var origin, text := CString(source.name), CString(source.data);
    PopulateKeepsText(event, source.kind, origin, text);
    TextWithTerminator(CopyResult(event, source).event.data);
    TextWithTerminator(source.data);
  }

  lemma TextWithTerminator(buffer: seq<byte>)
    requires Terminated(buffer)
    ensures buffer[..|CString(buffer)| + 1] == CString(buffer) + [0]
  {
  }
}
