/** The bounded queue between threads: fixed-size messages in one flat byte ring. Locking makes each
    operation atomic, and a get waits until the queue is not empty. */
module MessageQueue {
  import opened ChatEvent

  datatype QueueStatus = Done | InvalidArg | QueueFull | Empty

  // ---------------------------------------------------------------- the ring as a sequence

  /** The ring position of the k-th message from the front. */
  function Slot(front: nat, k: nat, queueSize: nat): (i: nat)
    requires queueSize > 0
    ensures i < queueSize
  {
    (front + k) % queueSize
  }

  /** With the front in range, a position wraps around at most once. */
  lemma SlotWraps(front: nat, k: nat, queueSize: nat)
    requires front < queueSize && k <= queueSize
    ensures Slot(front, k, queueSize) == if front + k < queueSize then front + k else front + k - queueSize
  {
  }

  lemma NotNegative(a: nat, b: nat)
    ensures 0 <= a * b
  {
  }

  lemma SlotsDiffer(front: nat, j: nat, k: nat, queueSize: nat)
    requires front < queueSize && j < k < queueSize
    ensures Slot(front, j, queueSize) != Slot(front, k, queueSize)
  {
    SlotWraps(front, j, queueSize);
    SlotWraps(front, k, queueSize);
  }

  /** Advancing the front by one shifts every position by one. */
  lemma SlotAdvances(front: nat, k: nat, queueSize: nat)
    requires front < queueSize && k < queueSize
    ensures (front + 1) % queueSize < queueSize
    ensures Slot((front + 1) % queueSize, k, queueSize) == Slot(front, k + 1, queueSize)
  {
    SlotWraps(front, 1, queueSize);
    SlotWraps(Slot(front, 1, queueSize), k, queueSize);
    SlotWraps(front, k + 1, queueSize);
  }

  /** Slots lie inside the buffer, and different slots do not overlap. */
  lemma SlotsDisjoint(i: nat, j: nat, messageSize: nat)
    requires i < j
    ensures 0 <= i * messageSize && i * messageSize + messageSize <= j * messageSize
  {
    NotNegative(i, messageSize);
    NotNegative(j - i - 1, messageSize);
    assert j * messageSize == i * messageSize + messageSize + (j - i - 1) * messageSize;
  }

  lemma SlotInside(i: nat, queueSize: nat, messageSize: nat)
    requires i < queueSize
    ensures 0 <= i * messageSize && i * messageSize + messageSize <= queueSize * messageSize
  {
    SlotsDisjoint(i, queueSize, messageSize);
  }

  function SlotBytes(buffer: seq<byte>, i: nat, queueSize: nat, messageSize: nat): (r: seq<byte>)
    requires i < queueSize && |buffer| == queueSize * messageSize
    ensures |r| == messageSize
  {
    SlotInside(i, queueSize, messageSize);
    buffer[i * messageSize..i * messageSize + messageSize]
  }

  /** The messages in the ring, oldest first. */
  function Ring(buffer: seq<byte>, queueSize: nat, messageSize: nat, front: nat, used: nat): (r: seq<seq<byte>>)
    requires |buffer| == queueSize * messageSize && used <= queueSize
    ensures |r| == used
    ensures forall k :: 0 <= k < used ==> r[k] == SlotBytes(buffer, Slot(front, k, queueSize), queueSize, messageSize)
  {
    seq(used, k requires 0 <= k < used => SlotBytes(buffer, Slot(front, k, queueSize), queueSize, messageSize))
  }

  /** Writing the slot behind the last message appends it and disturbs no other. */
  lemma RingAppends(before: seq<byte>, after: seq<byte>, queueSize: nat, messageSize: nat, front: nat, used: nat, message: seq<byte>)
    requires |before| == |after| == queueSize * messageSize && front < queueSize && used < queueSize && |message| == messageSize
    requires SlotBytes(after, Slot(front, used, queueSize), queueSize, messageSize) == message
    requires forall i :: 0 <= i < queueSize && i != Slot(front, used, queueSize) ==>
      SlotBytes(after, i, queueSize, messageSize) == SlotBytes(before, i, queueSize, messageSize)
    ensures Ring(after, queueSize, messageSize, front, used + 1) == Ring(before, queueSize, messageSize, front, used) + [message]
  {
    forall k | 0 <= k < used
      ensures Ring(after, queueSize, messageSize, front, used + 1)[k] == Ring(before, queueSize, messageSize, front, used)[k]
    {
      SlotsDiffer(front, k, used, queueSize);
    }
  }

  /** Advancing the front drops exactly the oldest message. */
  lemma RingDropsFirst(buffer: seq<byte>, queueSize: nat, messageSize: nat, front: nat, used: nat)
    requires |buffer| == queueSize * messageSize && front < queueSize && 0 < used <= queueSize
    ensures Ring(buffer, queueSize, messageSize, (front + 1) % queueSize, used - 1)
            == Ring(buffer, queueSize, messageSize, front, used)[1..]
  {
    var after := Ring(buffer, queueSize, messageSize, (front + 1) % queueSize, used - 1);
    forall k | 0 <= k < |after|
      ensures after[k] == Ring(buffer, queueSize, messageSize, front, used)[k + 1]
    {
      SlotAdvances(front, k, queueSize);
    }
  }

  // ---------------------------------------------------------------- the queue

  class MessageQueue {
    const buffer: array<byte>
    const messageSize: nat
    const queueSize: nat
    var frontIndex: nat
    var usedSlots: nat

    ghost predicate Valid()
      reads this, buffer
    {
      && messageSize > 0
      && buffer.Length == queueSize * messageSize
      && usedSlots <= queueSize
      && (queueSize > 0 ==> frontIndex < queueSize)
    }

    /** The queued messages, oldest first. */
    ghost function Contents(): seq<seq<byte>>
      requires Valid()
      reads this, buffer
    {
      Ring(buffer[..], queueSize, messageSize, frontIndex, usedSlots)
    }

    constructor (queueSize: nat, messageSize: nat)
      requires messageSize > 0
      ensures Valid() && Contents() == [] && fresh(buffer)
      ensures this.queueSize == queueSize && this.messageSize == messageSize
    {
      this.queueSize, this.messageSize := queueSize, messageSize;
      frontIndex, usedSlots := 0, 0;
      buffer := new byte[queueSize * messageSize](_ => 0);
    }

    /** Copies one message's bytes into a slot. */
    method WriteSlot(i: nat, message: seq<byte>)
      requires Valid() && i < queueSize && |message| >= messageSize
      modifies buffer
      ensures SlotBytes(buffer[..], i, queueSize, messageSize) == message[..messageSize]
      ensures forall j :: 0 <= j < queueSize && j != i ==>
        SlotBytes(buffer[..], j, queueSize, messageSize) == SlotBytes(old(buffer[..]), j, queueSize, messageSize)
    {
      SlotInside(i, queueSize, messageSize);
      var offset := i * messageSize;
      for n := 0 to messageSize
        invariant forall m :: 0 <= m < buffer.Length ==>
          buffer[m] == if offset <= m < offset + n then message[m - offset] else old(buffer[m])
      {
        buffer[offset + n] := message[n];
      }
      forall j | 0 <= j < queueSize && j != i
        ensures SlotBytes(buffer[..], j, queueSize, messageSize) == SlotBytes(old(buffer[..]), j, queueSize, messageSize)
      {
        SlotInside(j, queueSize, messageSize);
        if i < j {
          SlotsDisjoint(i, j, messageSize);
        } else {
          SlotsDisjoint(j, i, messageSize);
        }
      }
    }

    /** `size` is what the caller claims; the copy always takes a whole slot's worth. */
    method Put(message: seq<byte>, size: nat) returns (status: QueueStatus)
      requires Valid()
      requires size <= messageSize ==> |message| >= messageSize
      modifies this`usedSlots, buffer
      ensures Valid()
      ensures status == (if size > messageSize then InvalidArg
                         else if |old(Contents())| >= queueSize then QueueFull else Done)
      ensures Contents() == if status == Done then old(Contents()) + [message[..messageSize]] else old(Contents())
      ensures status != Done ==> buffer[..] == old(buffer[..])
    {
      if size > messageSize {
        return InvalidArg;
      }
      if usedSlots >= queueSize {
        return QueueFull;
      }
      var current := (frontIndex + usedSlots) % queueSize;
      ghost var before := buffer[..];
      WriteSlot(current, message);
      RingAppends(before, buffer[..], queueSize, messageSize, frontIndex, usedSlots, message[..messageSize]);
      usedSlots := usedSlots + 1;
      return Done;
    }

    /** Reads the oldest message without taking it. */
    method Peek(size: nat) returns (status: QueueStatus, message: seq<byte>)
      requires Valid()
      ensures status == (if size < messageSize then InvalidArg else if Contents() == [] then Empty else Done)
      ensures status == Done ==> message == Contents()[0]
      ensures status != Done ==> message == []
    {
      if size < messageSize {
        return InvalidArg, [];
      }
      if usedSlots <= 0 {
        return Empty, [];
      }
      SlotInside(frontIndex, queueSize, messageSize);
      var offset := frontIndex * messageSize;
      assert Slot(frontIndex, 0, queueSize) == frontIndex;
      return Done, buffer[offset..offset + messageSize];
    }

    /** Takes the oldest message; enabled only once there is one. */
    method Get(size: nat) returns (status: QueueStatus, message: seq<byte>)
      requires Valid() && Contents() != []
      modifies this`frontIndex, this`usedSlots
      ensures Valid()
      ensures status == if size < messageSize then InvalidArg else Done
      ensures status == Done ==> old(Contents()) == [message] + Contents()
      ensures status != Done ==> Contents() == old(Contents())
    {
      status, message := Peek(size);
      if status == Done {
        RingDropsFirst(buffer[..], queueSize, messageSize, frontIndex, usedSlots);
        usedSlots := usedSlots - 1;
        frontIndex := (frontIndex + 1) % queueSize;
      }
    }

    method GetCount() returns (count: nat)
      requires Valid()
      ensures count == |Contents()| <= queueSize
    {
      count := usedSlots;
    }
  }

  // ---------------------------------------------------------------- whole runs

  datatype Operation = PutOp(message: seq<byte>) | PeekOp | GetOp

  /** A bounded FIFO of messages, and what each operation hands back. */
  datatype Fifo = Fifo(queued: seq<seq<byte>>, observed: seq<seq<byte>>)

  function Apply(f: Fifo, capacity: nat, op: Operation): Fifo {
    match op
    case PutOp(message) => if |f.queued| < capacity then f.(queued := f.queued + [message]) else f
    case PeekOp => if f.queued == [] then f else f.(observed := f.observed + [f.queued[0]])
    case GetOp => if f.queued == [] then f else Fifo(f.queued[1..], f.observed + [f.queued[0]])
  }

  function ApplyAll(f: Fifo, capacity: nat, ops: seq<Operation>): Fifo
    decreases |ops|
  {
    if ops == [] then f else ApplyAll(Apply(f, capacity, ops[0]), capacity, ops[1..])
  }

  /** What a run of puts and gets accepts, from the number of messages waiting alone. */
  function Accepted(waiting: nat, capacity: nat, ops: seq<Operation>): seq<seq<byte>>
    decreases |ops|
  {
    if ops == [] then []
    else
      match ops[0]
      case PutOp(message) =>
        if waiting < capacity then [message] + Accepted(waiting + 1, capacity, ops[1..]) else Accepted(waiting, capacity, ops[1..])
      case PeekOp => Accepted(waiting, capacity, ops[1..])
      case GetOp => Accepted(if waiting == 0 then 0 else waiting - 1, capacity, ops[1..])
  }

  lemma AcceptedStep(waiting: nat, capacity: nat, ops: seq<Operation>)
    ensures ops == [] ==> Accepted(waiting, capacity, ops) == []
    ensures ops != [] ==> var rest := ops[1..];
      Accepted(waiting, capacity, ops) ==
        match ops[0]
        case PutOp(message) =>
          if waiting < capacity then [message] + Accepted(waiting + 1, capacity, rest) else Accepted(waiting, capacity, rest)
        case PeekOp => Accepted(waiting, capacity, rest)
        case GetOp => Accepted(if waiting == 0 then 0 else waiting - 1, capacity, rest)
  {
  }

  lemma ApplyAllStep(f: Fifo, capacity: nat, ops: seq<Operation>)
    ensures ops == [] ==> ApplyAll(f, capacity, ops) == f
    ensures ops != [] ==> ApplyAll(f, capacity, ops) == ApplyAll(Apply(f, capacity, ops[0]), capacity, ops[1..])
  {
  }

  /** First in, first out: over any run of puts and gets, what has been taken and what is waiting are what
      was accepted, in that order, and never more than the capacity waits. */
  lemma {:induction false} FirstInFirstOut(f: Fifo, capacity: nat, ops: seq<Operation>)
    requires |f.queued| <= capacity && PeekOp !in ops
    ensures var g := ApplyAll(f, capacity, ops);
      && g.observed + g.queued == f.observed + f.queued + Accepted(|f.queued|, capacity, ops)
      && |g.queued| <= capacity
    decreases |ops|
  {
    hide ApplyAll, Accepted;
    ApplyAllStep(f, capacity, ops);
    AcceptedStep(|f.queued|, capacity, ops);
    if ops != [] {
      assert ops[0] in ops;
      FirstInFirstOut(Apply(f, capacity, ops[0]), capacity, ops[1..]);
      OneInOneOut(f, capacity, ops[0], Accepted(|Apply(f, capacity, ops[0]).queued|, capacity, ops[1..]));
    }
  }

  lemma OneInOneOut(f: Fifo, capacity: nat, op: Operation, more: seq<seq<byte>>)
    requires op != PeekOp
    ensures var g := Apply(f, capacity, op);
      g.observed + g.queued + more
      == f.observed + f.queued + (if op.PutOp? && |f.queued| < capacity then [op.message] + more else more)
  {
    if op.GetOp? && f.queued != [] {
      assert [f.queued[0]] + f.queued[1..] == f.queued;
    }
  }

  function Puts(messages: seq<seq<byte>>): (ops: seq<Operation>)
    ensures |ops| == |messages|
  {
    if messages == [] then [] else [PutOp(messages[0])] + Puts(messages[1..])
  }

  /** Of a burst of puts exactly the first ones are accepted, up to the capacity. */
  lemma {:induction false} BurstFills(waiting: nat, capacity: nat, messages: seq<seq<byte>>)
    requires waiting <= capacity
    ensures Accepted(waiting, capacity, Puts(messages)) == messages[..Min(|messages|, capacity - waiting)]
    decreases |messages|
  {
    hide Accepted;
    AcceptedStep(waiting, capacity, Puts(messages));
    if messages != [] {
      var rest := messages[1..];
      assert Puts(messages)[1..] == Puts(rest);
      BurstFills(if waiting < capacity then waiting + 1 else waiting, capacity, rest);
    }
  }

  /** Over any run of full-size operations the flat ring behaves as the bounded FIFO: it ends with the
      same messages queued and has handed back the same ones. A get on an empty queue waits, and is left
      out of the run. */
  method RunRefinesFifo(queueSize: nat, messageSize: nat, ops: seq<Operation>)
    returns (queue: MessageQueue, observed: seq<seq<byte>>)
    requires messageSize > 0
    requires forall i :: 0 <= i < |ops| && ops[i].PutOp? ==> |ops[i].message| == messageSize
    ensures queue.Valid() && fresh(queue)
    ensures Fifo(queue.Contents(), observed) == ApplyAll(Fifo([], []), queueSize, ops)
  {
    queue := new MessageQueue(queueSize, messageSize);
    observed := [];
    var n := 0;
    while n < |ops|
      invariant 0 <= n <= |ops|
      invariant queue.Valid() && fresh(queue) && fresh(queue.buffer)
      invariant queue.queueSize == queueSize && queue.messageSize == messageSize
      invariant ApplyAll(Fifo(queue.Contents(), observed), queueSize, ops[n..]) == ApplyAll(Fifo([], []), queueSize, ops)
    {
      assert ops[n..][0] == ops[n] && ops[n..][1..] == ops[n + 1..];
      ghost var before := Fifo(queue.Contents(), observed);
      match ops[n] {
        case PutOp(message) =>
          var status := queue.Put(message, messageSize);
          assert message[..messageSize] == message;
        case PeekOp =>
          var status, message := queue.Peek(messageSize);
          if status == Done {
            observed := observed + [message];
          }
        case GetOp =>
          var count := queue.GetCount();
          if count > 0 {
            var status, message := queue.Get(messageSize);
            observed := observed + [message];
            assert before.queued[1..] == queue.Contents();
          }
      }
      assert Fifo(queue.Contents(), observed) == Apply(before, queueSize, ops[n]);
      n := n + 1;
    }
  }
}
