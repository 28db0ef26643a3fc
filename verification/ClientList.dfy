/** The list of clients: doubly linked through counted references in the client records. */
module ClientList {
  import opened SharedPtr

  datatype Option<T> = None | Some(value: T)

  function Get(slots: Slots, k: Slot): Option<Ptr> { if k in slots then Some(slots[k]) else None }

  function Put(slots: Slots, k: Slot, p: Option<Ptr>): Slots {
    if p.Some? then slots[k := p.value] else slots - {k}
  }

  lemma Overwritten(slots: Slots, k: Slot, p: Option<Ptr>)
    ensures Put(slots - {k}, k, p) == Put(slots, k, p)
  {
  }

  /** Emptying a slot and moving another's pointer into it. */
  lemma TakenOver(slots: Slots, k: Slot, from: Slot)
    requires k != from
    ensures (if from in slots then (slots - {k} - {from})[k := slots[from]] else slots - {k})
            == Put(slots, k, Get(slots, from)) - {from}
  {
  }

  function At(listed: seq<Ptr>, i: int): Option<Ptr> {
    if 0 <= i < |listed| then Some(listed[i]) else None
  }

  ghost predicate Distinct(listed: seq<Ptr>) { forall i, j :: 0 <= i < j < |listed| ==> listed[i] != listed[j] }

  /** The next chain from the head is `listed`, and the prev chain from the tail is its reverse. */
  ghost predicate Linked(slots: Slots, listed: seq<Ptr>) {
    && Distinct(listed)
    && Get(slots, Head) == At(listed, 0)
    && Get(slots, Tail) == At(listed, |listed| - 1)
    && (forall i {:trigger Next(listed[i])} :: 0 <= i < |listed| ==> Get(slots, Next(listed[i])) == At(listed, i + 1))
    && (forall i {:trigger Prev(listed[i])} :: 0 <= i < |listed| ==> Get(slots, Prev(listed[i])) == At(listed, i - 1))
  }

  function IndexOf(listed: seq<Ptr>, p: Ptr): (i: nat)
    requires p in listed
    ensures i < |listed| && listed[i] == p
  {
    if listed[0] == p then 0 else 1 + IndexOf(listed[1..], p)
  }

  function Without(listed: seq<Ptr>, p: Ptr): seq<Ptr>
    requires p in listed
  {
    listed[..IndexOf(listed, p)] + listed[IndexOf(listed, p) + 1..]
  }

  lemma WithoutMembers(listed: seq<Ptr>, p: Ptr)
    requires p in listed && Distinct(listed)
    ensures Distinct(Without(listed, p))
    ensures forall q :: q in Without(listed, p) <==> q in listed && q != p
  {
  }

  // ---------------------------------------------------------------- the two changes, slot by slot

  function Appended(slots: Slots, p: Ptr): Slots {
    if Tail in slots then
      slots[Next(slots[Tail]) := p][Prev(p) := slots[Tail]][Tail := p]
    else
      slots[Head := p][Tail := p]
  }

  /** p's neighbours point past it; p keeps its own links. */
  function Bypassed(slots: Slots, p: Ptr): Slots {
    var prev, next := Get(slots, Prev(p)), Get(slots, Next(p));
    var a := if prev.Some? then Put(slots, Next(prev.value), next) else slots;
    if next.Some? then Put(a, Prev(next.value), prev) else a
  }

  /** As `Bypassed`, except that the ends of the list take their links over from p. */
  function Unlinked(slots: Slots, p: Ptr): Slots {
    var prev, next := Get(slots, Prev(p)), Get(slots, Next(p));
    var b := Bypassed(slots, p);
    var c := if Get(slots, Head) == Some(p) then Put(b, Head, next) - {Next(p)} else b;
    if Get(slots, Tail) == Some(p) then Put(c, Tail, prev) - {Prev(p)} else c
  }

  lemma AppendedLinked(slots: Slots, listed: seq<Ptr>, p: Ptr)
    requires Linked(slots, listed) && p !in listed && Next(p) !in slots && Prev(p) !in slots
    ensures Linked(Appended(slots, p), listed + [p])
  {
  }

  /** The links around position i, read off the list. */
  lemma LinksAt(slots: Slots, listed: seq<Ptr>, i: nat)
    requires Linked(slots, listed) && i < |listed|
    ensures Get(slots, Next(listed[i])) == At(listed, i + 1)
    ensures Get(slots, Prev(listed[i])) == At(listed, i - 1)
    ensures Get(slots, Head) == Some(listed[i]) <==> i == 0
    ensures Get(slots, Tail) == Some(listed[i]) <==> i == |listed| - 1
    ensures i > 0 ==> listed[i - 1] != listed[i]
    ensures i + 1 < |listed| ==> listed[i + 1] != listed[i]
    ensures 0 < i && i + 1 < |listed| ==> listed[i - 1] != listed[i + 1]
  {
  }

  /** The head is null just when the tail is, and the tail has no next. */
  lemma EndsAgree(slots: Slots, listed: seq<Ptr>)
    requires Linked(slots, listed)
    ensures Head in slots <==> Tail in slots
    ensures Tail in slots ==> Next(slots[Tail]) !in slots && slots[Tail] in listed
  {
  }

  lemma HeadOf(slots: Slots, listed: seq<Ptr>)
    requires Linked(slots, listed)
    ensures Get(slots, Head) == At(listed, 0)
  {
  }

  /** What any slot holds after position i is unlinked. */
  function AfterUnlink(slots: Slots, listed: seq<Ptr>, i: nat, k: Slot): Option<Ptr>
    requires i < |listed|
  {
    if k == Head then (if i == 0 then At(listed, 1) else Get(slots, k))
    else if k == Tail then (if i == |listed| - 1 then At(listed, i - 1) else Get(slots, k))
    else if i > 0 && k == Next(listed[i - 1]) then At(listed, i + 1)
    else if i + 1 < |listed| && k == Prev(listed[i + 1]) then At(listed, i - 1)
    else if i == 0 && k == Next(listed[i]) then None
    else if i == |listed| - 1 && k == Prev(listed[i]) then None
    else Get(slots, k)
  }

  lemma UnlinkedSlot(slots: Slots, listed: seq<Ptr>, p: Ptr, i: nat, k: Slot)
    requires Linked(slots, listed) && i < |listed| && listed[i] == p
    ensures Get(Unlinked(slots, p), k) == AfterUnlink(slots, listed, i, k)
  {
    LinksAt(slots, listed, i);
  }

  /** Where the positions of the shorter list were. */
  lemma WithoutAt(listed: seq<Ptr>, p: Ptr, j: int)
    requires p in listed
    ensures var i := IndexOf(listed, p);
      At(Without(listed, p), j) == (if j < i then At(listed, j) else At(listed, j + 1))
  {
  }

  lemma UnlinkedLinks(slots: Slots, listed: seq<Ptr>, p: Ptr, i: nat, at: nat)
    requires Linked(slots, listed) && i < |listed| && listed[i] == p && at < |listed| && at != i
    ensures Get(Unlinked(slots, p), Next(listed[at])) == if at == i - 1 then At(listed, i + 1) else At(listed, at + 1)
    ensures Get(Unlinked(slots, p), Prev(listed[at])) == if at == i + 1 then At(listed, i - 1) else At(listed, at - 1)
  {
  }

  /** Removing any client, whether head, tail, in the middle or alone, removes it from the list and keeps
      the order of the others. */
  lemma UnlinkedLinked(slots: Slots, listed: seq<Ptr>, p: Ptr)
    requires Linked(slots, listed) && p in listed
    ensures Linked(Unlinked(slots, p), Without(listed, p))
  {
    var i := IndexOf(listed, p);
    var after, rest := Unlinked(slots, p), Without(listed, p);
    WithoutMembers(listed, p);
    UnlinkedSlot(slots, listed, p, i, Head);
    UnlinkedSlot(slots, listed, p, i, Tail);
    WithoutAt(listed, p, 0);
    WithoutAt(listed, p, |rest| - 1);
    assert Get(after, Head) == At(rest, 0) && Get(after, Tail) == At(rest, |rest| - 1);
    forall j {:trigger Next(rest[j])} {:trigger Prev(rest[j])} | 0 <= j < |rest|
      ensures Get(after, Next(rest[j])) == At(rest, j + 1) && Get(after, Prev(rest[j])) == At(rest, j - 1)
    {
      WithoutAt(listed, p, j - 1);
      WithoutAt(listed, p, j);
      WithoutAt(listed, p, j + 1);
      UnlinkedLinks(slots, listed, p, i, if j < i then j else j + 1);
    }
  }

  lemma BypassedKeeps(slots: Slots, listed: seq<Ptr>, p: Ptr, n: nat)
    requires Linked(slots, listed) && p in listed
    ensures forall k :: k in {Head, Tail, Next(p), Prev(p), Message(n)} ==> Get(Bypassed(slots, p), k) == Get(slots, k)
  {
  }

  /** A release spares what another slot holds, unless that slot went with its record. */
  lemma ReleaseSparesHeld(s: Store, k: Slot, t: Store, j: Slot)
    requires Releases(s, k, t) && j in s.slots && j != k && (Inside(j) ==> j.owner in t.counts)
    ensures j in t.slots && s.slots[j] in t.counts
  {
  }

  /** Releasing a reference that is not a link of the list frees no listed client. */
  lemma {:induction false} ListedSurvive(s: Store, listed: seq<Ptr>, k: Slot, t: Store, i: nat)
    requires Linked(s.slots, listed) && Releases(s, k, t) && i < |listed|
    requires forall p :: p in listed ==> p in s.counts
    requires !k.Head? && !k.Tail? && !k.Prev? && !k.Next?
    ensures listed[i] in t.counts
  {
    hide Linked, Releases;
    if i == 0 {
      HeadOf(s.slots, listed);
      ReleaseSparesHeld(s, k, t, Head);
    } else {
      ListedSurvive(s, listed, k, t, i - 1);
      LinksAt(s.slots, listed, i - 1);
      ReleaseSparesHeld(s, k, t, Next(listed[i - 1]));
    }
  }

  lemma ReleaseKeepsLinks(s: Store, listed: seq<Ptr>, k: Slot, t: Store)
    requires Linked(s.slots, listed) && Releases(s, k, t)
    requires forall p :: p in listed ==> p in s.counts
    requires !k.Head? && !k.Tail? && !k.Prev? && !k.Next?
    ensures Linked(t.slots, listed)
    ensures forall p :: p in listed ==> p in t.counts
  {
    forall i | 0 <= i < |listed|
      ensures listed[i] in t.counts
    {
      ListedSurvive(s, listed, k, t, i);
    }
    forall i {:trigger Next(listed[i])} {:trigger Prev(listed[i])} | 0 <= i < |listed|
      ensures Get(t.slots, Next(listed[i])) == At(listed, i + 1) && Get(t.slots, Prev(listed[i])) == At(listed, i - 1)
    {
      LinksAt(s.slots, listed, i);
      assert listed[i] in listed;
    }
    if listed != [] {
      LinksAt(s.slots, listed, 0);
      LinksAt(s.slots, listed, |listed| - 1);
    }
  }

  /** Only list slots change: those of listed clients and the two ends. */
  lemma UnlinkedFrame(slots: Slots, listed: seq<Ptr>, p: Ptr, k: Slot)
    requires Linked(slots, listed) && p in listed
    requires k != Head && k != Tail
    requires k.Prev? || k.Next? ==> k.owner !in listed
    ensures Get(Unlinked(slots, p), k) == Get(slots, k)
  {
  }

  /** What the unlinked client keeps: links only to clients that are still listed. */
  lemma UnlinkedKeeps(slots: Slots, listed: seq<Ptr>, p: Ptr, k: Slot)
    requires Linked(slots, listed) && p in listed
    requires k in {Prev(p), Next(p)} && k in Unlinked(slots, p)
    ensures Unlinked(slots, p)[k] in Without(listed, p)
  {
  }

  /** Every pointer but p that was held still is, by the slot that held it or by one that took it over. */
  lemma UnlinkedStillHeld(slots: Slots, listed: seq<Ptr>, p: Ptr, k: Slot)
    requires Linked(slots, listed) && p in listed && k in slots && slots[k] != p
    ensures Get(Unlinked(slots, p), k) == Some(slots[k])
            || (k == Next(p) && Get(Unlinked(slots, p), Head) == Some(slots[k]))
            || (k == Prev(p) && Get(Unlinked(slots, p), Tail) == Some(slots[k]))
  {
  }

  // ---------------------------------------------------------------- the code

  class ClientList {
    const memory: Memory

    constructor (memory: Memory)
      ensures this.memory == memory
    {
      this.memory := memory;
    }

    /** The list part of opening a client: sharing and moving as the records need it. */
    method Append(p: Ptr, ghost listed: seq<Ptr>)
      requires memory.View().Counted() && Linked(memory.slots, listed) && p in memory.counts
      requires p !in listed && Prev(p) !in memory.slots && Next(p) !in memory.slots
      modifies memory
      ensures memory.View().Counted() && memory.counts.Keys == old(memory.counts).Keys
      ensures memory.slots == Appended(old(memory.slots), p)
      ensures Linked(memory.slots, listed + [p])
    {
      hide Store.Counted, Linked;
      AppendedLinked(memory.slots, listed, p);
      EndsAgree(memory.slots, listed);
      if Head !in memory.slots {
        SharePtr(p, Head);
        SharePtr(p, Tail);
      } else {
        var tail := memory.slots[Tail];
        SharePtr(p, Next(tail));
        memory.Move(Tail, Prev(p));
        SharePtr(p, Tail);
      }
    }

    /** Shares a pointer held in a local variable. */
    method SharePtr(p: Ptr, to: Slot)
      requires memory.View().Counted() && p in memory.counts && to !in memory.slots
      modifies memory
      ensures memory.View() == Shared(old(memory.View()), p, to) && memory.View().Counted()
    {
      SharedCounted(memory.View(), p, to);
      memory.counts := memory.counts[p := memory.counts[p] + 1];
      memory.slots := memory.slots[to := p];
    }

    /** Replaces what a slot holds of p by a share of another slot, while `n` keeps p alive. */
    method Relink(k: Slot, from: Slot, p: Ptr, n: nat)
      requires memory.View().Counted() && Get(memory.slots, k) == Some(p) && Get(memory.slots, Message(n)) == Some(p)
      requires k != Message(n) && from != k
      modifies memory
      ensures memory.View().Counted() && memory.counts.Keys == old(memory.counts).Keys
      ensures memory.slots == Put(old(memory.slots), k, Get(old(memory.slots), from))
    {
      hide Store.Counted;
      ghost var before := memory.View();
      memory.ReleaseOneOfMany(k, Message(n));
      assert from in memory.slots ==> memory.slots[from] == before.slots[from];
      memory.Share(from, k);
      Overwritten(before.slots, k, Get(before.slots, from));
    }

    /** Replaces what an end of the list holds of p by p's own link. */
    method TakeOver(k: Slot, from: Slot, p: Ptr, n: nat)
      requires memory.View().Counted() && Get(memory.slots, k) == Some(p) && Get(memory.slots, Message(n)) == Some(p)
      requires k != Message(n) && from != k
      modifies memory
      ensures memory.View().Counted() && memory.counts.Keys == old(memory.counts).Keys
      ensures memory.slots == Put(old(memory.slots), k, Get(old(memory.slots), from)) - {from}
    {
      hide Store.Counted;
      TakenOver(memory.slots, k, from);
      memory.ReleaseOneOfMany(k, Message(n));
      memory.Move(from, k);
    }

    method Bypass(p: Ptr, n: nat, ghost listed: seq<Ptr>)
      requires memory.View().Counted() && Linked(memory.slots, listed)
      requires p in listed && Get(memory.slots, Message(n)) == Some(p)
      modifies memory
      ensures memory.View().Counted() && memory.counts.Keys == old(memory.counts).Keys
      ensures memory.slots == Bypassed(old(memory.slots), p)
    {
      hide Store.Counted, Linked;
      ghost var before := memory.slots;
      ghost var i := IndexOf(listed, p);
      LinksAt(before, listed, i);
      var prev, next := Get(memory.slots, Prev(p)), Get(memory.slots, Next(p));
      if prev.Some? {
        LinksAt(before, listed, i - 1);
        Relink(Next(prev.value), Next(p), p, n);
      }
      if next.Some? {
        LinksAt(before, listed, i + 1);
        Relink(Prev(next.value), Prev(p), p, n);
      }
    }

    /** The relinking in chat_clients_client_close. Nothing is freed by it. */
    method Unlink(p: Ptr, n: nat, ghost listed: seq<Ptr>)
      requires memory.View().Counted() && Linked(memory.slots, listed)
      requires p in listed && Get(memory.slots, Message(n)) == Some(p)
      modifies memory
      ensures memory.View() == Recounted(old(memory.View()), Unlinked(old(memory.slots), p))
      ensures memory.View().Counted()
    {
      hide Store.Counted, Linked, Bypassed;
      ghost var before := memory.View();
      Bypass(p, n, listed);
      BypassedKeeps(before.slots, listed, p, n);
      ghost var b := memory.slots;
      if Get(memory.slots, Head) == Some(p) {
        TakeOver(Head, Next(p), p, n);
      }
      assert Get(memory.slots, Message(n)) == Some(p) && Get(memory.slots, Tail) == Get(b, Tail);
      assert Get(memory.slots, Prev(p)) == Get(b, Prev(p));
      if Get(memory.slots, Tail) == Some(p) {
        TakeOver(Tail, Prev(p), p, n);
      }
      CountedIsRecounted(before, memory.View());
    }

    /** chat_clients_client_close: unlinks the client whose close notice is message n, and then gives up
        the notice's own reference, which may be the last. */
    method ClientClose(p: Ptr, n: nat, ghost listed: seq<Ptr>)
      requires memory.View().Counted() && Linked(memory.slots, listed)
      requires p in listed && Get(memory.slots, Message(n)) == Some(p)
      modifies memory
      ensures memory.View() == Released(Recounted(old(memory.View()), Unlinked(old(memory.slots), p)), Message(n))
      ensures memory.View().Counted()
    {
      Unlink(p, n, listed);
      memory.Release(Message(n));
    }
  }
}
