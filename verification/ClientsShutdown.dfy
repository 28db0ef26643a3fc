/** The client module's shutdown: one announcement and one close for every listed client, and closed once
    the last of them has been taken off the list. */
module ClientsShutdown {
  import opened SharedPtr
  import opened ClientList

  datatype State = Open | Closing | Closed

  datatype Call = Announce(p: Ptr) | CloseConnection(p: Ptr)

  datatype Message = NoticeOf(n: nat) | Other

  function CallsFor(listed: seq<Ptr>): seq<Call> {
    if listed == [] then [] else [Announce(listed[0]), CloseConnection(listed[0])] + CallsFor(listed[1..])
  }

  function To(calls: seq<Call>, p: Ptr): seq<Call> {
    if calls == [] then [] else (if calls[0].p == p then [calls[0]] else []) + To(calls[1..], p)
  }

  /** Every listed client is told once and then closed once, and nobody else is. */
  lemma {:induction false} EveryoneOnce(listed: seq<Ptr>, p: Ptr)
    requires Distinct(listed)
    ensures To(CallsFor(listed), p) == if p in listed then [Announce(p), CloseConnection(p)] else []
  {
    if listed != [] {
      EveryoneOnce(listed[1..], p);
      assert CallsFor(listed)[1..][1..] == CallsFor(listed[1..]);
      assert p in listed <==> p == listed[0] || p in listed[1..];
      assert listed[0] !in listed[1..];
    }
  }

  /** The closing module after a client's notice. */
  function AfterNotice(listed: seq<Ptr>, p: Ptr): (State, seq<Ptr>)
    requires p in listed
  {
    var rest := Without(listed, p);
    (if rest == [] then Closed else Closing, rest)
  }

  /** The closing module after notices for some of its clients. */
  ghost predicate Notices(listed: seq<Ptr>, gone: seq<Ptr>, state: State, left: seq<Ptr>)
    decreases |gone|
  {
    if gone == [] then state == Closing && left == listed
    else
      && gone[0] in listed
      && if AfterNotice(listed, gone[0]).0 == Closed then gone[1..] == [] && state == Closed && left == []
         else Notices(AfterNotice(listed, gone[0]).1, gone[1..], state, left)
  }

  /** However the notices are ordered, the module closes with the last of them, and not before. */
  lemma {:induction false} ClosesWithTheLast(listed: seq<Ptr>, gone: seq<Ptr>, state: State, left: seq<Ptr>)
    requires Distinct(listed) && listed != [] && Notices(listed, gone, state, left)
    ensures state == Closed <==> forall p :: p in listed ==> p in gone
    ensures forall p :: p in left <==> p in listed && p !in gone
    ensures Distinct(gone) && |left| + |gone| == |listed|
    decreases |gone|
  {
    if gone == [] {
      assert listed[0] in listed;
    } else {
      var rest := Without(listed, gone[0]);
      WithoutMembers(listed, gone[0]);
      assert forall p :: p in gone <==> p == gone[0] || p in gone[1..];
      if rest != [] {
        ClosesWithTheLast(rest, gone[1..], state, left);
        assert forall p :: p in gone[1..] ==> p in rest by {
          GoneWereListed(rest, gone[1..], state, left);
        }
      } else {
        assert |listed| == 1;
      }
    }
  }

  lemma {:induction false} GoneWereListed(listed: seq<Ptr>, gone: seq<Ptr>, state: State, left: seq<Ptr>)
    requires Distinct(listed) && Notices(listed, gone, state, left)
    ensures forall p :: p in gone ==> p in listed
    decreases |gone|
  {
    if gone != [] {
      WithoutMembers(listed, gone[0]);
      if Without(listed, gone[0]) != [] {
        GoneWereListed(Without(listed, gone[0]), gone[1..], state, left);
      }
    }
  }

  // ---------------------------------------------------------------- the code

  class ClosingClients {
    var state: State
    const list: ClientList
    var calls: seq<Call>    // calls made on connections, in order

    constructor (list: ClientList)
      ensures state == Open && this.list == list && calls == []
    {
      state, calls := Open, [];
      this.list := list;
    }

    /** CLOSE in the open state: along the next chain. */
    method Close(ghost listed: seq<Ptr>)
      requires state == Open && Linked(list.memory.slots, listed)
      modifies this
      ensures calls == old(calls) + CallsFor(listed)
      ensures state == if listed == [] then Closed else Closing
    {
      hide Linked;
      var at := Get(list.memory.slots, Head);
      HeadOf(list.memory.slots, listed);
      if at.None? {
        state := Closed;
        return;
      }
      state := Closing;
      ghost var i := 0;
      assert listed[0..] == listed;
      while at.Some?
        invariant 0 <= i <= |listed| && at == At(listed, i)
        invariant calls + CallsFor(listed[i..]) == old(calls) + CallsFor(listed)
        invariant state == Closing
        decreases |listed| - i
      {
        assert listed[i..][0] == listed[i] && listed[i..][1..] == listed[i + 1..];
        calls := calls + [Announce(at.value)];
        calls := calls + [CloseConnection(at.value)];
        LinksAt(list.memory.slots, listed, i);
        at := Get(list.memory.slots, Next(at.value));
        i := i + 1;
      }
    }

    /** Closing, only the notices of closed connections matter; the references that other messages carry
        stay where they are. */
    method ClosingProcessing(message: Message, ghost listed: seq<Ptr>)
      requires state == Closing && list.memory.View().Counted() && Linked(list.memory.slots, listed)
      requires message.NoticeOf? ==> Message(message.n) in list.memory.slots && list.memory.slots[Message(message.n)] in listed
      modifies this, list.memory
      ensures list.memory.View().Counted()
      ensures message.Other? ==> state == Closing && Linked(list.memory.slots, listed)
      ensures message.NoticeOf? ==>
        var (newState, left) := AfterNotice(listed, old(list.memory.slots)[Message(message.n)]);
        state == newState && Linked(list.memory.slots, left)
    {
      if message.NoticeOf? {
        var p := list.memory.slots[Message(message.n)];
        hide Linked, Store.Counted, Shrinks, Released, Unlinked;
        ghost var before := list.memory.View();
        UnlinkedLinked(before.slots, listed, p);
        list.ClientClose(p, message.n, listed);
        ghost var unlinked := Recounted(before, Unlinked(before.slots, p));
        LinkedAreLive(before, listed, p, message.n, unlinked);
        ReleaseKeepsLinks(unlinked, Without(listed, p), Message(message.n), list.memory.View());
        HeadOf(list.memory.slots, Without(listed, p));
        if Get(list.memory.slots, Head).None? {
          state := Closed;
        }
      }
    }
  }

  lemma LinkedAreLive(s: Store, listed: seq<Ptr>, p: Ptr, n: nat, unlinked: Store)
    requires s.Counted() && Linked(s.slots, listed) && p in listed && unlinked == Recounted(s, Unlinked(s.slots, p))
    ensures forall q :: q in Without(listed, p) ==> q in unlinked.counts
  {
    WithoutMembers(listed, p);
    forall q | q in listed
      ensures q in s.counts
    {
      var i := IndexOf(listed, q);
      LinksAt(s.slots, listed, i);
      if i > 0 {
        LinksAt(s.slots, listed, i - 1);
        assert Next(listed[i - 1]) in s.slots;
      } else {
        assert Head in s.slots;
      }
    }
  }
}
