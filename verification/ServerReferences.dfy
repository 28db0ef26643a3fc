/** What every run of the server keeps about its references to clients: counts equal holders, nothing is
    freed while held, the list stays linked, and unlinked clients form no cycle. */
module ServerReferences {
  import opened SharedPtr
  import opened ClientList
  import opened ServerWorld

  function Once(b: bool): nat { if b then 1 else 0 }

  predicate Reference(k: Slot) { k.Message? || k.Secret? }

  predicate Link(k: Slot) { k.Head? || k.Tail? || k.Prev? || k.Next? }

  // ---------------------------------------------------------------- the heap

  /** Counts are right, and each kind of slot holds the kind of pointer it should. */
  ghost predicate HeapInv(s: Store, clients: set<Ptr>) {
    && s.Counted() && s.Positive()
    && clients <= s.counts.Keys
    && SlotsInv(s.slots, clients)
  }

  ghost predicate SlotsInv(slots: Slots, clients: set<Ptr>) {
    && (forall k :: k in slots ==> (slots[k] in clients <==> !k.Credentials? && !k.Secret?))
    && (forall k :: k in slots && (Inside(k) || k.Connection?) ==> k.owner in clients)
    && (forall k :: k in slots && k.Connection? ==> slots[k] == k.owner)
  }

  lemma SharedKeepsHeap(s: Store, clients: set<Ptr>, p: Ptr, k: Slot)
    requires HeapInv(s, clients) && p in s.counts && k !in s.slots
    requires (k.Message? && p in clients) || (k.Secret? && p !in clients)
    ensures HeapInv(Shared(s, p, k), clients)
  {
    hide Store.Counted, Store.Positive;
    SharedCounted(s, p, k);
    SharedKeepsSlots(s.slots, clients, p, k);
  }

  lemma SharedKeepsSlots(slots: Slots, clients: set<Ptr>, p: Ptr, k: Slot)
    requires SlotsInv(slots, clients) && ((k.Message? && p in clients) || (k.Secret? && p !in clients))
    ensures SlotsInv(slots[k := p], clients)
  {
  }

  lemma ReleaseKeepsHeap(s: Store, clients: set<Ptr>, k: Slot)
    requires HeapInv(s, clients)
    ensures s.Counted() && Releases(s, k, Release(s, k))
    ensures HeapInv(Release(s, k), clients * Release(s, k).counts.Keys)
  {
  }

  // ---------------------------------------------------------------- the references in flight

  /** Message slots are exactly the references carried by queues, transactions and the handler. */
  ghost predicate RefsInv(slots: Slots, carried: multiset<Slot>, next: nat) {
    && (forall k: Slot :: carried[k] == Once(Reference(k) && k in slots))
    && (forall k :: k in slots && Reference(k) ==> k.n < next)
  }

  lemma SharedKeepsRefs(slots: Slots, carried: multiset<Slot>, next: nat, k: Slot, p: Ptr)
    requires RefsInv(slots, carried, next) && Reference(k) && k.n == next
    ensures k !in slots && RefsInv(slots[k := p], carried + multiset{k}, next + 1)
  {
  }

  lemma ReleaseKeepsRefs(s: Store, k: Slot, t: Store, carried: multiset<Slot>, next: nat)
    requires RefsInv(s.slots, carried, next) && Releases(s, k, t)
    ensures RefsInv(t.slots, carried - multiset{k}, next)
  {
  }

  lemma OtherReleaseKeepsRefs(s: Store, k: Slot, t: Store, carried: multiset<Slot>, next: nat)
    requires RefsInv(s.slots, carried, next) && Releases(s, k, t) && !Reference(k)
    ensures RefsInv(t.slots, carried, next)
  {
  }

  lemma AppendKeepsNotices(slots: Slots, listed: seq<Ptr>, q: seq<ClientsMessage>, m: ClientsMessage)
    requires ConnectionInv(slots, listed, q)
    requires m.ConnectionClosed? ==> NewNotice(slots, listed, q, m.n)
    ensures ConnectionInv(slots, listed, q + [m])
  {
  }

  /** A close notice for a client that has none yet. */
  ghost predicate NewNotice(slots: Slots, listed: seq<Ptr>, q: seq<ClientsMessage>, n: nat) {
    && NoticeOf(slots, listed, n)
    && forall i :: 0 <= i < |q| && q[i].ConnectionClosed? ==> Get(slots, Message(q[i].n)) != Get(slots, Message(n))
  }

  lemma LinksKeepRefs(slots: Slots, after: Slots, carried: multiset<Slot>, next: nat)
    requires RefsInv(slots, carried, next)
    requires forall k :: Reference(k) ==> (k in after <==> k in slots)
    ensures RefsInv(after, carried, next)
  {
  }

  // ---------------------------------------------------------------- the list

  predicate Later(unlinkedAt: map<Ptr, nat>, q: Ptr, p: Ptr) {
    q in unlinkedAt && p in unlinkedAt && unlinkedAt[q] > unlinkedAt[p]
  }

  /** Every client is on the list or has been taken off it; what a client taken off keeps links only to
      clients listed still, or taken off later. */
  ghost predicate StaleInv(slots: Slots, clients: set<Ptr>, listed: seq<Ptr>, unlinkedAt: map<Ptr, nat>, clock: nat) {
    && (forall p :: p in listed ==> p in clients && p !in unlinkedAt)
    && (forall p :: p in clients ==> p in listed || p in unlinkedAt)
    && (forall p :: p in unlinkedAt ==> p in clients && unlinkedAt[p] < clock)
    && (forall k :: k in slots && (k.Prev? || k.Next?) && k.owner in unlinkedAt ==>
          slots[k] in listed || Later(unlinkedAt, slots[k], k.owner))
  }

  lemma UnaffectedLinks(slots: Slots, after: Slots, clients: set<Ptr>, listed: seq<Ptr>, unlinkedAt: map<Ptr, nat>, clock: nat)
    requires Linked(slots, listed) && StaleInv(slots, clients, listed, unlinkedAt, clock)
    requires forall k :: Link(k) ==> Get(after, k) == Get(slots, k)
    ensures Linked(after, listed) && StaleInv(after, clients, listed, unlinkedAt, clock)
  {
    forall k | k in after && (k.Prev? || k.Next?) && k.owner in unlinkedAt
      ensures after[k] in listed || Later(unlinkedAt, after[k], k.owner)
    {
      assert Get(after, k) == Get(slots, k);
    }
  }

  function Restricted(m: map<Ptr, nat>, live: set<Ptr>): map<Ptr, nat> { map p | p in m && p in live :: m[p] }

  lemma ReleaseKeepsStale(s: Store, k: Slot, t: Store, clients: set<Ptr>, listed: seq<Ptr>, unlinkedAt: map<Ptr, nat>, clock: nat)
    requires StaleInv(s.slots, clients, listed, unlinkedAt, clock) && Releases(s, k, t)
    requires forall p :: p in listed ==> p in t.counts
    ensures StaleInv(t.slots, clients * t.counts.Keys, listed, Restricted(unlinkedAt, t.counts.Keys), clock)
  {
  }

  lemma AppendKeepsStale(slots: Slots, clients: set<Ptr>, listed: seq<Ptr>, unlinkedAt: map<Ptr, nat>, clock: nat, p: Ptr)
    requires Linked(slots, listed) && StaleInv(slots, clients, listed, unlinkedAt, clock) && p !in clients && p !in unlinkedAt
    ensures StaleInv(Appended(slots, p), clients + {p}, listed + [p], unlinkedAt, clock)
  {
  }

  lemma UnlinkKeepsStale(slots: Slots, clients: set<Ptr>, listed: seq<Ptr>, unlinkedAt: map<Ptr, nat>, clock: nat, p: Ptr)
    requires Linked(slots, listed) && StaleInv(slots, clients, listed, unlinkedAt, clock) && p in listed
    ensures StaleInv(Unlinked(slots, p), clients, Without(listed, p), unlinkedAt[p := clock], clock + 1)
  {
    var after, gone := Unlinked(slots, p), unlinkedAt[p := clock];
    WithoutMembers(listed, p);
    forall k | k in after && (k.Prev? || k.Next?) && k.owner in gone
      ensures after[k] in Without(listed, p) || Later(gone, after[k], k.owner)
    {
      if k.owner == p {
        UnlinkedKeeps(slots, listed, p, k);
      } else {
        UnlinkedFrame(slots, listed, p, k);
        assert Get(after, k).Some? && Get(slots, k) == Some(after[k]);
      }
    }
  }

  // ---------------------------------------------------------------- the connections

  /** An open connection belongs to a listed client, and each close notice is the one notice of a listed
      client whose connection is gone. */
  ghost predicate ConnectionInv(slots: Slots, listed: seq<Ptr>, q: seq<ClientsMessage>) {
    && (forall k :: k in slots && k.Connection? ==> k.owner in listed)
    && (forall i :: 0 <= i < |q| && q[i].ConnectionClosed? ==> NoticeOf(slots, listed, q[i].n))
    && (forall i, j :: 0 <= i < j < |q| && q[i].ConnectionClosed? && q[j].ConnectionClosed? ==>
          Get(slots, Message(q[i].n)) != Get(slots, Message(q[j].n)))
  }

  ghost predicate NoticeOf(slots: Slots, listed: seq<Ptr>, n: nat) {
    Message(n) in slots && slots[Message(n)] in listed && Connection(slots[Message(n)]) !in slots
  }

  /** It depends on the notices' own slots, and survives any connection going away. */
  lemma KeptConnections(slots: Slots, after: Slots, listed: seq<Ptr>, q: seq<ClientsMessage>)
    requires ConnectionInv(slots, listed, q)
    requires forall i :: 0 <= i < |q| && q[i].ConnectionClosed? ==> Get(after, Message(q[i].n)) == Get(slots, Message(q[i].n))
    requires forall k :: k in after && k.Connection? ==> k in slots
    ensures ConnectionInv(after, listed, q)
  {
  }

  // ---------------------------------------------------------------- opening and closing a client

  lemma CreatedKeepsSlots(slots: Slots, clients: set<Ptr>, p: Ptr, c: Ptr, n: nat)
    requires SlotsInv(slots, clients) && p !in clients && c !in clients && p != c
    requires forall j :: j in slots ==> slots[j] != p && slots[j] != c
    ensures SlotsInv(slots[Message(n) := p][Credentials(p) := c][Connection(p) := p], clients + {p})
  {
  }

  /** Linking in a live client changes no kind of slot. */
  lemma AppendedKeepsSlots(slots: Slots, clients: set<Ptr>, listed: seq<Ptr>, p: Ptr)
    requires SlotsInv(slots, clients) && Linked(slots, listed) && p in clients
    ensures SlotsInv(Appended(slots, p), clients)
  {
  }

  lemma UnlinkedKeepsSlots(slots: Slots, clients: set<Ptr>, listed: seq<Ptr>, p: Ptr)
    requires SlotsInv(slots, clients) && Linked(slots, listed) && p in listed
    requires forall q :: q in listed ==> q in clients
    ensures SlotsInv(Unlinked(slots, p), clients)
  {
    var after := Unlinked(slots, p);
    var i := IndexOf(listed, p);
    LinksAt(slots, listed, i);
    forall k | k in after
      ensures after[k] in clients <==> !k.Credentials? && !k.Secret?
      ensures Inside(k) || k.Connection? ==> k.owner in clients
      ensures k.Connection? ==> after[k] == k.owner
    {
      UnlinkedSlot(slots, listed, p, i, k);
      assert Get(after, k).Some?;
    }
  }

  lemma RecountedCounted(s: Store, slots: Slots)
    requires forall k :: k in slots ==> slots[k] in s.counts
    ensures Recounted(s, slots).Counted()
  {
  }

  /** A recount after relinking is positive again if every pointer still has a holder. */
  lemma RecountedPositive(s: Store, slots: Slots)
    requires forall p :: p in s.counts ==> Holding(slots, p) != {}
    ensures Recounted(s, slots).Positive()
  {
  }

  /** A new client's record, credentials and connection, before it is linked in. */
  function Connected(s: Store, p: Ptr, c: Ptr, n: nat): Store {
    Shared(Created(Created(s, p, Message(n)), c, Credentials(p)), p, Connection(p))
  }

  lemma ConnectedCounted(s: Store, p: Ptr, c: Ptr, n: nat)
    requires s.Counted() && s.Positive() && p !in s.counts && c !in s.counts && p != c
    requires Message(n) !in s.slots && Credentials(p) !in s.slots && Connection(p) !in s.slots
    ensures Connected(s, p, c, n).Counted() && Connected(s, p, c, n).Positive()
  {
    var created := Created(s, p, Message(n));
    CreatedCounted(s, p, Message(n));
    CreatedCounted(created, c, Credentials(p));
    SharedCounted(Created(created, c, Credentials(p)), p, Connection(p));
  }

  lemma OpenedKeepsHeap(s: Store, clients: set<Ptr>, listed: seq<Ptr>, p: Ptr, c: Ptr, n: nat)
    requires HeapInv(s, clients) && Linked(s.slots, listed) && (forall q :: q in listed ==> q in clients)
    requires p !in s.counts && c !in s.counts && p != c && Message(n) !in s.slots
    ensures var connected := Connected(s, p, c, n);
      && connected.Counted()
      && HeapInv(Recounted(connected, Appended(connected.slots, p)), clients + {p})
      && Linked(connected.slots, listed) && Next(p) !in connected.slots && Prev(p) !in connected.slots
  {
    var connected := Connected(s, p, c, n);
    assert Prev(p) !in s.slots && Next(p) !in s.slots && Credentials(p) !in s.slots && Connection(p) !in s.slots;
    ConnectedCounted(s, p, c, n);
    CreatedKeepsSlots(s.slots, clients, p, c, n);
    ConnectedSlots(s, p, c, n);
    SameLinks(s.slots, connected.slots, listed);
    AppendedKeepsSlots(connected.slots, clients + {p}, listed, p);
    AppendedKeepsCounted(connected, listed, p);
  }

  lemma SameLinks(slots: Slots, after: Slots, listed: seq<Ptr>)
    requires Linked(slots, listed)
    requires forall k :: Link(k) ==> Get(after, k) == Get(slots, k)
    ensures Linked(after, listed)
  {
  }

  lemma AppendedKeepsCounted(s: Store, listed: seq<Ptr>, p: Ptr)
    requires s.Counted() && s.Positive() && Linked(s.slots, listed) && p in s.counts
    requires Prev(p) !in s.slots
    ensures Recounted(s, Appended(s.slots, p)).Counted() && Recounted(s, Appended(s.slots, p)).Positive()
  {
    var after := Appended(s.slots, p);
    RecountedCounted(s, after);
    forall q | q in s.counts
      ensures Holding(after, q) != {}
    {
      var k :| k in Holding(s.slots, q);
      if listed != [] {
        LinksAt(s.slots, listed, |listed| - 1);
      }
      assert (if k == Tail && Tail in s.slots then Prev(p) else k) in Holding(after, q);
    }
    RecountedPositive(s, after);
  }

  lemma UnlinkedKeepsHeap(s: Store, clients: set<Ptr>, listed: seq<Ptr>, p: Ptr, n: nat)
    requires HeapInv(s, clients) && Linked(s.slots, listed) && (forall q :: q in listed ==> q in clients)
    requires p in listed && Get(s.slots, Message(n)) == Some(p)
    ensures HeapInv(Recounted(s, Unlinked(s.slots, p)), clients)
  {
    var after := Unlinked(s.slots, p);
    UnlinkedKeepsSlots(s.slots, clients, listed, p);
    forall k | k in after
      ensures after[k] in s.counts
    {
      var i := IndexOf(listed, p);
      UnlinkedSlot(s.slots, listed, p, i, k);
      assert Get(after, k).Some?;
    }
    RecountedCounted(s, after);
    forall q | q in s.counts
      ensures Holding(after, q) != {}
    {
      if q == p {
        UnlinkedFrame(s.slots, listed, p, Message(n));
        assert Message(n) in Holding(after, q);
      } else {
        var k :| k in Holding(s.slots, q);
        UnlinkedStillHeld(s.slots, listed, p, k);
        assert k in Holding(after, q) || Head in Holding(after, q) || Tail in Holding(after, q);
      }
    }
    RecountedPositive(s, after);
  }

  // ---------------------------------------------------------------- heap, list and connections together

  ghost predicate StructureInv(s: Store, clients: set<Ptr>, listed: seq<Ptr>, unlinkedAt: map<Ptr, nat>, clock: nat, q: seq<ClientsMessage>) {
    && HeapInv(s, clients)
    && Linked(s.slots, listed)
    && StaleInv(s.slots, clients, listed, unlinkedAt, clock)
    && ConnectionInv(s.slots, listed, q)
  }

  lemma SharedKeepsStructure(s: Store, clients: set<Ptr>, listed: seq<Ptr>, unlinkedAt: map<Ptr, nat>, clock: nat,
        q: seq<ClientsMessage>, p: Ptr, k: Slot)
    requires StructureInv(s, clients, listed, unlinkedAt, clock, q) && p in s.counts && k !in s.slots
    requires (k.Message? && p in clients) || (k.Secret? && p !in clients)
    ensures StructureInv(Shared(s, p, k), clients, listed, unlinkedAt, clock, q)
  {
    hide HeapInv, StaleInv, ConnectionInv, Linked;
    SharedKeepsHeap(s, clients, p, k);
    NewReferenceKeepsLinks(s.slots, clients, listed, unlinkedAt, clock, p, k);
    NewReferenceKeepsNotices(s.slots, listed, q, p, k);
  }

  lemma NewReferenceKeepsLinks(slots: Slots, clients: set<Ptr>, listed: seq<Ptr>, unlinkedAt: map<Ptr, nat>, clock: nat, p: Ptr, k: Slot)
    requires Linked(slots, listed) && StaleInv(slots, clients, listed, unlinkedAt, clock) && !Link(k)
    ensures Linked(slots[k := p], listed) && StaleInv(slots[k := p], clients, listed, unlinkedAt, clock)
  {
  }

  lemma NewReferenceKeepsNotices(slots: Slots, listed: seq<Ptr>, q: seq<ClientsMessage>, p: Ptr, k: Slot)
    requires ConnectionInv(slots, listed, q) && Reference(k) && k !in slots
    ensures ConnectionInv(slots[k := p], listed, q)
  {
  }

  /** Releasing what no close notice in the queue refers to. */
  lemma ReleaseKeepsStructure(s: Store, clients: set<Ptr>, listed: seq<Ptr>, unlinkedAt: map<Ptr, nat>, clock: nat,
        q: seq<ClientsMessage>, k: Slot)
    requires StructureInv(s, clients, listed, unlinkedAt, clock, q) && !Link(k)
    requires forall i :: 0 <= i < |q| && q[i].ConnectionClosed? ==> k != Message(q[i].n)
    ensures var t := Release(s, k);
      StructureInv(t, clients * t.counts.Keys, listed, Restricted(unlinkedAt, t.counts.Keys), clock, q)
  {
    var t := Release(s, k);
    ReleaseKeepsHeap(s, clients, k);
    ReleaseKeepsLinks(s, listed, k, t);
    ReleaseKeepsStale(s, k, t, clients, listed, unlinkedAt, clock);
    ReleaseKeepsNotices(s, listed, q, k, t);
  }

  lemma ReleaseKeepsNotices(s: Store, listed: seq<Ptr>, q: seq<ClientsMessage>, k: Slot, t: Store)
    requires ConnectionInv(s.slots, listed, q) && Releases(s, k, t)
    requires forall i :: 0 <= i < |q| && q[i].ConnectionClosed? ==> k != Message(q[i].n)
    ensures ConnectionInv(t.slots, listed, q)
  {
    forall i | 0 <= i < |q| && q[i].ConnectionClosed?
      ensures Get(t.slots, Message(q[i].n)) == Get(s.slots, Message(q[i].n))
    {
      assert NoticeOf(s.slots, listed, q[i].n);
    }
    KeptConnections(s.slots, t.slots, listed, q);
  }

  lemma OpenedKeepsStructure(s: Store, clients: set<Ptr>, listed: seq<Ptr>, unlinkedAt: map<Ptr, nat>, clock: nat,
        q: seq<ClientsMessage>, p: Ptr, c: Ptr, n: nat)
    requires StructureInv(s, clients, listed, unlinkedAt, clock, q)
    requires p !in s.counts && c !in s.counts && p != c && Message(n) !in s.slots
    ensures var connected := Connected(s, p, c, n);
      StructureInv(Recounted(connected, Appended(connected.slots, p)), clients + {p}, listed + [p], unlinkedAt, clock, q)
  {
    var connected := Connected(s, p, c, n);
    assert p !in clients && p !in listed && p !in unlinkedAt;
    OpenedKeepsHeap(s, clients, listed, p, c, n);
    ConnectedSlots(s, p, c, n);
    UnaffectedLinks(s.slots, connected.slots, clients, listed, unlinkedAt, clock);
    AppendedLinked(connected.slots, listed, p);
    AppendKeepsStale(connected.slots, clients, listed, unlinkedAt, clock, p);
    OpenedKeepsNotices(s.slots, Appended(connected.slots, p), listed, q, p);
  }

  lemma ConnectedSlots(s: Store, p: Ptr, c: Ptr, n: nat)
    requires Message(n) !in s.slots
    ensures var connected := Connected(s, p, c, n);
      && (forall k :: Link(k) ==> Get(connected.slots, k) == Get(s.slots, k))
      && (forall k: Slot :: k.Message? && k in s.slots ==> Get(Appended(connected.slots, p), k) == Get(s.slots, k))
      && (forall k :: k in Appended(connected.slots, p) && k.Connection? && k.owner != p ==> k in s.slots)
  {
  }

  lemma OpenedKeepsNotices(slots: Slots, after: Slots, listed: seq<Ptr>, q: seq<ClientsMessage>, p: Ptr)
    requires ConnectionInv(slots, listed, q) && p !in listed
    requires forall k: Slot :: k.Message? && k in slots ==> Get(after, k) == Get(slots, k)
    requires forall k :: k in after && k.Connection? && k.owner != p ==> k in slots
    ensures ConnectionInv(after, listed + [p], q)
  {
  }

  /** The client of a close notice that has been taken from the queue is unlinked. */
  lemma UnlinkedKeepsStructure(s: Store, clients: set<Ptr>, listed: seq<Ptr>, unlinkedAt: map<Ptr, nat>, clock: nat,
        q: seq<ClientsMessage>, p: Ptr, n: nat)
    requires StructureInv(s, clients, listed, unlinkedAt, clock, [ConnectionClosed(n)] + q)
    requires Get(s.slots, Message(n)) == Some(p)
    ensures p in listed
    ensures StructureInv(Recounted(s, Unlinked(s.slots, p)), clients, Without(listed, p), unlinkedAt[p := clock], clock + 1, q)
  {
    var before := [ConnectionClosed(n)] + q;
    assert before[0] == ConnectionClosed(n) && NoticeOf(s.slots, listed, n);
    UnlinkedLinked(s.slots, listed, p);
    UnlinkedKeepsHeap(s, clients, listed, p, n);
    UnlinkKeepsStale(s.slots, clients, listed, unlinkedAt, clock, p);
    UnlinkedKeepsNotices(s.slots, listed, q, p, n);
  }

  lemma UnlinkedKeepsNotices(slots: Slots, listed: seq<Ptr>, q: seq<ClientsMessage>, p: Ptr, n: nat)
    requires ConnectionInv(slots, listed, [ConnectionClosed(n)] + q) && Linked(slots, listed) && p in listed
    requires Get(slots, Message(n)) == Some(p)
    ensures ConnectionInv(Unlinked(slots, p), Without(listed, p), q)
  {
    var before, after := [ConnectionClosed(n)] + q, Unlinked(slots, p);
    WithoutMembers(listed, p);
    assert before[0] == ConnectionClosed(n) && NoticeOf(slots, listed, n);
    forall k {:trigger k.Connection?} | k in after && k.Connection?
      ensures k.owner in Without(listed, p)
    {
      UnlinkedFrame(slots, listed, p, k);
      assert Get(after, k) == Get(slots, k);
    }
    forall i | 0 <= i < |q| && q[i].ConnectionClosed?
      ensures NoticeOf(after, Without(listed, p), q[i].n) && Get(after, Message(q[i].n)) == Get(slots, Message(q[i].n))
    {
      assert before[i + 1] == q[i] && NoticeOf(slots, listed, q[i].n);
      UnlinkedFrame(slots, listed, p, Message(q[i].n));
      assert Get(slots, Message(before[0].n)) != Get(slots, Message(before[i + 1].n));
      UnlinkedFrame(slots, listed, p, Connection(slots[Message(q[i].n)]));
    }
    forall i, j | 0 <= i < j < |q| && q[i].ConnectionClosed? && q[j].ConnectionClosed?
      ensures Get(after, Message(q[i].n)) != Get(after, Message(q[j].n))
    {
      assert before[i + 1] == q[i] && before[j + 1] == q[j];
    }
  }
}
