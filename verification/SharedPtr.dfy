/** Reference-counted pointers. Memory is explicit: every place that may hold a shared pointer is a named
    slot, and every allocated pointee has a use count. A null pointer is an empty slot. */
module SharedPtr {

  type Ptr = nat

  /** The places that hold counted references. */
  datatype Slot =
    | Head                      // the client list's ends
    | Tail
    | Prev(owner: Ptr)          // inside a client record
    | Next(owner: Ptr)
    | Credentials(owner: Ptr)
    | Connection(owner: Ptr)    // the callback argument of a client's connection
    | Message(n: nat)           // a client, in a queued message, a transaction or a running handler
    | Secret(n: nat)            // credentials, in a queued message or a running handler

  type Slots = map<Slot, Ptr>

  /** The slots inside a record, which go with it. */
  predicate Inside(k: Slot) { k.Prev? || k.Next? || k.Credentials? }

  ghost function Holding(slots: Slots, p: Ptr): set<Slot> { set k | k in slots && slots[k] == p }

  datatype Store = Store(counts: map<Ptr, nat>, slots: Slots)
  {
    /** Every count is the number of slots holding that pointer, and every slot holds a live pointer. */
    ghost predicate Counted() {
      && (forall p :: p in counts ==> counts[p] == |Holding(slots, p)|)
      && (forall k :: k in slots ==> slots[k] in counts)
    }

    /** Nothing is kept alive without a holder. */
    ghost predicate Positive() { forall p :: p in counts ==> counts[p] > 0 }

    /** No slot outlives the record it is in. */
    ghost predicate Owned() {
      forall k :: k in slots && Inside(k) ==> k.owner in counts
    }
  }

  // ---------------------------------------------------------------- holders

  lemma HoldingWithout(slots: Slots, k: Slot, p: Ptr)
    requires k in slots
    ensures Holding(slots - {k}, p) == Holding(slots, p) - {k}
    ensures |Holding(slots - {k}, p)| == |Holding(slots, p)| - (if slots[k] == p then 1 else 0)
  {
  }

  lemma HoldingWith(slots: Slots, k: Slot, target: Ptr, p: Ptr)
    requires k !in slots
    ensures |Holding(slots[k := target], p)| == |Holding(slots, p)| + (if target == p then 1 else 0)
  {
    assert Holding(slots[k := target], p) == Holding(slots, p) + (if target == p then {k} else {});
  }

  lemma HeldIsCounted(s: Store, k: Slot)
    requires s.Counted() && k in s.slots
    ensures s.slots[k] in s.counts && s.counts[s.slots[k]] > 0
  {
    assert k in Holding(s.slots, s.slots[k]);
  }

  // ---------------------------------------------------------------- the three operations

  /** shared_ptr_create, into an empty slot. */
  function Created(s: Store, p: Ptr, k: Slot): Store { Store(s.counts[p := 1], s.slots[k := p]) }

  lemma CreatedCounted(s: Store, p: Ptr, k: Slot)
    requires s.Counted() && p !in s.counts && k !in s.slots
    ensures Created(s, p, k).Counted()
    ensures s.Positive() ==> Created(s, p, k).Positive()
  {
    forall q | q in Created(s, p, k).counts
      ensures Created(s, p, k).counts[q] == |Holding(Created(s, p, k).slots, q)|
    {
      HoldingWith(s.slots, k, p, q);
      if q == p {
        assert Holding(s.slots, p) == {};
      }
    }
  }

  /** shared_ptr_share of p, into an empty slot. */
  function Shared(s: Store, p: Ptr, k: Slot): Store
    requires p in s.counts
  {
    Store(s.counts[p := s.counts[p] + 1], s.slots[k := p])
  }

  lemma SharedCounted(s: Store, p: Ptr, k: Slot)
    requires s.Counted() && p in s.counts && k !in s.slots
    ensures Shared(s, p, k).Counted()
    ensures s.Positive() ==> Shared(s, p, k).Positive()
  {
    forall q | q in s.counts
      ensures Shared(s, p, k).counts[q] == |Holding(Shared(s, p, k).slots, q)|
    {
      HoldingWith(s.slots, k, p, q);
    }
  }

  /** Passing a reference on from one slot to an empty one, without counting. */
  function Moved(s: Store, from: Slot, to: Slot): Store
    requires from in s.slots
  {
    Store(s.counts, (s.slots - {from})[to := s.slots[from]])
  }

  lemma MovedCounted(s: Store, from: Slot, to: Slot)
    requires s.Counted() && from in s.slots && to !in s.slots
    ensures Moved(s, from, to).Counted()
  {
    forall q | q in s.counts
      ensures Moved(s, from, to).counts[q] == |Holding(Moved(s, from, to).slots, q)|
    {
      HoldingWithout(s.slots, from, q);
      HoldingWith(s.slots - {from}, to, s.slots[from], q);
    }
  }

  function Forgotten(s: Store, k: Slot): Store
    requires k in s.slots && s.slots[k] in s.counts && s.counts[s.slots[k]] > 0
  {
    var p := s.slots[k];
    Store(s.counts[p := s.counts[p] - 1], s.slots - {k})
  }

  lemma ForgottenCounted(s: Store, k: Slot)
    requires s.Counted() && k in s.slots
    ensures s.slots[k] in s.counts && s.counts[s.slots[k]] > 0
    ensures Forgotten(s, k).Counted()
  {
    HeldIsCounted(s, k);
    forall q | q in s.counts
      ensures Forgotten(s, k).counts[q] == |Holding(Forgotten(s, k).slots, q)|
    {
      HoldingWithout(s.slots, k, q);
    }
  }

  /** What giving up the slots in `lost` may do, and no more: besides those, only slots inside freed
      records are emptied; a freed record leaves no slot behind; and a record is freed only when its
      count reaches zero, where it had not been before. */
  ghost predicate Shrinks(s: Store, lost: set<Slot>, t: Store) {
    && t.Counted()
    && t.slots.Keys <= s.slots.Keys && t.counts.Keys <= s.counts.Keys
    && |t.slots| <= |s.slots|
    && (forall j :: j in t.slots ==> t.slots[j] == s.slots[j])
    && (forall j :: j in s.slots && j !in lost && j !in t.slots ==>
          Inside(j) && j.owner in s.counts && j.owner !in t.counts)
    && (forall j :: j in t.slots && Inside(j) && j.owner in s.counts ==> j.owner in t.counts)
    && (forall p :: p in s.counts && s.counts[p] == 0 ==> p in t.counts && t.counts[p] == 0)
    && (forall p :: p in t.counts && t.counts[p] == 0 ==> s.counts[p] == 0)
  }

  lemma ShrinksMore(s: Store, lost: set<Slot>, t: Store, more: set<Slot>, u: Store)
    requires Shrinks(s, lost, t) && Shrinks(t, more, u)
    ensures Shrinks(s, lost + more, u)
  {
  }

  /** Everything a release may do, and no more. */
  ghost predicate Releases(s: Store, k: Slot, t: Store) {
    Shrinks(s, {k}, t) && k !in t.slots
  }

  lemma ForgettingReleases(s: Store, k: Slot)
    requires s.Counted() && k in s.slots && s.slots[k] in s.counts && s.counts[s.slots[k]] > 1
    ensures Releases(s, k, Forgotten(s, k))
  {
    ForgottenCounted(s, k);
  }

  lemma FreedCounted(c: Store, p: Ptr)
    requires c.Counted() && p in c.counts && c.counts[p] == 0
    ensures Store(c.counts - {p}, c.slots).Counted()
  {
    forall j | j in c.slots
      ensures c.slots[j] != p
    {
      HeldIsCounted(c, j);
    }
  }

  /** A record cleaned up, with no holder left, and about to be freed. */
  ghost predicate CleanedUp(s: Store, k: Slot, c: Store, p: Ptr) {
    && k in s.slots && s.slots[k] == p && p in s.counts && s.counts[p] == 1
    && Shrinks(Forgotten(s, k), {Prev(p), Next(p), Credentials(p)}, c)
    && Prev(p) !in c.slots && Next(p) !in c.slots && Credentials(p) !in c.slots
  }

  lemma FreeingEmptiesInside(s: Store, k: Slot, c: Store, p: Ptr)
    requires CleanedUp(s, k, c, p)
    ensures forall j :: j in s.slots && j != k && j !in c.slots ==> Inside(j) && j.owner in s.counts && j.owner !in (c.counts - {p})
    ensures forall j :: j in c.slots && Inside(j) && j.owner in s.counts ==> j.owner in (c.counts - {p})
  {
    hide Store.Counted;
    var d := Forgotten(s, k);
    forall j | j in s.slots && j != k && j !in c.slots
      ensures Inside(j) && j.owner in s.counts && j.owner !in (c.counts - {p})
    {
      assert j in d.slots;
    }
  }

  lemma FreeingKeepsZeros(s: Store, k: Slot, c: Store, p: Ptr)
    requires CleanedUp(s, k, c, p)
    ensures p in c.counts && c.counts[p] == 0
    ensures forall q :: q in s.counts && s.counts[q] == 0 ==> q in c.counts && c.counts[q] == 0
    ensures forall q :: q in c.counts && q != p && c.counts[q] == 0 ==> s.counts[q] == 0
  {
    hide Store.Counted;
    var d := Forgotten(s, k);
    assert p in d.counts && d.counts[p] == 0;
    forall q | q in s.counts && s.counts[q] == 0
      ensures q in c.counts && c.counts[q] == 0
    {
      assert q in d.counts && d.counts[q] == 0;
    }
  }

  /** After the cleanup of a record with no holder left, freeing it completes the release. */
  lemma FreeingReleases(s: Store, k: Slot, c: Store, p: Ptr)
    requires CleanedUp(s, k, c, p)
    ensures Releases(s, k, Store(c.counts - {p}, c.slots))
  {
    hide Store.Counted;
    ForgottenIsSmaller(s, k);
    FreeingEmptiesInside(s, k, c, p);
    FreeingKeepsZeros(s, k, c, p);
    FreedCounted(c, p);
  }

  lemma ShrinksSlots(s: Store, lost: set<Slot>, t: Store)
    requires Shrinks(s, lost, t)
    ensures t.slots.Keys <= s.slots.Keys
  {
  }

  /** The cleanup's three releases. */
  lemma CleaningUp(d: Store, p: Ptr, a: Store, b: Store, c: Store)
    requires Releases(d, Prev(p), a) && Releases(a, Next(p), b) && Releases(b, Credentials(p), c)
    ensures Shrinks(d, {Prev(p), Next(p), Credentials(p)}, c)
    ensures Prev(p) !in c.slots && Next(p) !in c.slots && Credentials(p) !in c.slots
  {
    hide Shrinks;
    ShrinksSlots(a, {Next(p)}, b);
    ShrinksSlots(b, {Credentials(p)}, c);
    ShrinksMore(d, {Prev(p)}, a, {Next(p)}, b);
    ShrinksMore(d, {Prev(p)} + {Next(p)}, b, {Credentials(p)}, c);
    assert {Prev(p)} + {Next(p)} + {Credentials(p)} == {Prev(p), Next(p), Credentials(p)};
  }

  /** shared_ptr_release: count down, and at zero run the cleanup, which releases what the record holds,
      before the record itself is freed. */
  ghost function Released(s: Store, k: Slot): (t: Store)
    requires s.Counted()
    ensures Releases(s, k, t)
    ensures k !in s.slots ==> t == s
    decreases |s.slots|
  {
    if k !in s.slots then s
    else
      ForgottenCounted(s, k);
      var p := s.slots[k];
      var dropped := Forgotten(s, k);
      ForgottenIsSmaller(s, k);
      if dropped.counts[p] > 0 then
        ForgettingReleases(s, k);
        dropped
      else
        var a := Released(dropped, Prev(p));
        var b := Released(a, Next(p));
        var c := Released(b, Credentials(p));
        CleaningUp(dropped, p, a, b, c);
        FreeingReleases(s, k, c, p);
        Store(c.counts - {p}, c.slots)
  }

  /** The same for any store, so that models can be written down before their counts are known right. */
  ghost function Release(s: Store, k: Slot): Store {
    if s.Counted() then Released(s, k) else s
  }

  lemma ForgottenIsSmaller(s: Store, k: Slot)
    requires k in s.slots && s.slots[k] in s.counts && s.counts[s.slots[k]] > 0
    ensures |Forgotten(s, k).slots| == |s.slots| - 1
  {
  }

  /** Releasing a reference that is not the last one only counts down. */
  lemma ReleasedOfMany(s: Store, k: Slot, other: Slot)
    requires s.Counted() && k in s.slots && other in s.slots && other != k && s.slots[other] == s.slots[k]
    ensures s.slots[k] in s.counts && s.counts[s.slots[k]] > 1 && Released(s, k) == Forgotten(s, k)
  {
    var p := s.slots[k];
    assert {k, other} <= Holding(s.slots, p);
    SubsetSize({k, other}, Holding(s.slots, p));
  }

  lemma SubsetSize<T>(a: set<T>, b: set<T>)
    requires a <= b
    ensures |a| <= |b|
  {
    assert b == a + (b - a);
  }

  /** The counts are determined by who holds what. */
  ghost function Recounted(s: Store, slots: Slots): Store {
    Store(map p | p in s.counts :: |Holding(slots, p)|, slots)
  }

  lemma CountedIsRecounted(s: Store, t: Store)
    requires t.Counted() && t.counts.Keys == s.counts.Keys
    ensures t == Recounted(s, t.slots)
  {
  }

  /** A release leaves a healthy store healthy: nothing without a holder survives, nothing held is freed. */
  lemma ReleasedHealthy(s: Store, k: Slot)
    requires s.Counted() && s.Positive() && s.Owned()
    ensures Released(s, k).Counted() && Released(s, k).Positive() && Released(s, k).Owned()
    ensures forall p :: p in s.counts && Holding(Released(s, k).slots, p) != {} ==> p in Released(s, k).counts
  {
  }

  // ---------------------------------------------------------------- the code

  /** The shared pointers of the program, updated in place. */
  class Memory {
    var counts: map<Ptr, nat>
    var slots: Slots

    ghost function View(): Store
      reads this
    {
      Store(counts, slots)
    }

    constructor ()
      ensures View() == Store(map[], map[])
    {
      counts, slots := map[], map[];
    }

    method Create(p: Ptr, k: Slot)
      requires View().Counted() && p !in counts && k !in slots
      modifies this
      ensures View() == Created(old(View()), p, k) && View().Counted()
    {
      CreatedCounted(View(), p, k);
      counts := counts[p := 1];
      slots := slots[k := p];
    }

    /** Shares what one slot holds into an empty one; sharing null leaves it empty. */
    method Share(from: Slot, to: Slot)
      requires View().Counted() && to !in slots
      modifies this
      ensures View().Counted()
      ensures View() == if from in old(slots) then Shared(old(View()), old(slots)[from], to) else old(View())
    {
      if from in slots {
        var p := slots[from];
        SharedCounted(View(), p, to);
        counts := counts[p := counts[p] + 1];
        slots := slots[to := p];
      }
    }

    /** Assigns one slot's reference to an empty slot, leaving null behind. */
    method Move(from: Slot, to: Slot)
      requires View().Counted() && to !in slots
      modifies this
      ensures View().Counted()
      ensures View() == if from in old(slots) then Moved(old(View()), from, to) else old(View())
    {
      if from in slots {
        MovedCounted(View(), from, to);
        slots := (slots - {from})[to := slots[from]];
      }
    }

    method Release(k: Slot)
      requires View().Counted()
      modifies this
      ensures View() == Released(old(View()), k) && View().Counted()
      decreases |slots|
    {
      if k in slots {
        ForgottenCounted(View(), k);
        ForgottenIsSmaller(View(), k);
        var p := slots[k];
        counts := counts[p := counts[p] - 1];
        slots := slots - {k};
        if counts[p] == 0 {
          Release(Prev(p));
          Release(Next(p));
          Release(Credentials(p));
          counts := counts - {p};
        }
      }
    }

    /** A release while another slot is known to hold the same pointer. */
    method ReleaseOneOfMany(k: Slot, other: Slot)
      requires View().Counted() && k in slots && other in slots && other != k && slots[other] == slots[k]
      modifies this
      ensures old(slots)[k] in old(counts) && old(counts)[old(slots)[k]] > 1
      ensures View() == Forgotten(old(View()), k) && View().Counted()
    {
      ReleasedOfMany(View(), k, other);
      Release(k);
    }
  }
}
