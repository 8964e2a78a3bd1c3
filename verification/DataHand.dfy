/** CDataHandleAdmin: handles of outstanding data blocks in an array threaded by a free list. */
module DataHand {
  import opened Options

  /** What every handle stores, and the free handles in the order they will be given out. */
  datatype Store = Store(live: seq<Option<nat>>, free: seq<nat>)

  /** The free list has no entry twice and none that is in use, and together with the entries in use it
      is as long as the array. */
  ghost predicate Sound(s: Store) {
    && (forall k :: 0 <= k < |s.free| ==> s.free[k] < |s.live| && s.live[s.free[k]] == None)
    && (forall j, k :: 0 <= j < k < |s.free| ==> s.free[j] != s.free[k])
    && Count(s.live) + |s.free| == |s.live|
  }

  function Count(live: seq<Option<nat>>): (n: nat)
    ensures n <= |live|
  {
    if live == [] then 0 else (if live[0].Some? then 1 else 0) + Count(live[1..])
  }

  /** The stored pointers in the order of their handles. */
  function Held(live: seq<Option<nat>>): (held: seq<nat>)
    ensures |held| == Count(live)
  {
    if live == [] then [] else (if live[0].Some? then [live[0].value] else []) + Held(live[1..])
  }

  /** The lowest handle in use, or the number of handles. */
  function Lowest(live: seq<Option<nat>>): (h: nat)
    ensures h <= |live|
    ensures h < |live| ==> live[h].Some?
    ensures forall k :: 0 <= k < h ==> live[k] == None
  {
    if live == [] || live[0].Some? then 0 else 1 + Lowest(live[1..])
  }

  function NewEntry(s: Store, pointer: nat): (r: (Store, Option<nat>))
    requires Sound(s)
  {
    if s.free == [] then (s, None)
    else (Store(s.live[s.free[0] := Some(pointer)], s.free[1..]), Some(s.free[0]))
  }

  function FreeEntry(s: Store, h: nat): (r: (Store, Option<nat>)) {
    if h < |s.live| && s.live[h].Some? then (Store(s.live[h := None], [h] + s.free), s.live[h]) else (s, None)
  }

  function DelNext(s: Store): (r: (Store, Option<nat>)) {
    FreeEntry(s, Lowest(s.live))
  }

  function NewStore(max: nat): (s: Store)
    ensures |s.live| == max && |s.free| == max
  {
    Store(seq(max, _ => None), seq(max, i => i))
  }

  // ---- counting ------------------------------------------------------------------------------

  lemma {:induction false} CountUpdate(live: seq<Option<nat>>, h: nat, x: Option<nat>)
    requires h < |live|
    ensures Count(live[h := x]) == Count(live) - (if live[h].Some? then 1 else 0) + (if x.Some? then 1 else 0)
  {
    if h == 0 {
      assert live[0 := x][1..] == live[1..];
    } else {
      assert live[h := x][1..] == live[1..][h - 1 := x];
      CountUpdate(live[1..], h - 1, x);
    }
  }

  lemma {:induction false} CountNone(live: seq<Option<nat>>)
    ensures Count(live) == 0 <==> forall h :: 0 <= h < |live| ==> live[h] == None
    ensures Count(live) == |live| <==> forall h :: 0 <= h < |live| ==> live[h].Some?
  {
    if live != [] {
      CountNone(live[1..]);
      assert forall h :: 1 <= h < |live| ==> live[h] == live[1..][h - 1];
    }
  }

  lemma NewKeeps(s: Store, pointer: nat)
    requires Sound(s)
    ensures Sound(NewEntry(s, pointer).0)
  {
    if s.free != [] {
      CountUpdate(s.live, s.free[0], Some(pointer));
    }
  }

  lemma FreeKeeps(s: Store, h: nat)
    requires Sound(s)
    ensures Sound(FreeEntry(s, h).0)
  {
    if h < |s.live| {
      CountUpdate(s.live, h, None);
    }
  }

  /** The free list holds every entry that is not in use. */
  lemma {:induction false} FreeListIsComplete(s: Store, h: nat)
    requires Sound(s) && h < |s.live|
    ensures h in s.free <==> s.live[h] == None
    decreases |s.free|
  {
    CountNone(s.live);
    if s.free != [] && s.free[0] != h {
      var t := NewEntry(s, 0).0;
      NewKeeps(s, 0);
      FreeListIsComplete(t, h);
      assert s.free == [s.free[0]] + t.free;
    }
  }

  /** A handle is given out exactly when one is free, it was not in use before, and freeing it again
      brings back the store as it was and what was stored. */
  lemma NewIsDistinct(s: Store, pointer: nat)
    requires Sound(s)
    ensures var (t, h) := NewEntry(s, pointer);
            && (h.Some? <==> Count(s.live) < |s.live|)
            && (h.Some? ==> h.value < |s.live| && s.live[h.value] == None
                            && FreeEntry(t, h.value) == (s, Some(pointer))
                            && Count(t.live) == Count(s.live) + 1)
  {
    if s.free != [] {
      var t := NewEntry(s, pointer).0;
      CountUpdate(s.live, s.free[0], Some(pointer));
      assert [s.free[0]] + t.free == s.free;
      assert t.live[s.free[0] := None] == s.live;
    }
  }

  /** The search finds the lowest handle in use whenever the counter says that there is one. */
  lemma DelNextFinds(s: Store)
    requires Sound(s)
    ensures var (t, pointer) := DelNext(s);
            && Sound(t)
            && (pointer.Some? <==> Count(s.live) > 0)
            && (pointer.Some? ==> Lowest(s.live) < |s.live| && pointer == s.live[Lowest(s.live)]
                                  && Count(t.live) == Count(s.live) - 1)
            && (pointer.None? ==> t == s)
  {
    CountNone(s.live);
    FreeKeeps(s, Lowest(s.live));
    if Lowest(s.live) < |s.live| {
      CountUpdate(s.live, Lowest(s.live), None);
    }
  }

  lemma {:induction false} HeldAfterDelNext(live: seq<Option<nat>>)
    requires Lowest(live) < |live|
    ensures Held(live) == [live[Lowest(live)].value] + Held(live[Lowest(live) := None])
  {
    if live[0].Some? {
      assert live[0 := None][1..] == live[1..];
    } else {
      var h := Lowest(live);
      assert live[h := None][1..] == live[1..][h - 1 := None];
      HeldAfterDelNext(live[1..]);
    }
  }

  // ---- the class -----------------------------------------------------------------------------

  datatype Entry = Entry(pointer: nat, next: nat, inuse: bool)

  /** Links count from one; zero ends the list. */
  function Link(chain: seq<nat>, k: nat): nat {
    if k < |chain| then chain[k] + 1 else 0
  }

  function Live(entries: seq<Entry>): (live: seq<Option<nat>>)
    ensures |live| == |entries|
  {
    seq(|entries|, i requires 0 <= i < |entries| => if entries[i].inuse then Some(entries[i].pointer) else None)
  }

  /** The entries are threaded by the chain; entries in use are in no list, free ones store nothing. */
  ghost predicate Threaded(entries: seq<Entry>, head: nat, chain: seq<nat>) {
    && head == Link(chain, 0)
    && (forall k :: 0 <= k < |chain| ==> chain[k] < |entries| && entries[chain[k]].next == Link(chain, k + 1))
    && (forall h :: 0 <= h < |entries| ==> if entries[h].inuse then entries[h].next == 0 else entries[h].pointer == 0)
  }

  lemma ThreadedPush(entries: seq<Entry>, head: nat, chain: seq<nat>, h: nat)
    requires Threaded(entries, head, chain) && h < |entries| && h !in chain
    ensures Threaded(entries[h := Entry(0, head, false)], h + 1, [h] + chain)
    ensures Live(entries[h := Entry(0, head, false)]) == Live(entries)[h := None]
  {
    var e := entries[h := Entry(0, head, false)];
    assert forall k :: 0 <= k <= |chain| ==> Link([h] + chain, k + 1) == Link(chain, k);
  }

  lemma ThreadedPop(entries: seq<Entry>, head: nat, chain: seq<nat>, pointer: nat)
    requires Threaded(entries, head, chain) && chain != []
    requires forall j, k :: 0 <= j < k < |chain| ==> chain[j] != chain[k]
    ensures Threaded(entries[chain[0] := Entry(pointer, 0, true)], entries[chain[0]].next, chain[1..])
    ensures Live(entries[chain[0] := Entry(pointer, 0, true)]) == Live(entries)[chain[0] := Some(pointer)]
  {
    var rest := chain[1..];
    assert forall k :: 0 <= k < |rest| ==> rest[k] == chain[k + 1];
    assert forall k :: 0 <= k <= |rest| ==> Link(rest, k) == Link(chain, k + 1);
  }

  lemma NewStoreIsSound(max: nat)
    ensures Sound(NewStore(max))
  {
    CountNone(NewStore(max).live);
  }

  lemma InitialIsThreaded(entries: seq<Entry>)
    requires entries != []
    requires forall k :: 0 <= k < |entries| ==>
               entries[k] == Entry(0, if k + 1 < |entries| then k + 2 else 0, false)
    ensures var s := NewStore(|entries|);
            Threaded(entries, 1, s.free) && Live(entries) == s.live && Count(s.live) == 0
  {
    CountNone(NewStore(|entries|).live);
  }

  lemma LowestNotFree(s: Store, i: nat)
    requires Sound(s) && i <= |s.live|
    requires i != 0 ==> i - 1 !in s.free
    requires forall h :: 0 <= h < (if i != 0 then i - 1 else |s.live|) ==> h in s.free
    ensures Lowest(s.live) == if i != 0 then i - 1 else |s.live|
    ensures i != 0 ==> s.live[i - 1].Some?
  {
    forall h | 0 <= h < |s.live|
      ensures h in s.free <==> s.live[h] == None
    {
      FreeListIsComplete(s, h);
    }
  }

  class DataHandleAdmin {
    const entries: array<Entry>
    var curEntries: nat
    var nextOne: nat
    ghost var chain: seq<nat>

    ghost function Contents(): Store
      reads this, entries
    {
      Store(Live(entries[..]), chain)
    }

    ghost predicate Valid()
      reads this, entries
    {
      && Sound(Contents())
      && Threaded(entries[..], nextOne, chain)
      && curEntries == Count(Contents().live)
    }

    /** InitEntries of a new object; the source demands at least one entry. */
    constructor (maxEntries: nat)
      requires 0 < maxEntries
      ensures Valid() && fresh(entries) && entries.Length == maxEntries && Contents() == NewStore(maxEntries)
    {
      var e := new Entry[maxEntries](_ => Entry(0, 0, false));
      e[maxEntries - 1] := Entry(0, 0, false);
      var i := maxEntries - 1;
      while i > 0
        invariant 0 <= i < maxEntries
        invariant forall k :: 0 <= k < i ==> e[k] == Entry(0, 0, false)
        invariant forall k :: i <= k < maxEntries ==> e[k] == Entry(0, if k + 1 < maxEntries then k + 2 else 0, false)
      {
        e[i - 1] := Entry(0, i + 1, false);
        i := i - 1;
      }
      entries := e;
      nextOne := 1;
      curEntries := 0;
      chain := seq(maxEntries, k => k);
      InitialIsThreaded(e[..]);
      NewStoreIsSound(maxEntries);
    }

    method New(pointer: nat) returns (ok: bool, handle: nat)
      requires Valid()
      modifies this, entries
      ensures Valid()
      ensures (Contents(), if ok then Some(handle) else None) == NewEntry(old(Contents()), pointer)
    {
      ok, handle := nextOne != 0, 0;
      if ok {
        handle := nextOne - 1;
        Take(pointer);
      }
    }

    /** Gives out the head of the free list. */
    method Take(pointer: nat)
      requires Valid() && nextOne != 0
      modifies this, entries
      ensures Valid()
      ensures Contents() == NewEntry(old(Contents()), pointer).0
    {
      ghost var was, e := Contents(), entries[..];
      assert was.free == chain && nextOne == chain[0] + 1;
      NewKeeps(was, pointer);
      CountUpdate(was.live, chain[0], Some(pointer));
      ThreadedPop(e, nextOne, chain, pointer);
      var get := nextOne - 1;
      nextOne := entries[get].next;
      entries[get] := Entry(pointer, 0, true);
      curEntries := curEntries + 1;
      chain := chain[1..];
      assert entries[..] == e[get := Entry(pointer, 0, true)];
    }

    method Free(handle: nat) returns (ok: bool, pointer: nat)
      requires Valid()
      modifies this, entries
      ensures Valid()
      ensures (Contents(), if ok then Some(pointer) else None) == FreeEntry(old(Contents()), handle)
    {
      ok, pointer := handle < entries.Length && entries[handle].inuse, 0;
      if ok {
        pointer := entries[handle].pointer;
        Unlink(handle);
      }
    }

    /** Puts an entry at the head of the free list. */
    method Unlink(handle: nat)
      requires Valid() && handle < entries.Length && entries[handle].inuse
      modifies this, entries
      ensures Valid()
      ensures Contents() == FreeEntry(old(Contents()), handle).0
    {
      FreeKeeps(Contents(), handle);
      CountUpdate(Contents().live, handle, None);
      assert Contents().live[handle].Some?;
      ThreadedPush(entries[..], nextOne, chain, handle);
      entries[handle] := Entry(0, nextOne, false);
      nextOne := handle + 1;
      curEntries := curEntries - 1;
      chain := [handle] + chain;
      assert entries[..] == old(entries[..])[handle := Entry(0, old(nextOne), false)];
    }

    predicate IsEmpty()
      requires Valid()
      reads this, entries
      ensures IsEmpty() <==> Count(Contents().live) == 0
    {
      curEntries == 0
    }

    /** Whether a link is reached from the head of the free list. */
    method IsFree(i: nat) returns (found: bool)
      requires Threaded(entries[..], nextOne, chain) && i != 0
      ensures found <==> i - 1 in chain
    {
      var lauf := nextOne;
      ghost var k := 0;
      while lauf != 0 && lauf != i
        invariant k <= |chain| && lauf == Link(chain, k)
        invariant forall j :: 0 <= j < k ==> chain[j] != i - 1
        decreases |chain| - k
      {
        lauf := entries[lauf - 1].next;
        k := k + 1;
      }
      found := lauf != 0;
    }

    /** The nested walk: the first link that the free list does not reach, or zero. */
    method FirstInUse() returns (i: nat)
      requires Threaded(entries[..], nextOne, chain)
      ensures i <= entries.Length
      ensures i != 0 ==> i - 1 !in chain
      ensures forall h :: 0 <= h < (if i != 0 then i - 1 else entries.Length) ==> h in chain
    {
      i := 1;
      while i <= entries.Length
        invariant 1 <= i <= entries.Length + 1
        invariant forall h :: 0 <= h < i - 1 ==> h in chain
      {
        var found := IsFree(i);
        if !found {
          return;
        }
        i := i + 1;
      }
      i := 0;
    }

    method DelNextEntry() returns (ok: bool, pointer: nat)
      requires Valid()
      modifies this, entries
      ensures Valid()
      ensures (Contents(), if ok then Some(pointer) else None) == DelNext(old(Contents()))
    {
      ok, pointer := false, 0;
      CountNone(Contents().live);
      if curEntries != 0 {
        var i := FirstInUse();
        LowestNotFree(Contents(), i);
        if i != 0 {
          pointer := entries[i - 1].pointer;
          ok := true;
          Unlink(i - 1);
        }
      }
    }
  }
}
