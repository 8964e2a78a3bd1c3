/** CDynamicStore and CDynStoreQueue: a pool of message buffers and a queue of filled ones, both threaded
    through the buffers' own links. */
module DynStore {
  import opened Options

  /** Messages are numbered as they are written; `release` marks the one that asks for the release. */
  datatype Message = Message(serial: nat, release: bool)

  datatype Buffer = Buffer(id: nat, data: Message)

  /** The free buffers, last freed first; how many buffers were ever made; the queue. */
  datatype Store = Store(pool: seq<nat>, made: nat, queue: seq<Buffer>)

  function AllocFrom(s: Store): (Store, nat) {
    if s.pool == [] then (s.(made := s.made + 1), s.made) else (s.(pool := s.pool[1..]), s.pool[0])
  }

  function FreeTo(s: Store, id: nat): Store {
    s.(pool := [id] + s.pool)
  }

  function Enter(s: Store, b: Buffer): Store {
    s.(queue := s.queue + [b])
  }

  function Leave(s: Store): (Store, Option<Buffer>) {
    if s.queue == [] then (s, None) else (s.(queue := s.queue[1..]), Some(s.queue[0]))
  }

  /** Every queued buffer goes back to the pool, the first one first. */
  function FreeAll(s: Store): (t: Store)
    ensures t.queue == [] && t.made == s.made
    decreases |s.queue|
  {
    if s.queue == [] then s else FreeAll(FreeTo(Leave(s).0, s.queue[0].id))
  }

  // ---- every buffer in exactly one place -----------------------------------------------------

  function Ids(queue: seq<Buffer>): multiset<nat> {
    if queue == [] then multiset{} else multiset{queue[0].id} + Ids(queue[1..])
  }

  /** Each of the buffers made so far, once. */
  function All(made: nat): multiset<nat> {
    if made == 0 then multiset{} else All(made - 1) + multiset{made - 1}
  }

  /** Pool, queue and the buffers in other hands hold every buffer once. */
  ghost predicate Accounted(s: Store, out: multiset<nat>) {
    multiset(s.pool) + Ids(s.queue) + out == All(s.made)
  }

  lemma {:induction false} AllOnce(made: nat, id: nat)
    ensures All(made)[id] == if id < made then 1 else 0
  {
    if made > 0 {
      AllOnce(made - 1, id);
    }
  }

  /** No buffer is in two places, and none is lost. */
  lemma InOnePlace(s: Store, out: multiset<nat>, id: nat)
    requires Accounted(s, out)
    ensures multiset(s.pool)[id] + Ids(s.queue)[id] + out[id] == if id < s.made then 1 else 0
  {
    AllOnce(s.made, id);
    assert (multiset(s.pool) + Ids(s.queue) + out)[id] == All(s.made)[id];
  }

  lemma {:induction false} IdsAppend(queue: seq<Buffer>, b: Buffer)
    ensures Ids(queue + [b]) == Ids(queue) + multiset{b.id}
  {
    if queue == [] {
      assert queue + [b] == [b];
      assert [b][1..] == [];
    } else {
      assert (queue + [b])[1..] == queue[1..] + [b];
      IdsAppend(queue[1..], b);
    }
  }

  lemma AllocAccounted(s: Store, out: multiset<nat>)
    requires Accounted(s, out)
    ensures Accounted(AllocFrom(s).0, out + multiset{AllocFrom(s).1})
    ensures AllocFrom(s).1 !in out && Ids(s.queue)[AllocFrom(s).1] == 0
  {
    AllocMoves(s, out);
    InOnePlace(s, out, AllocFrom(s).1);
  }

  lemma AllocMoves(s: Store, out: multiset<nat>)
    requires Accounted(s, out)
    ensures Accounted(AllocFrom(s).0, out + multiset{AllocFrom(s).1})
  {
    if s.pool == [] {
      assert All(s.made + 1) == All(s.made) + multiset{s.made};
    } else {
      assert s.pool == [s.pool[0]] + s.pool[1..];
      assert multiset(s.pool) == multiset{s.pool[0]} + multiset(s.pool[1..]);
    }
  }

  lemma FreeAccounted(s: Store, out: multiset<nat>, id: nat)
    requires Accounted(s, out + multiset{id})
    ensures Accounted(FreeTo(s, id), out)
  {
  }

  lemma EnterAccounted(s: Store, out: multiset<nat>, b: Buffer)
    requires Accounted(s, out + multiset{b.id})
    ensures Accounted(Enter(s, b), out)
  {
    IdsAppend(s.queue, b);
  }

  lemma LeaveAccounted(s: Store, out: multiset<nat>)
    requires Accounted(s, out) && s.queue != []
    ensures Accounted(Leave(s).0, out + multiset{s.queue[0].id})
  {
  }

  lemma {:induction false} FreeAllAccounted(s: Store, out: multiset<nat>)
    requires Accounted(s, out)
    ensures Accounted(FreeAll(s), out)
    decreases |s.queue|
  {
    if s.queue != [] {
      LeaveAccounted(s, out);
      FreeAccounted(Leave(s).0, out, s.queue[0].id);
      FreeAllAccounted(FreeTo(Leave(s).0, s.queue[0].id), out);
    }
  }

  // ---- the linked lists ----------------------------------------------------------------------

  class Element {
    ghost const id: nat
    var next: Element?
    var data: Message

    constructor (ghost number: nat)
      ensures id == number
    {
      id, next, data := number, null, Message(0, false);
    }
  }

  function At(s: seq<Element>, k: nat): Element? {
    if k < |s| then s[k] else null
  }

  ghost predicate Chain(head: Element?, s: seq<Element>)
    reads s
  {
    head == At(s, 0) && forall i {:trigger s[i].next} :: 0 <= i < |s| ==> s[i].next == At(s, i + 1)
  }

  ghost predicate Apart(pool: seq<Element>, queue: seq<Element>) {
    && (forall i, j :: 0 <= i < j < |pool| ==> pool[i] != pool[j])
    && (forall i, j :: 0 <= i < j < |queue| ==> queue[i] != queue[j])
    && (forall i, j :: 0 <= i < |pool| && 0 <= j < |queue| ==> pool[i] != queue[j])
  }

  lemma ApartAppend(pool: seq<Element>, queue: seq<Element>, e: Element)
    requires Apart(pool, queue) && e !in pool && e !in queue
    ensures Apart(pool, queue + [e])
  {
  }

  lemma ApartPrepend(pool: seq<Element>, queue: seq<Element>, e: Element)
    requires Apart(pool, queue) && e !in pool && e !in queue
    ensures Apart([e] + pool, queue)
  {
  }

  /** The last element of `s` leads on to `e`. */
  lemma ChainAppend(s: seq<Element>, e: Element)
    requires forall i {:trigger s[i].next} :: 0 <= i < |s| ==> s[i].next == At(s + [e], i + 1)
    requires e.next == null
    ensures Chain(At(s + [e], 0), s + [e])
  {
  }

  lemma FirstLeaves(pool: seq<Element>, queue: seq<Element>)
    requires pool != [] && Apart(pool, queue) && Chain(pool[0], pool)
    ensures Apart(pool[1..], queue) && Chain(pool[0].next, pool[1..])
    ensures pool[0] !in pool[1..] && pool[0] !in queue
  {
  }

  lemma ChainPrepend(s: seq<Element>, e: Element)
    requires Chain(At(s, 0), s) && e.next == At(s, 0)
    ensures Chain(e, [e] + s)
  {
  }

  class CDynStoreQueue {
    var pStore: Element?
    var first: Element?
    var last: Element?
    ghost var pool: seq<Element>
    ghost var queue: seq<Element>
    ghost var store: Store
    ghost var all: set<Element>

    ghost predicate Valid()
      reads this, all
    {
      && (forall e :: e in pool ==> e in all) && (forall e :: e in queue ==> e in all)
      && Apart(pool, queue) && Chain(pStore, pool) && Chain(first, queue)
      && last == (if queue == [] then null else queue[|queue| - 1])
      && |store.pool| == |pool| && |store.queue| == |queue|
      && (forall i :: 0 <= i < |pool| ==> pool[i].id == store.pool[i])
      && (forall i :: 0 <= i < |queue| ==> Buffer(queue[i].id, queue[i].data) == store.queue[i])
    }

    constructor ()
      ensures Valid() && store == Store([], 0, []) && all == {}
    {
      pStore, first, last, pool, queue, all := null, null, null, [], [], {};
      store := Store([], 0, []);
    }

    /** A free buffer, or a new one. */
    method Alloc() returns (e: Element)
      requires Valid()
      modifies this
      ensures Valid() && fresh(all - old(all)) && e in all && e !in pool && e !in queue
      ensures (store, e.id) == AllocFrom(old(store))
    {
      if pStore != null {
        FirstLeaves(pool, queue);
        e := pStore;
        pStore := pStore.next;
        pool := pool[1..];
      } else {
        e := new Element(store.made);
        all := all + {e};
      }
      store := AllocFrom(store).0;
    }

    method Free(e: Element)
      requires Valid() && e in all && e !in pool && e !in queue
      modifies this, e`next
      ensures Valid() && all == old(all)
      ensures store == FreeTo(old(store), e.id)
      ensures pool == [e] + old(pool) && queue == old(queue)
    {
      e.next := pStore;
      pStore := e;
      ChainPrepend(pool, e);
      ApartPrepend(pool, queue, e);
      pool := [e] + pool;
      store := FreeTo(store, e.id);
    }

    method InQueue(e: Element)
      requires Valid() && e in all && e !in pool && e !in queue
      modifies this, all`next
      ensures Valid() && all == old(all)
      ensures store == Enter(old(store), Buffer(e.id, e.data))
    {
      e.next := null;
      if last != null {
        last.next := e;
      }
      last := e;
      if first == null {
        first := last;
      }
      ChainAppend(queue, e);
      ApartAppend(pool, queue, e);
      queue := queue + [e];
      store := Enter(store, Buffer(e.id, e.data));
    }

    method OutQueue() returns (e: Element?)
      requires Valid()
      modifies this
      ensures Valid() && all == old(all)
      ensures (store, if e == null then None else Some(Buffer(e.id, e.data))) == Leave(old(store))
      ensures e != null ==> e in all && e !in pool && e !in queue
    {
      e := null;
      if first != null {
        e := first;
        first := first.next;
        if first == null {
          last := null;
        }
        queue := queue[1..];
        store := Leave(store).0;
      }
    }

    method FreeQueue()
      requires Valid()
      modifies this, all`next
      ensures Valid() && all == old(all)
      ensures store == FreeAll(old(store))
    {
      ghost var s := store;
      var delOne := OutQueue();
      while delOne != null
        invariant Valid() && all == old(all)
        invariant (store, if delOne == null then None else Some(Buffer(delOne.id, delOne.data))) == Leave(s)
        invariant FreeAll(s) == FreeAll(old(store))
        invariant delOne != null ==> delOne in all && delOne !in pool && delOne !in queue
        decreases |s.queue|
      {
        Free(delOne);
        s := store;
        delOne := OutQueue();
      }
    }
  }
}
