/** CTimerList: the linked list of timers.  A timer that is taken out keeps its link, and a walk that has kept it
    goes on over that link. */
module TimerList {
  import opened TimerWalk

  class CTimerSlot {
    var link: CTimerSlot?
    var target: nat

    constructor ()
      ensures link == null && target == 0
    {
      link, target := null, 0;
    }
  }

  type Timers = seq<Timer<CTimerSlot>>

  const UNSIGNED := 0x1_0000_0000

  /** The source's unsigned. */
  type Unsigned = n: nat | n < UNSIGNED

  function Up(count: Unsigned): Unsigned {
    if count == UNSIGNED - 1 then 0 else count + 1
  }

  function Down(count: Unsigned): Unsigned {
    if count == 0 then UNSIGNED - 1 else count - 1
  }

  lemma CountsUp(n: nat)
    ensures Up(n % UNSIGNED) == (n + 1) % UNSIGNED
  {
  }

  lemma CountsDown(n: nat)
    requires n > 0
    ensures Down(n % UNSIGNED) == (n - 1) % UNSIGNED
  {
  }

  function At(timers: Timers, k: nat): CTimerSlot? {
    if k < |timers| then timers[k].id else null
  }

  function Before(timers: Timers, k: nat): CTimerSlot? {
    if 0 < k <= |timers| then timers[k - 1].id else null
  }

  /** What a timer that has been taken out is linked to. */
  function Onward(w: Walk<CTimerSlot>, i: nat): CTimerSlot?
    requires i < |w.stale|
  {
    if i + 1 < |w.stale| then w.stale[i + 1].id else At(w.list, w.at)
  }

  lemma InsertedLinks(list: Timers, x: Timer<CTimerSlot>, k: nat, i: nat)
    requires k <= |list| && i <= |list|
    ensures i < k ==> Inserted(list, x, k)[i] == list[i]
    ensures i > k ==> Inserted(list, x, k)[i] == list[i - 1]
    ensures Inserted(list, x, k)[k] == x
    ensures At(Inserted(list, x, k), i + 1)
         == if i + 1 == k then x.id else At(list, if i < k then i + 1 else i)
  {
  }

  lemma AddedOnward(w: Walk<CTimerSlot>, x: Timer<CTimerSlot>, i: nat)
    requires Inside(w) && i < |Added(w, x).stale|
    ensures i < |w.stale| && Added(w, x).stale[i] == w.stale[i] && w.stale[i].id != x.id
    ensures Onward(Added(w, x), i) == Onward(w, i)
  {
    var k := Place(w.list, x.target);
    InsertedLinks(w.list, x, k, w.at);
    if w.at < k {
      InsertedLinks(w.list, x, k, if w.at == 0 then 0 else w.at - 1);
    }
  }

  lemma DeletedLinks(list: Timers, k: nat, i: nat)
    requires k < |list| && i < |list|
    ensures i < k ==> Deleted(list, k)[i] == list[i]
    ensures i >= k && i + 1 < |list| ==> Deleted(list, k)[i] == list[i + 1]
    ensures At(Deleted(list, k), i) == At(list, if i < k then i else i + 1)
  {
  }

  lemma HeadOut(list: Timers, k: nat)
    requires k < |list|
    ensures At(Deleted(list, k), k) == At(list, k + 1)
    ensures At(Deleted(list, k), 0) == if k == 0 then At(list, 1) else At(list, 0)
  {
  }

  lemma HeadIn(list: Timers, x: Timer<CTimerSlot>, k: nat)
    requires k <= |list|
    ensures At(Inserted(list, x, k), 0) == if k == 0 then x.id else At(list, 0)
  {
  }

  /** What is still linked there when a timer is taken out. */
  lemma TakenOnward(w: Walk<CTimerSlot>, id: CTimerSlot, i: nat)
    requires Inside(w) && i < |Taken(w, id).stale|
    ensures if i < |w.stale| then Taken(w, id).stale[i] == w.stale[i] && Onward(Taken(w, id), i) == Onward(w, i)
            else w.at < |w.list| && Taken(w, id).stale[i] == w.list[w.at]
                 && Onward(Taken(w, id), i) == At(w.list, w.at + 1)
  {
    var k := Find(w.list, id);
    if k < |w.list| {
      DeletedLinks(w.list, k, if k < w.at then w.at - 1 else if w.at < |w.list| then w.at else 0);
    }
  }

  lemma PathOnward(w: Walk<CTimerSlot>, i: nat)
    requires Inside(w) && i < |Path(w)|
    ensures if i < |w.stale| then Path(w)[i] == w.stale[i] && At(Path(w), i + 1) == Onward(w, i)
            else Path(w)[i] == w.list[w.at + i - |w.stale|]
                 && At(Path(w), i + 1) == At(w.list, w.at + i - |w.stale| + 1)
  {
  }

  /** A walk in Notify: its path and the place on it, what has fired, and what the whole walk ends with. */
  datatype Progress = Progress(path: Timers, k: nat, firing: bool, fired: seq<CTimerSlot>,
                               all: (Timers, seq<CTimerSlot>), counting: bool)

  ghost predicate FiresFrom(w: Walk<CTimerSlot>, all: (Timers, seq<CTimerSlot>), fired: seq<CTimerSlot>,
                            script: seq<seq<Act<CTimerSlot>>>, time: nat)
    requires Inside(w)
  {
    all == Ahead(w, fired, script, time)
  }

  /** What the walk ends with when these have fired. */
  function Ahead(w: Walk<CTimerSlot>, fired: seq<CTimerSlot>, script: seq<seq<Act<CTimerSlot>>>, time: nat)
    : (Timers, seq<CTimerSlot>)
    requires Inside(w)
  {
    var more := Dispatch(w.list, Path(w), script, time);
    (more.0, fired + more.1)
  }

  lemma FiresOne(w: Walk<CTimerSlot>, all: (Timers, seq<CTimerSlot>), fired: seq<CTimerSlot>,
                 script: seq<seq<Act<CTimerSlot>>>, time: nat, next: Walk<CTimerSlot>)
    requires Inside(w) && Path(w) != [] && Path(w)[0].target <= time && FiresFrom(w, all, fired, script, time)
    requires next == DoAll(Start(Path(w)[1..]), Head(script), time)
    ensures FiresFrom(next, all, fired + [Path(w)[0].id], Tail(script), time)
  {
    var more, first := Dispatch(next.list, Path(next), Tail(script), time), Path(w)[0].id;
    FiresNext(w.list, Path(w), script, time, next);
    assert fired + ([first] + more.1) == fired + [first] + more.1;
  }

  lemma FiresNoMore(w: Walk<CTimerSlot>, all: (Timers, seq<CTimerSlot>), fired: seq<CTimerSlot>,
                    script: seq<seq<Act<CTimerSlot>>>, time: nat)
    requires Inside(w) && FiresFrom(w, all, fired, script, time)
    requires Path(w) == [] || Path(w)[0].target > time
    ensures all == (w.list, fired)
  {
    assert fired + [] == fired;
  }

  class CTimerList {
    var list: CTimerSlot?
    var count: Unsigned
    ghost var timers: Timers
    /** Where a walk goes on, if there is one: over these and then at that place. */
    ghost var stale: Timers
    ghost var at: nat
    ghost const pool: set<CTimerSlot>

    ghost function Walking(): Walk<CTimerSlot>
      reads this
    {
      Walk(timers, stale, at)
    }

    ghost predicate Valid()
      reads this, pool
    {
      Threaded() && Keeps(stale)
    }

    ghost predicate Threaded()
      reads this, pool
    {
      && Inside(Walking()) && Apart(Walking())
      && list == At(timers, 0)
      && Keeps(timers) && (forall i :: 0 <= i < |stale| ==> stale[i].id in pool)
      && Chained(timers) && Trailing(Walking())
    }

    ghost predicate Chained(some: Timers)
      requires Keeps(some)
      reads pool
    {
      forall i {:trigger some[i].id.link} :: 0 <= i < |some| ==> some[i].id.link == At(some, i + 1)
    }

    ghost predicate Trailing(w: Walk<CTimerSlot>)
      requires forall i :: 0 <= i < |w.stale| ==> w.stale[i].id in pool
      reads pool
    {
      forall i {:trigger w.stale[i].id.link} :: 0 <= i < |w.stale| ==> w.stale[i].id.link == Onward(w, i)
    }

    ghost function Links(): map<CTimerSlot, CTimerSlot?>
      reads pool`link
    {
      map p | p in pool :: p.link
    }

    /** Links as they were, but for those of two timers. */
    ghost predicate Relinked(was: map<CTimerSlot, CTimerSlot?>, timer: CTimerSlot, x: CTimerSlot?, other: CTimerSlot?)
      reads pool, timer, other
    {
      && timer.link == x && (other != null ==> other.link == timer)
      && forall p :: p in pool && p != timer && p != other ==> p in was && p.link == was[p]
    }

    /** The list and the walk, as links. */
    ghost predicate Mapped(w: Walk<CTimerSlot>, was: map<CTimerSlot, CTimerSlot?>)
      requires Inside(w)
    {
      && (forall i :: 0 <= i < |w.list| ==> w.list[i].id in was && was[w.list[i].id] == At(w.list, i + 1))
      && (forall i :: 0 <= i < |w.stale| ==> w.stale[i].id in was && was[w.stale[i].id] == Onward(w, i))
    }

    lemma LinksAre()
      requires Threaded()
      ensures Mapped(Walking(), Links())
    {
    }

    lemma ChainedIn(list: Timers, was: map<CTimerSlot, CTimerSlot?>, w: Walk<CTimerSlot>, timer: CTimerSlot, k: nat)
      requires Inside(w) && list == w.list && Mapped(w, was)
      requires k <= |list| && timer in pool && Distinct(list) && Lacks(list, timer) && Keeps(list)
      requires Relinked(was, timer, At(list, k), Before(list, k))
      ensures var now := Inserted(list, Timer(timer, timer.target), k); Keeps(now) && Chained(now)
    {
      var now := Inserted(list, Timer(timer, timer.target), k);
      forall i | 0 <= i < |now|
        ensures now[i].id in pool && now[i].id.target == now[i].target && now[i].id.link == At(now, i + 1)
      {
        InsertedLinks(list, Timer(timer, timer.target), k, i);
      }
    }

    lemma TrailingIn(w: Walk<CTimerSlot>, was: map<CTimerSlot, CTimerSlot?>, x: Timer<CTimerSlot>, other: CTimerSlot?)
      requires Inside(w) && forall i :: 0 <= i < |w.stale| ==> w.stale[i].id in pool && w.stale[i].id != other
      requires Mapped(w, was)
      requires Relinked(was, x.id, x.id.link, other) && Keeps(w.stale[..Find(w.stale, x.id)])
      ensures Keeps(Added(w, x).stale) && Trailing(Added(w, x))
    {
      var now := Added(w, x);
      assert now.stale == w.stale[..Find(w.stale, x.id)];
      forall i | 0 <= i < |now.stale|
        ensures now.stale[i].id.link == Onward(now, i)
      {
        AddedOnward(w, x, i);
      }
    }

    ghost predicate Holds(w: Walk<CTimerSlot>)
      requires Inside(w)
      reads pool
    {
      Apart(w) && Keeps(w.list) && Keeps(w.stale) && Chained(w.list) && Trailing(w)
    }

    lemma HoldsIn(w: Walk<CTimerSlot>, was: map<CTimerSlot, CTimerSlot?>, timer: CTimerSlot, k: nat)
      requires Inside(w) && Apart(w) && Mapped(w, was) && Lacks(w.list, timer) && timer in pool
      requires Keeps(w.list) && Keeps(w.stale[..Find(w.stale, timer)])
      requires forall i :: 0 <= i < |w.stale| ==> w.stale[i].id in pool
      requires k == Place(w.list, timer.target) && Relinked(was, timer, At(w.list, k), Before(w.list, k))
      ensures Holds(Added(w, Timer(timer, timer.target)))
    {
      ChainedIn(w.list, was, w, timer, k);
      TrailingIn(w, was, Timer(timer, timer.target), Before(w.list, k));
      AddedApart(w, Timer(timer, timer.target));
    }

    lemma HoldsOut(w: Walk<CTimerSlot>, was: map<CTimerSlot, CTimerSlot?>, k: nat)
      requires Inside(w) && k < |w.list| && Mapped(w, was) && Apart(w) && Keeps(w.list) && Keeps(w.stale)
      requires k == Find(w.list, w.list[k].id) && Cut(was, Before(w.list, k), At(w.list, k + 1))
      ensures Holds(Taken(w, w.list[k].id))
    {
      ChainedOut(w, was, k);
      TrailingOut(w, was, k);
      TakenApart(w, w.list[k].id);
    }

    lemma LinkedOut(w: Walk<CTimerSlot>, was: map<CTimerSlot, CTimerSlot?>, k: nat, i: nat)
      requires Inside(w) && k < |w.list| && i < |w.list| - 1 && Mapped(w, was) && Distinct(w.list) && Keeps(w.list)
      requires Cut(was, Before(w.list, k), At(w.list, k + 1))
      ensures var now := Deleted(w.list, k);
              now[i] in w.list && now[i].id in pool && now[i].id.link == At(now, i + 1)
    {
      var now := Deleted(w.list, k);
      DeletedLinks(w.list, k, i);
      DeletedLinks(w.list, k, i + 1);
      var j := if i < k then i else i + 1;
      var x := w.list[j].id;
      assert now[i].id == x && was[x] == At(w.list, j + 1);
      assert x == Before(w.list, k) <==> j + 1 == k;
    }

    lemma ChainedOut(w: Walk<CTimerSlot>, was: map<CTimerSlot, CTimerSlot?>, k: nat)
      requires Inside(w) && k < |w.list| && Mapped(w, was) && Distinct(w.list) && Keeps(w.list)
      requires Cut(was, Before(w.list, k), At(w.list, k + 1))
      ensures Keeps(Deleted(w.list, k)) && Chained(Deleted(w.list, k))
    {
      var now := Deleted(w.list, k);
      forall i | 0 <= i < |now|
        ensures now[i].id in pool && now[i].id.target == now[i].target && now[i].id.link == At(now, i + 1)
      {
        LinkedOut(w, was, k, i);
      }
    }

    lemma TrailingOut(w: Walk<CTimerSlot>, was: map<CTimerSlot, CTimerSlot?>, k: nat)
      requires Inside(w) && k < |w.list| && Mapped(w, was) && Apart(w) && Keeps(w.list) && Keeps(w.stale)
      requires Cut(was, Before(w.list, k), At(w.list, k + 1))
      ensures Keeps(Taken(w, w.list[k].id).stale) && Trailing(Taken(w, w.list[k].id))
    {
      var now := Taken(w, w.list[k].id);
      forall i | 0 <= i < |now.stale|
        ensures now.stale[i].id in pool && now.stale[i].id.target == now.stale[i].target
        ensures now.stale[i].id.link == Onward(now, i)
      {
        TakenOnward(w, w.list[k].id, i);
      }
    }

    /** Links as they were, but for that of one timer. */
    ghost predicate Cut(was: map<CTimerSlot, CTimerSlot?>, other: CTimerSlot?, y: CTimerSlot?)
      reads pool, other
    {
      (other != null ==> other.link == y) && forall p :: p in pool && p != other ==> p in was && p.link == was[p]
    }

    lemma PathChained()
      requires Valid()
      ensures Keeps(Path(Walking())) && Chained(Path(Walking()))
    {
      var w := Walking();
      forall i | 0 <= i < |Path(w)|
        ensures Path(w)[i].id in pool && Path(w)[i].id.target == Path(w)[i].target
        ensures Path(w)[i].id.link == At(Path(w), i + 1)
      {
        PathOnward(w, i);
      }
    }

    lemma RestHolds(path: Timers, w: Walk<CTimerSlot>)
      requires Inside(w) && Apart(w) && path == Path(w)
      requires path != [] && Keeps(path) && Chained(path)
      ensures Holds(Start(path[1..]))
    {
      RestChained(path);
      PathDistinct(w, path);
      DistinctFrom(path, 1, path[1..]);
    }

    lemma RestChained(path: Timers)
      requires path != [] && Keeps(path) && Chained(path)
      ensures Keeps(path[1..]) && Chained(path[1..])
    {
      var rest := path[1..];
      forall i | 0 <= i < |rest|
        ensures rest[i].id in pool && rest[i].id.target == rest[i].target && rest[i].id.link == At(rest, i + 1)
      {
        assert rest[i] == path[i + 1];
      }
    }

    ghost predicate Keeps(some: Timers)
      reads pool`target
    {
      forall i :: 0 <= i < |some| ==> some[i].id in pool && some[i].id.target == some[i].target
    }

    ghost predicate Counted()
      reads this
    {
      count == |timers| % UNSIGNED
    }

    /** A list for the timers that there are. */
    constructor (ghost all: set<CTimerSlot>)
      ensures Valid() && Counted() && pool == all && timers == []
    {
      list, count, timers, stale, at, pool := null, 0, [], [], 0, all;
    }

    /** The links are those of this walk now. */
    ghost method Become(w: Walk<CTimerSlot>)
      requires Inside(w) && Holds(w) && list == At(w.list, 0)
      modifies this`timers, this`stale, this`at
      ensures Valid() && Walking() == w
    {
      timers, stale, at := w.list, w.stale, w.at;
    }

    method Add(timer: CTimerSlot, time: nat)
      requires Valid() && timer in pool && Lacks(timers, timer)
      modifies this, pool
      ensures Valid() && (old(Counted()) ==> Counted())
      ensures Walking() == Added(old(Walking()), Timer(timer, time))
      ensures timers == Insert(old(timers), Timer(timer, time))
    {
      var tmp1, tmp2: CTimerSlot? := list, null;
      timer.target := time;
      ghost var k := 0;
      while tmp1 != null && tmp1.target < time
        invariant k <= |timers| && tmp1 == At(timers, k) && tmp2 == Before(timers, k)
        invariant forall i :: 0 <= i < k ==> timers[i].target < time
        decreases |timers| - k
      {
        tmp2 := tmp1;
        tmp1 := tmp1.link;
        k := k + 1;
      }
      ghost var was := Walking();
      assert k == Place(timers, time);
      LinkIn(timer, tmp1, tmp2, k);
      AddedList(was, Timer(timer, time));
      CountsUp(|was.list|);
    }

    /** Links a timer in before tmp1 and behind tmp2. */
    method LinkIn(timer: CTimerSlot, tmp1: CTimerSlot?, tmp2: CTimerSlot?, ghost k: nat)
      requires Threaded() && timer in pool && Lacks(timers, timer) && Keeps(stale[..Find(stale, timer)])
      requires k == Place(timers, timer.target) && tmp1 == At(timers, k) && tmp2 == Before(timers, k)
      modifies this, pool`link
      ensures Valid() && count == Up(old(count))
      ensures Walking() == Added(old(Walking()), Timer(timer, timer.target))
    {
      ghost var was, x, links := Walking(), Timer(timer, timer.target), Links();
      LinksAre();
      timer.link := tmp1;
      if tmp2 != null {
        tmp2.link := timer;
      } else {
        list := timer;
      }
      count := Up(count);
      assert Relinked(links, timer, tmp1, tmp2);
      HoldsIn(was, links, timer, k);
      HeadIn(was.list, x, k);
      Become(Added(was, x));
    }

    /** Unlinks a timer, from the list or, when it fires, from where the walk goes on; the list begins behind it
        then. */
    method InternalRemove(s1: CTimerSlot, s2: CTimerSlot?, ghost firing: bool) returns (next: CTimerSlot?)
      requires Valid()
      requires firing ==> s2 == null && s1 == At(Path(Walking()), 0)
      requires !firing ==> s1 == At(timers, Find(timers, s1)) && s2 == Before(timers, Find(timers, s1))
      modifies this, pool`link
      ensures Valid() && count == Down(old(count))
      ensures firing ==> Walking() == Start(old(Path(Walking()))[1..]) && next == At(timers, 0)
      ensures !firing ==> Walking() == Taken(old(Walking()), s1) && next == At(timers, old(Find(timers, s1)))
    {
      ghost var was, links, path, k := Walking(), Links(), Path(Walking()), Find(timers, s1);
      if firing {
        PathChained();
      } else {
        LinksAre();
      }
      next := s1.link;
      if s2 != null {
        s2.link := s1.link;
      } else {
        list := s1.link;
      }
      count := Down(count);
      if firing {
        RestHolds(path, was);
      } else {
        HoldsOut(was, links, k);
        HeadOut(was.list, k);
      }
      Become(if firing then Start(path[1..]) else Taken(was, s1));
    }

    method Remove(timer: CTimerSlot) returns (found: bool)
      requires Valid()
      modifies this, pool`link
      ensures Valid() && (old(Counted()) ==> Counted())
      ensures Walking() == Taken(old(Walking()), timer)
      ensures timers == Without(old(timers), timer)
      ensures found <==> |timers| < |old(timers)|
    {
      var tmp1, tmp2: CTimerSlot? := list, null;
      ghost var k := 0;
      while tmp1 != null && timer != tmp1
        invariant k <= |timers| && tmp1 == At(timers, k) && tmp2 == Before(timers, k)
        invariant forall i :: 0 <= i < k ==> timers[i].id != timer
        decreases |timers| - k
      {
        tmp2 := tmp1;
        tmp1 := tmp1.link;
        k := k + 1;
      }
      TakenList(Walking(), timer);
      assert k == Find(timers, timer);
      found := tmp1 != null;
      if found {
        CountsDown(|timers|);
        var next := InternalRemove(tmp1, tmp2, false);
      }
    }

    /** SecTimer_Call at a time: cancels the timer and adds it anew. */
    method SecTimerCall(timer: CTimerSlot, secs: Interval, time: nat)
      requires Valid() && timer in pool
      modifies this, pool
      ensures Valid() && (old(Counted()) ==> Counted())
      ensures Walking() == Do(old(Walking()), Arm(timer, secs), time)
      ensures timers == Call(old(timers), Arm(timer, secs), time)
    {
      TakenApart(Walking(), timer);
      var found := Remove(timer);
      Add(timer, time + secs);
    }

    /** A callback, which arms and cancels timers. */
    method DoCallBack(acts: seq<Act<CTimerSlot>>, time: nat)
      requires Valid() && Known(acts)
      modifies this, pool
      ensures Valid() && (old(Counted()) ==> Counted())
      ensures Walking() == DoAll(old(Walking()), acts, time)
      ensures timers == Calls(old(timers), acts, time)
      decreases |acts|
    {
      if acts != [] {
        match acts[0] {
          case Arm(timer, secs) => SecTimerCall(timer, secs, time);
          case Cancel(timer) =>
            var found := Remove(timer);
        }
        DoCallBack(acts[1..], time);
      }
    }

    /** The number of timers is right as long as none has fired that was no longer in the list. */
    ghost predicate Counts(script: seq<seq<Act<CTimerSlot>>>, time: nat, p: Progress)
      reads this
    {
      p.counting ==> Counted() && (p.firing && p.path != [] && p.path[0].target <= time ==>
                                   stale == [] && at == 0 && Steady(Due(p.path, time), script))
    }

    /** The walk is at the k-th timer of the path.  As long as that is the first, it may be due. */
    ghost predicate Walks(tmp1: CTimerSlot?, script: seq<seq<Act<CTimerSlot>>>, time: nat, p: Progress)
      requires Inside(Walking())
      reads this
    {
      && p.path == Path(Walking()) && p.k <= |p.path| && tmp1 == At(p.path, p.k)
      && if p.firing then p.k == 0 && Ready(p.path, time) && FiresFrom(Walking(), p.all, p.fired, script, time)
         else p.all == (timers, p.fired) && forall i :: p.k <= i < |p.path| ==> p.path[i].target > time
    }

    lemma Begins(script: seq<seq<Act<CTimerSlot>>>, time: nat) returns (p: Progress)
      requires Valid() && Front(timers, time) && stale == [] && at == 0
      ensures Walks(list, script, time, p) && Counts(script, time, p)
      ensures p.counting <==> Counted() && Steady(Due(timers, time), script)
      ensures p.fired == [] && p.all == Notified(timers, script, time)
    {
      var counting := Counted() && Steady(Due(timers, time), script);
      p := Progress(timers, 0, true, [], Notified(timers, script, time), counting);
      assert [] + p.all.1 == p.all.1;
    }

    lemma Passes(tmp1: CTimerSlot, script: seq<seq<Act<CTimerSlot>>>, time: nat, p: Progress) returns (q: Progress)
      requires Valid() && Walks(tmp1, script, time, p) && tmp1.target > time && Counts(script, time, p)
      ensures Walks(tmp1.link, script, time, q) && Counts(script, time, q) && q.counting == p.counting
      ensures !q.firing && q.path == p.path && q.k == p.k + 1 && q.all == p.all && q.fired == p.fired
    {
      PathChained();
      assert p.path[p.k].id == tmp1;
      if p.firing {
        FiresNoMore(Walking(), p.all, p.fired, script, time);
      }
      q := p.(firing := false, k := p.k + 1);
    }

    lemma Ends(script: seq<seq<Act<CTimerSlot>>>, time: nat, p: Progress)
      requires Valid() && Walks(null, script, time, p)
      ensures p.all == (timers, p.fired)
    {
      if p.firing {
        FiresNoMore(Walking(), p.all, p.fired, script, time);
      }
    }

    /** Only the first timer of the path may be due. */
    lemma DueIsFirst(tmp1: CTimerSlot, script: seq<seq<Act<CTimerSlot>>>, time: nat, p: Progress)
      requires Valid() && Walks(tmp1, script, time, p) && tmp1.target <= time
      ensures p.firing && p.path != [] && p.path[0].id == tmp1 && p.path[0].target <= time
    {
      PathChained();
      assert p.path[p.k].id == tmp1;
    }

    /** Takes a due timer from the list and calls back; the walk goes on with the one that was behind it. */
    method Fire(first: CTimerSlot, before: CTimerSlot?, script: seq<seq<Act<CTimerSlot>>>, time: nat,
                ghost p: Progress)
      returns (next: CTimerSlot?, ghost q: Progress)
      requires Valid() && Walks(first, script, time, p) && first.target <= time && Scripted(script)
      requires (p.firing ==> before == null) && Counts(script, time, p)
      modifies this, pool
      ensures Valid() && Walks(next, Tail(script), time, q)
      ensures Counts(Tail(script), time, q) && q.counting == p.counting
      ensures p.firing && q.all == p.all && q.fired == p.fired + [first]
      ensures |Tail(script)| < |script| || (script == [] && |q.path| - q.k < |p.path| - p.k)
    {
      ghost var was := Walking();
      DueIsFirst(first, script, time, p);
      if p.counting {
        CountsDown(|timers|);
      }
      next := InternalRemove(first, before, true);
      ghost var start := Walking();
      assert p.counting ==> Counted();
      DoCallBack(Head(script), time);
      ghost var w := Walking();
      NextIs(p.path, Head(script), time, start, w);
      FiresOne(was, p.all, p.fired, script, time, w);
      OneLess(p.path, script, time, w);
      if p.counting {
        SteadyNext(p.path, script, time, w);
      }
      q := Progress(Path(w), 0, true, p.fired + [first], p.all, p.counting);
    }

    lemma NextIs(path: Timers, acts: seq<Act<CTimerSlot>>, time: nat, start: Walk<CTimerSlot>, w: Walk<CTimerSlot>)
      requires Ready(path, time) && path != [] && start == Start(path[1..]) && w == DoAll(start, acts, time)
      ensures Ready(Path(w), time) && At(start.list, 0) == At(Path(w), 0)
    {
      RestReady(path, time);
      DoAllSound(start, acts, time, w);
      PathReady(w, time, Path(w));
      if start.list == [] {
        EmptyAfter(start, acts, time);
      } else {
        NextAfter(start, acts, time);
      }
    }

    /** One callback less is to come, or one timer is less on the path. */
    lemma OneLess(path: Timers, script: seq<seq<Act<CTimerSlot>>>, time: nat, w: Walk<CTimerSlot>)
      requires path != [] && w == DoAll(Start(path[1..]), Head(script), time)
      ensures |Tail(script)| < |script| || (script == [] && |Path(w)| < |path|)
    {
    }

    /** The n-th callback does what the n-th part of the script says. */
    method Notify(script: seq<seq<Act<CTimerSlot>>>, time: nat) returns (ghost fired: seq<CTimerSlot>)
      requires Valid() && Front(timers, time) && Scripted(script)
      modifies this, pool
      ensures Valid()
      ensures (timers, fired) == Notified(old(timers), script, time)
      ensures old(Counted()) && Steady(Due(old(timers), time), script) ==> Counted()
    {
      var tmp1, tmp2: CTimerSlot?, todo := list, null, script;
      Become(Start(timers));
      ghost var p := Begins(script, time);
      while tmp1 != null
        invariant Valid() && Scripted(todo) && Walks(tmp1, todo, time, p) && Counts(todo, time, p)
        invariant old(Counted()) && Steady(Due(old(timers), time), script) ==> p.counting
        invariant (p.firing ==> tmp2 == null) && p.all == Notified(old(timers), script, time)
        decreases |todo|, |p.path| - p.k
      {
        if tmp1.target <= time {
          ScriptedTail(todo);
          tmp1, p := Fire(tmp1, tmp2, todo, time, p);
          todo := Tail(todo);
        } else {
          p := Passes(tmp1, todo, time, p);
          tmp2 := tmp1;
          tmp1 := tmp2.link;
        }
      }
      Ends(todo, time, p);
      fired := p.fired;
    }

    lemma ScriptedTail(script: seq<seq<Act<CTimerSlot>>>)
      requires Scripted(script)
      ensures Scripted(Tail(script))
    {
    }

    ghost predicate Known(acts: seq<Act<CTimerSlot>>) {
      forall k :: 0 <= k < |acts| ==> acts[k].id in pool
    }

    ghost predicate Scripted(script: seq<seq<Act<CTimerSlot>>>) {
      forall n :: 0 <= n < |script| ==> Known(script[n])
    }
  }
}
