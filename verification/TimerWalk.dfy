/** The list of timers and the walk of CTimerList::Notify over it, as values.  The callbacks arm and cancel timers,
    the one the walk has kept for its next step among them. */
module TimerWalk {

  datatype Timer<T> = Timer(id: T, target: nat)

  /** SecTimer_Call demands a positive interval. */
  type Interval = n: nat | 0 < n witness 1

  /** SecTimer_Call and SecTimer_Cancel. */
  datatype Act<T> = Arm(id: T, secs: Interval) | Cancel(id: T)

  // ---- the list ------------------------------------------------------------------------------

  ghost predicate Sorted<T>(list: seq<Timer<T>>) {
    forall i, j :: 0 <= i < j < |list| ==> list[i].target <= list[j].target
  }

  ghost predicate Distinct<T>(list: seq<Timer<T>>) {
    forall i, j :: 0 <= i < j < |list| ==> list[i].id != list[j].id
  }

  /** Before the first timer that is not earlier. */
  function Insert<T>(list: seq<Timer<T>>, x: Timer<T>): (r: seq<Timer<T>>)
    ensures |r| == |list| + 1
  {
    if list == [] || list[0].target >= x.target then [x] + list else [list[0]] + Insert(list[1..], x)
  }

  function Without<T(==)>(list: seq<Timer<T>>, id: T): seq<Timer<T>> {
    if list == [] then []
    else (if list[0].id == id then [] else [list[0]]) + Without(list[1..], id)
  }

  /** What a callback does at a time: to arm a timer cancels it and adds it anew. */
  function Call<T(==)>(list: seq<Timer<T>>, act: Act<T>, time: nat): seq<Timer<T>> {
    match act
    case Arm(id, secs) => Insert(Without(list, id), Timer(id, time + secs))
    case Cancel(id) => Without(list, id)
  }

  function Calls<T(==)>(list: seq<Timer<T>>, acts: seq<Act<T>>, time: nat): seq<Timer<T>>
    decreases |acts|
  {
    if acts == [] then list else Calls(Call(list, acts[0], time), acts[1..], time)
  }

  /** The timers that are due, in the order of the list. */
  function Due<T>(list: seq<Timer<T>>, time: nat): (r: seq<T>)
    ensures |r| <= |list|
  {
    if list == [] then [] else (if list[0].target <= time then [list[0].id] else []) + Due(list[1..], time)
  }

  predicate Touches<T(==)>(acts: seq<Act<T>>, id: T) {
    exists k :: 0 <= k < |acts| && acts[k].id == id
  }

  predicate Arms<T(==)>(acts: seq<Act<T>>, id: T) {
    exists k :: 0 <= k < |acts| && acts[k].Arm? && acts[k].id == id
  }

  /** What the next callback does, if anything. */
  function Head<T>(script: seq<seq<Act<T>>>): seq<Act<T>> {
    if script == [] then [] else script[0]
  }

  function Tail<T>(script: seq<seq<Act<T>>>): seq<seq<Act<T>>> {
    if script == [] then [] else script[1..]
  }

  function Untouched<T(==)>(ids: seq<T>, acts: seq<Act<T>>): (r: seq<T>)
    ensures |r| <= |ids|
    ensures |r| == |ids| ==> r == ids
  {
    if ids == [] then []
    else (if Touches(acts, ids[0]) then [] else [ids[0]]) + Untouched(ids[1..], acts)
  }

  // ---- what is due after a callback ----------------------------------------------------------

  lemma {:induction false} DueWithout<T>(list: seq<Timer<T>>, act: Act<T>, time: nat)
    ensures Due(Without(list, act.id), time) == Untouched(Due(list, time), [act])
  {
    var acts := [act];
    if list != [] {
      DueWithout(list[1..], act, time);
      assert Touches(acts, list[0].id) <==> list[0].id == act.id by {
        assert acts[0].id == act.id;
      }
      var first, rest := if list[0].id == act.id then [] else [list[0]], Without(list[1..], act.id);
      assert list[0].id != act.id ==> (first + rest)[1..] == rest;
      assert list[0].id == act.id ==> first + rest == rest;
      UntouchedFirst(list, acts, time);
    }
  }

  lemma UntouchedFirst<T>(list: seq<Timer<T>>, acts: seq<Act<T>>, time: nat)
    requires list != []
    ensures Untouched(Due(list, time), acts)
         == (if list[0].target <= time && !Touches(acts, list[0].id) then [list[0].id] else [])
            + Untouched(Due(list[1..], time), acts)
  {
    if list[0].target <= time {
      assert Due(list, time)[1..] == Due(list[1..], time);
    } else {
      assert Due(list, time) == Due(list[1..], time);
    }
  }

  lemma {:induction false} DueInsert<T>(list: seq<Timer<T>>, x: Timer<T>, time: nat)
    requires x.target > time
    ensures Due(Insert(list, x), time) == Due(list, time)
  {
    if list == [] || list[0].target >= x.target {
      assert ([x] + list)[1..] == list;
    } else {
      assert ([list[0]] + Insert(list[1..], x))[1..] == Insert(list[1..], x);
      DueInsert(list[1..], x, time);
    }
  }

  lemma {:induction false} UntouchedTwice<T>(ids: seq<T>, acts: seq<Act<T>>)
    requires acts != []
    ensures Untouched(Untouched(ids, acts[..1]), acts[1..]) == Untouched(ids, acts)
  {
    if ids != [] {
      UntouchedTwice(ids[1..], acts);
      TouchesEither(acts, ids[0]);
      var rest := Untouched(ids[1..], acts[..1]);
      assert ([ids[0]] + rest)[1..] == rest && [] + rest == rest;
    }
  }

  lemma TouchesEither<T>(acts: seq<Act<T>>, id: T)
    requires acts != []
    ensures Touches(acts, id) <==> acts[0].id == id || Touches(acts[1..], id)
    ensures Touches(acts[..1], id) <==> acts[0].id == id
    ensures Arms(acts, id) <==> (acts[0].Arm? && acts[0].id == id) || Arms(acts[1..], id)
  {
    assert acts == [acts[0]] + acts[1..] && acts[..1] == [acts[0]];
    if Touches(acts[1..], id) {
      var k :| 0 <= k < |acts[1..]| && acts[1..][k].id == id;
      assert acts[k + 1].id == id;
    }
    if Arms(acts[1..], id) {
      var k :| 0 <= k < |acts[1..]| && acts[1..][k].Arm? && acts[1..][k].id == id;
      assert acts[k + 1].Arm? && acts[k + 1].id == id;
    }
    if Touches(acts, id) && acts[0].id != id {
      var k :| 0 <= k < |acts| && acts[k].id == id;
      assert acts[1..][k - 1].id == id;
    }
    if Arms(acts, id) && !(acts[0].Arm? && acts[0].id == id) {
      var k :| 0 <= k < |acts| && acts[k].Arm? && acts[k].id == id;
      assert acts[1..][k - 1].Arm? && acts[1..][k - 1].id == id;
    }
    if acts[0].id == id {
      assert acts[..1][0].id == id;
    }
  }

  /** A callback leaves due exactly what it neither arms nor cancels. */
  lemma {:induction false} DueCalls<T>(list: seq<Timer<T>>, acts: seq<Act<T>>, time: nat)
    ensures Due(Calls(list, acts, time), time) == Untouched(Due(list, time), acts)
    decreases |acts|
  {
    if acts == [] {
      UntouchedAll(Due(list, time), acts);
    } else {
      var act := acts[0];
      DueWithout(list, act, time);
      assert acts[..1] == [act];
      if act.Arm? {
        DueInsert(Without(list, act.id), Timer(act.id, time + act.secs), time);
      }
      DueCalls(Call(list, act, time), acts[1..], time);
      UntouchedTwice(Due(list, time), acts);
    }
  }

  lemma {:induction false} UntouchedAll<T>(ids: seq<T>, acts: seq<Act<T>>)
    ensures Untouched(ids, acts) == ids <==> forall id :: id in ids ==> !Touches(acts, id)
  {
    if ids != [] {
      UntouchedAll(ids[1..], acts);
      assert ids == [ids[0]] + ids[1..];
      assert forall id :: id in ids <==> id == ids[0] || id in ids[1..];
      assert Touches(acts, ids[0]) ==> |Untouched(ids, acts)| < |ids|;
      assert Untouched(ids, acts) == ids ==> Untouched(ids, acts)[1..] == Untouched(ids[1..], acts);
    }
  }

  lemma {:induction false} UntouchedIsNot<T>(ids: seq<T>, acts: seq<Act<T>>, id: T)
    requires id in Untouched(ids, acts)
    ensures !Touches(acts, id)
  {
    if Touches(acts, ids[0]) || id != ids[0] {
      UntouchedIsNot(ids[1..], acts, id);
    }
  }

  // ---- order ---------------------------------------------------------------------------------

  lemma FirstIsLeast<T>(list: seq<Timer<T>>)
    requires Sorted(list) && list != []
    ensures forall y :: y in list[1..] ==> list[0].target <= y.target
  {
    forall y | y in list[1..]
      ensures list[0].target <= y.target
    {
      var j :| 0 <= j < |list| - 1 && list[1..][j] == y;
      assert list[j + 1] == y;
    }
  }

  lemma PrependSorted<T>(x: Timer<T>, rest: seq<Timer<T>>)
    requires Sorted(rest) && forall y :: y in rest ==> x.target <= y.target
    ensures Sorted([x] + rest)
  {
    var list := [x] + rest;
    forall i, j | 0 <= i < j < |list|
      ensures list[i].target <= list[j].target
    {
      assert list[j] == rest[j - 1] && rest[j - 1] in rest;
    }
  }

  lemma {:induction false} InInsert<T>(list: seq<Timer<T>>, x: Timer<T>, y: Timer<T>)
    ensures y in Insert(list, x) <==> y == x || y in list
  {
    if list != [] {
      InInsert(list[1..], x, y);
      assert list == [list[0]] + list[1..];
    }
  }

  lemma {:induction false} InWithout<T>(list: seq<Timer<T>>, id: T, y: Timer<T>)
    ensures y in Without(list, id) <==> y in list && y.id != id
  {
    if list != [] {
      InWithout(list[1..], id, y);
      assert list == [list[0]] + list[1..];
    }
  }

  lemma {:induction false} InsertSorted<T>(list: seq<Timer<T>>, x: Timer<T>)
    requires Sorted(list)
    ensures Sorted(Insert(list, x))
  {
    if list == [] || list[0].target >= x.target {
      forall y | y in list
        ensures x.target <= y.target
      {
        if list != [] && y != list[0] {
          FirstIsLeast(list);
          assert list == [list[0]] + list[1..];
        }
      }
      PrependSorted(x, list);
    } else {
      InsertSorted(list[1..], x);
      FirstIsLeast(list);
      var rest := Insert(list[1..], x);
      forall y | y in rest
        ensures list[0].target <= y.target
      {
        InInsert(list[1..], x, y);
      }
      PrependSorted(list[0], rest);
    }
  }

  lemma {:induction false} WithoutSorted<T>(list: seq<Timer<T>>, id: T)
    requires Sorted(list)
    ensures Sorted(Without(list, id))
  {
    if list != [] {
      WithoutSorted(list[1..], id);
      FirstIsLeast(list);
      var rest := Without(list[1..], id);
      forall y | y in rest
        ensures list[0].target <= y.target
      {
        InWithout(list[1..], id, y);
      }
      PrependSorted(list[0], rest);
      assert [] + rest == rest;
    }
  }

  lemma {:induction false} CallsSorted<T>(list: seq<Timer<T>>, acts: seq<Act<T>>, time: nat)
    requires Sorted(list)
    ensures Sorted(Calls(list, acts, time))
    decreases |acts|
  {
    if acts != [] {
      WithoutSorted(list, acts[0].id);
      if acts[0].Arm? {
        InsertSorted(Without(list, acts[0].id), Timer(acts[0].id, time + acts[0].secs));
      }
      CallsSorted(Call(list, acts[0], time), acts[1..], time);
    }
  }

  lemma {:induction false} CallsKeep<T>(list: seq<Timer<T>>, acts: seq<Act<T>>, time: nat, x: Timer<T>)
    requires !Touches(acts, x.id)
    ensures x in Calls(list, acts, time) <==> x in list
    decreases |acts|
  {
    if acts != [] {
      TouchesEither(acts, x.id);
      InWithout(list, acts[0].id, x);
      if acts[0].Arm? {
        InInsert(Without(list, acts[0].id), Timer(acts[0].id, time + acts[0].secs), x);
      }
      CallsKeep(Call(list, acts[0], time), acts[1..], time, x);
    }
  }

  lemma {:induction false} InsertAt<T>(list: seq<Timer<T>>, x: Timer<T>, k: nat)
    requires k <= |list|
    requires forall i :: 0 <= i < k ==> list[i].target < x.target
    requires k < |list| ==> list[k].target >= x.target
    ensures Insert(list, x) == list[..k] + [x] + list[k..]
  {
    if k > 0 {
      InsertAt(list[1..], x, k - 1);
      assert list[..k] == [list[0]] + list[1..][..k - 1];
    }
  }

  /** Removing the only entry of a timer. */
  lemma {:induction false} WithoutAt<T>(list: seq<Timer<T>>, id: T, k: nat)
    requires k <= |list|
    requires forall i :: 0 <= i < |list| && i != k ==> list[i].id != id
    requires k < |list| ==> list[k].id == id
    ensures Without(list, id) == if k < |list| then list[..k] + list[k + 1..] else list
  {
    if k == |list| {
      WithoutNone(list, id);
    } else if k == 0 {
      WithoutNone(list[1..], id);
      assert Without(list, id) == Without(list[1..], id);
    } else {
      WithoutAt(list[1..], id, k - 1);
      assert list[..k] == [list[0]] + list[1..][..k - 1];
    }
  }

  lemma {:induction false} WithoutNone<T>(list: seq<Timer<T>>, id: T)
    requires forall i :: 0 <= i < |list| ==> list[i].id != id
    ensures Without(list, id) == list
  {
    if list != [] {
      WithoutNone(list[1..], id);
      assert list == [list[0]] + list[1..];
    }
  }

  // ---- the walk ------------------------------------------------------------------------------

  /** The list, and the place where a walk over its links goes on: at timers that have been taken out since, each
      linked to the one that was behind it when it was, and from the last of them at a place in the list. */
  datatype Walk<T> = Walk(list: seq<Timer<T>>, stale: seq<Timer<T>>, at: nat)

  predicate Inside<T>(w: Walk<T>) {
    w.at <= |w.list|
  }

  /** What the links lead to from there. */
  function Path<T>(w: Walk<T>): seq<Timer<T>>
    requires Inside(w)
  {
    w.stale + w.list[w.at..]
  }

  function Start<T>(list: seq<Timer<T>>): (w: Walk<T>)
    ensures Inside(w) && Path(w) == list
  {
    Walk(list, [], 0)
  }

  function Place<T>(list: seq<Timer<T>>, target: nat): (k: nat)
    ensures k <= |list|
    ensures forall i :: 0 <= i < k ==> list[i].target < target
    ensures k < |list| ==> list[k].target >= target
  {
    if list == [] || list[0].target >= target then 0 else 1 + Place(list[1..], target)
  }

  function Find<T(==)>(list: seq<Timer<T>>, id: T): (k: nat)
    ensures k <= |list|
    ensures forall i :: 0 <= i < k ==> list[i].id != id
    ensures k < |list| ==> list[k].id == id
  {
    if list == [] || list[0].id == id then 0 else 1 + Find(list[1..], id)
  }

  function Deleted<T>(list: seq<Timer<T>>, k: nat): seq<Timer<T>>
    requires k < |list|
  {
    list[..k] + list[k + 1..]
  }

  function Inserted<T>(list: seq<Timer<T>>, x: Timer<T>, k: nat): seq<Timer<T>>
    requires k <= |list|
  {
    list[..k] + [x] + list[k..]
  }

  /** Remove: the timer that the walk has kept stays on its path. */
  function Taken<T(==)>(w: Walk<T>, id: T): (r: Walk<T>)
    requires Inside(w)
    ensures Inside(r)
  {
    var k := Find(w.list, id);
    if k == |w.list| then w
    else if k < w.at then Walk(Deleted(w.list, k), w.stale, w.at - 1)
    else Walk(Deleted(w.list, k), if k == w.at then w.stale + [w.list[k]] else w.stale, w.at)
  }

  /** Add: a timer taken out before leads into the list again, at its new place. */
  function Added<T(==)>(w: Walk<T>, x: Timer<T>): (r: Walk<T>)
    requires Inside(w)
    ensures Inside(r)
  {
    var k, i := Place(w.list, x.target), Find(w.stale, x.id);
    var list := Inserted(w.list, x, k);
    if i < |w.stale| then Walk(list, w.stale[..i], k)
    else Walk(list, w.stale, if k <= w.at then w.at + 1 else w.at)
  }

  function Do<T(==)>(w: Walk<T>, act: Act<T>, time: nat): (r: Walk<T>)
    requires Inside(w)
    ensures Inside(r)
  {
    match act
    case Arm(id, secs) => Added(Taken(w, id), Timer(id, time + secs))
    case Cancel(id) => Taken(w, id)
  }

  function DoAll<T(==)>(w: Walk<T>, acts: seq<Act<T>>, time: nat): (r: Walk<T>)
    requires Inside(w)
    ensures Inside(r)
    decreases |acts|
  {
    if acts == [] then w else DoAll(Do(w, acts[0], time), acts[1..], time)
  }

  /** What Notify does from a place on: a due timer is taken out and all before it is cut off, then it calls back,
      and the walk goes on with the timer kept before that. */
  function Dispatch<T(==)>(list: seq<Timer<T>>, path: seq<Timer<T>>, script: seq<seq<Act<T>>>, time: nat)
    : (seq<Timer<T>>, seq<T>)
    decreases |script|, |path|
  {
    if path == [] || path[0].target > time then (list, [])
    else
      var w := DoAll(Start(path[1..]), Head(script), time);
      var (end, fired) := Dispatch(w.list, Path(w), Tail(script), time);
      (end, [path[0].id] + fired)
  }

  function Notified<T(==)>(list: seq<Timer<T>>, script: seq<seq<Act<T>>>, time: nat): (seq<Timer<T>>, seq<T>) {
    Dispatch(list, list, script, time)
  }

  // ---- what callbacks do to a walk -----------------------------------------------------------

  ghost predicate Apart<T>(w: Walk<T>) {
    && Distinct(w.stale) && Distinct(w.list)
    && forall i, j :: 0 <= i < |w.stale| && 0 <= j < |w.list| ==> w.stale[i].id != w.list[j].id
  }

  ghost predicate Lacks<T>(list: seq<Timer<T>>, id: T) {
    forall i :: 0 <= i < |list| ==> list[i].id != id
  }

  /** Nothing is due behind a timer that is not. */
  ghost predicate Front<T>(list: seq<Timer<T>>, time: nat) {
    forall i, j :: 0 <= i < j < |list| && list[j].target <= time ==> list[i].target <= time
  }

  ghost predicate Fronts<T>(w: Walk<T>, time: nat)
    requires Inside(w)
  {
    Front(w.list, time) && Front(Path(w), time)
  }

  ghost predicate Sound<T>(w: Walk<T>, time: nat) {
    Inside(w) && Apart(w) && Fronts(w, time)
  }

  lemma SortedFront<T>(list: seq<Timer<T>>, time: nat)
    requires Sorted(list)
    ensures Front(list, time)
  {
  }

  lemma {:induction false} FrontDue<T>(list: seq<Timer<T>>, time: nat)
    requires Front(list, time) && (list == [] || list[0].target > time)
    ensures Due(list, time) == []
    decreases |list|
  {
    if |list| > 1 {
      assert list[1].target > time;
      FrontDue(list[1..], time);
    }
  }

  lemma FrontDeleted<T>(list: seq<Timer<T>>, k: nat, time: nat)
    requires Front(list, time) && k < |list|
    ensures Front(Deleted(list, k), time)
  {
  }

  lemma FrontInserted<T>(list: seq<Timer<T>>, x: Timer<T>, k: nat, time: nat)
    requires Front(list, time) && k <= |list| && x.target > time && (k < |list| ==> list[k].target > time)
    ensures Front(Inserted(list, x, k), time)
  {
  }

  lemma DistinctFrom<T>(list: seq<Timer<T>>, k: nat, rest: seq<Timer<T>>)
    requires Distinct(list) && k <= |list| && rest == list[k..]
    ensures Distinct(rest)
  {
  }

  lemma FrontFrom<T>(list: seq<Timer<T>>, k: nat, rest: seq<Timer<T>>, time: nat)
    requires Front(list, time) && k <= |list| && rest == list[k..]
    ensures Front(rest, time)
  {
  }

  lemma DeletedPath<T>(stale: seq<Timer<T>>, list: seq<Timer<T>>, k: nat, at: nat)
    requires k < |list| && at <= |list|
    ensures k < at ==> Deleted(list, k)[at - 1..] == list[at..]
    ensures k == at ==> stale + [list[k]] + Deleted(list, k)[at..] == stale + list[at..]
    ensures at < k ==> stale + Deleted(list, k)[at..] == Deleted(stale + list[at..], |stale| + k - at)
  {
    if k == at {
      assert list[at..] == [list[k]] + Deleted(list, k)[at..];
    } else if at < k {
      var path := stale + list[at..];
      assert Deleted(list, k)[at..] == list[at..k] + list[k + 1..];
      assert path[..|stale| + k - at] == stale + list[at..k];
      assert path[|stale| + k - at + 1..] == list[k + 1..];
    }
  }

  lemma TakenPath<T>(w: Walk<T>, id: T)
    requires Inside(w)
    ensures var k := Find(w.list, id);
            Path(Taken(w, id)) == if w.at < k < |w.list| then Deleted(Path(w), |w.stale| + k - w.at) else Path(w)
  {
    var k := Find(w.list, id);
    if k < |w.list| {
      DeletedPath(w.stale, w.list, k, w.at);
    }
  }

  lemma InsertedPath<T>(stale: seq<Timer<T>>, list: seq<Timer<T>>, x: Timer<T>, k: nat, at: nat)
    requires k <= |list| && at <= |list|
    ensures Inserted(list, x, k)[k..] == [x] + list[k..]
    ensures k <= at ==> Inserted(list, x, k)[at + 1..] == list[at..]
    ensures at < k ==> Inserted(list, x, k)[at..] == Inserted(list[at..], x, k - at)
    ensures at < k ==> stale + Inserted(list[at..], x, k - at) == Inserted(stale + list[at..], x, |stale| + k - at)
  {
    if k <= at {
      assert Inserted(list, x, k)[at + 1..] == list[k..][at - k..];
    } else {
      InsertedTail(list, x, k, at);
      InsertedBehind(stale, list[at..], x, k - at);
    }
  }

  lemma InsertedTail<T>(list: seq<Timer<T>>, x: Timer<T>, k: nat, at: nat)
    requires at < k <= |list|
    ensures Inserted(list, x, k)[at..] == Inserted(list[at..], x, k - at)
  {
    assert list[..k][at..] == list[at..][..k - at];
    assert list[k..] == list[at..][k - at..];
  }

  lemma InsertedBehind<T>(stale: seq<Timer<T>>, list: seq<Timer<T>>, x: Timer<T>, k: nat)
    requires k <= |list|
    ensures stale + Inserted(list, x, k) == Inserted(stale + list, x, |stale| + k)
  {
    assert (stale + list)[..|stale| + k] == stale + list[..k];
    assert (stale + list)[|stale| + k..] == list[k..];
  }

  lemma AddedPath<T>(w: Walk<T>, x: Timer<T>)
    requires Inside(w)
    ensures var k, i := Place(w.list, x.target), Find(w.stale, x.id);
            Path(Added(w, x)) == if i < |w.stale| then w.stale[..i] + ([x] + w.list[k..])
                                 else if k <= w.at then Path(w)
                                 else Inserted(Path(w), x, |w.stale| + k - w.at)
  {
    InsertedPath(w.stale, w.list, x, Place(w.list, x.target), w.at);
  }

  lemma TakenApart<T>(w: Walk<T>, id: T)
    requires Inside(w) && Apart(w)
    ensures Apart(Taken(w, id)) && Lacks(Taken(w, id).list, id)
  {
  }

  lemma AddedApart<T>(w: Walk<T>, x: Timer<T>)
    requires Inside(w) && Apart(w) && Lacks(w.list, x.id)
    ensures Apart(Added(w, x))
  {
  }

  lemma TakenPathFront<T>(w: Walk<T>, id: T, time: nat, path: seq<Timer<T>>)
    requires Inside(w) && Front(Path(w), time) && path == Path(Taken(w, id))
    ensures Front(path, time)
  {
    var k := Find(w.list, id);
    TakenPath(w, id);
    if w.at < k < |w.list| {
      FrontDeleted(Path(w), |w.stale| + k - w.at, time);
      assert path == Deleted(Path(w), |w.stale| + k - w.at);
    } else {
      assert path == Path(w);
    }
  }

  lemma TakenFronts<T>(w: Walk<T>, id: T, time: nat)
    requires Inside(w) && Fronts(w, time)
    ensures Fronts(Taken(w, id), time)
  {
    var k := Find(w.list, id);
    TakenPathFront(w, id, time, Path(Taken(w, id)));
    if k < |w.list| {
      FrontDeleted(w.list, k, time);
    }
  }

  lemma FrontJoin<T>(w: Walk<T>, x: Timer<T>, i: nat, k: nat, time: nat)
    requires Inside(w) && Fronts(w, time) && x.target > time && i <= |w.stale| && k <= |w.list|
    requires k < |w.list| ==> w.list[k].target > time
    ensures Front(w.stale[..i] + ([x] + w.list[k..]), time)
  {
    var path := w.stale[..i] + ([x] + w.list[k..]);
    forall m, n | 0 <= m < n < |path| && path[n].target <= time
      ensures path[m].target <= time
    {
      if n < i {
        assert path[n] == Path(w)[n] && path[m] == Path(w)[m];
      }
    }
  }

  lemma AddedPathFront<T>(w: Walk<T>, x: Timer<T>, time: nat, path: seq<Timer<T>>)
    requires Inside(w) && Fronts(w, time) && x.target > time && path == Path(Added(w, x))
    ensures Front(path, time)
  {
    var k, i := Place(w.list, x.target), Find(w.stale, x.id);
    AddedPath(w, x);
    if i < |w.stale| {
      assert path == w.stale[..i] + ([x] + w.list[k..]);
      FrontJoin(w, x, i, k, time);
    } else if k <= w.at {
      assert path == Path(w);
    } else {
      var n := |w.stale| + k - w.at;
      assert path == Inserted(Path(w), x, n);
      assert k < |w.list| ==> Path(w)[n] == w.list[k];
      FrontInserted(Path(w), x, n, time);
    }
  }

  lemma AddedFronts<T>(w: Walk<T>, x: Timer<T>, time: nat)
    requires Inside(w) && Fronts(w, time) && x.target > time
    ensures Fronts(Added(w, x), time)
  {
    FrontInserted(w.list, x, Place(w.list, x.target), time);
    AddedPathFront(w, x, time, Path(Added(w, x)));
  }

  lemma TakenList<T>(w: Walk<T>, id: T)
    requires Inside(w) && Apart(w)
    ensures Taken(w, id).list == Without(w.list, id)
  {
    WithoutAt(w.list, id, Find(w.list, id));
  }

  lemma TakenSound<T>(w: Walk<T>, id: T, time: nat)
    requires Sound(w, time)
    ensures Sound(Taken(w, id), time) && Lacks(Taken(w, id).list, id)
  {
    TakenApart(w, id);
    TakenFronts(w, id, time);
  }

  lemma AddedList<T>(w: Walk<T>, x: Timer<T>)
    requires Inside(w)
    ensures Added(w, x).list == Insert(w.list, x)
  {
    InsertAt(w.list, x, Place(w.list, x.target));
  }

  lemma AddedSound<T>(w: Walk<T>, x: Timer<T>, time: nat)
    requires Sound(w, time) && x.target > time && Lacks(w.list, x.id)
    ensures Sound(Added(w, x), time) && Added(w, x).list == Insert(w.list, x)
  {
    AddedApart(w, x);
    AddedFronts(w, x, time);
    AddedList(w, x);
  }

  lemma ArmSound<T>(w: Walk<T>, x: Timer<T>, time: nat)
    requires Sound(w, time) && x.target > time
    ensures Sound(Added(Taken(w, x.id), x), time)
    ensures Added(Taken(w, x.id), x).list == Insert(Without(w.list, x.id), x)
  {
    TakenSound(w, x.id, time);
    TakenList(w, x.id);
    AddedSound(Taken(w, x.id), x, time);
  }

  lemma DoList<T>(w: Walk<T>, act: Act<T>, time: nat)
    requires Sound(w, time)
    ensures Do(w, act, time).list == Call(w.list, act, time)
  {
    match act
    case Arm(id, secs) =>
      assert Do(w, act, time) == Added(Taken(w, id), Timer(id, time + secs));
      ArmSound(w, Timer(id, time + secs), time);
    case Cancel(id) =>
      assert Do(w, act, time) == Taken(w, id);
      TakenList(w, id);
  }

  lemma DoSound<T>(w: Walk<T>, act: Act<T>, time: nat, r: Walk<T>)
    requires Sound(w, time) && r == Do(w, act, time)
    ensures Sound(r, time)
  {
    match act
    case Arm(id, secs) =>
      assert r == Added(Taken(w, id), Timer(id, time + secs));
      ArmSound(w, Timer(id, time + secs), time);
    case Cancel(id) =>
      assert r == Taken(w, id);
      TakenSound(w, id, time);
  }

  lemma NextTaken<T>(w: Walk<T>, id: T)
    requires Inside(w) && Apart(w) && Path(w) != []
    ensures Path(Taken(w, id)) != [] && Path(Taken(w, id))[0] == Path(w)[0]
    ensures id == Path(w)[0].id ==> Taken(w, id).stale != []
  {
    TakenPath(w, id);
  }

  lemma NextAdded<T>(w: Walk<T>, x: Timer<T>)
    requires Inside(w) && Path(w) != [] && (x.id == Path(w)[0].id ==> w.stale != [])
    ensures Path(Added(w, x)) != []
    ensures Path(Added(w, x))[0] == if x.id == Path(w)[0].id then x else Path(w)[0]
  {
    AddedPath(w, x);
  }

  /** The walk goes on with the timer that was next before the callback, whatever became of it. */
  lemma NextDo<T>(w: Walk<T>, act: Act<T>, time: nat)
    requires Sound(w, time) && Path(w) != []
    ensures Path(Do(w, act, time)) != [] && Path(Do(w, act, time))[0].id == Path(w)[0].id
    ensures if act.Arm? && act.id == Path(w)[0].id then Path(Do(w, act, time))[0].target > time
            else Path(Do(w, act, time))[0] == Path(w)[0]
  {
    NextTaken(w, act.id);
    match act
    case Arm(id, secs) =>
      assert Do(w, act, time) == Added(Taken(w, id), Timer(id, time + secs));
      NextAdded(Taken(w, id), Timer(id, time + secs));
    case Cancel(id) =>
      assert Do(w, act, time) == Taken(w, id);
  }

  lemma StaysDo<T>(w: Walk<T>, act: Act<T>, time: nat)
    requires w.stale == [] && w.at == 0 && w.list != [] && w.list[0].target <= time && w.list[0].id != act.id
    ensures var r := Do(w, act, time); r.stale == [] && r.at == 0 && r.list != [] && r.list[0] == w.list[0]
  {
    assert Taken(w, act.id).list[0] == w.list[0];
  }

  lemma {:induction false} DoAllSound<T>(w: Walk<T>, acts: seq<Act<T>>, time: nat, r: Walk<T>)
    requires Sound(w, time) && r == DoAll(w, acts, time)
    ensures Sound(r, time)
    decreases |acts|
  {
    if acts != [] {
      var v := Do(w, acts[0], time);
      DoSound(w, acts[0], time, v);
      DoAllSound(v, acts[1..], time, r);
    }
  }

  lemma {:induction false} DoAllList<T>(w: Walk<T>, acts: seq<Act<T>>, time: nat)
    requires Sound(w, time)
    ensures DoAll(w, acts, time).list == Calls(w.list, acts, time)
    decreases |acts|
  {
    if acts != [] {
      var v := Do(w, acts[0], time);
      DoSound(w, acts[0], time, v);
      DoList(w, acts[0], time);
      DoAllList(v, acts[1..], time);
    }
  }

  lemma {:induction false} NextAfter<T>(w: Walk<T>, acts: seq<Act<T>>, time: nat)
    requires Sound(w, time) && Path(w) != []
    ensures Path(DoAll(w, acts, time)) != [] && Path(DoAll(w, acts, time))[0].id == Path(w)[0].id
    ensures if Arms(acts, Path(w)[0].id) then Path(DoAll(w, acts, time))[0].target > time
            else Path(DoAll(w, acts, time))[0] == Path(w)[0]
    decreases |acts|
  {
    if acts != [] {
      TouchesEither(acts, Path(w)[0].id);
      var v := Do(w, acts[0], time);
      DoSound(w, acts[0], time, v);
      NextDo(w, acts[0], time);
      NextAfter(v, acts[1..], time);
    }
  }

  lemma {:induction false} StaysAfter<T>(w: Walk<T>, acts: seq<Act<T>>, time: nat)
    requires w.stale == [] && w.at == 0 && w.list != [] && w.list[0].target <= time && !Touches(acts, w.list[0].id)
    ensures var r := DoAll(w, acts, time); r.stale == [] && r.at == 0 && Path(r) == r.list
    decreases |acts|
  {
    if acts != [] {
      TouchesEither(acts, w.list[0].id);
      StaysDo(w, acts[0], time);
      StaysAfter(Do(w, acts[0], time), acts[1..], time);
    }
  }

  lemma {:induction false} EmptyAfter<T>(w: Walk<T>, acts: seq<Act<T>>, time: nat)
    requires w.stale == [] && w.at == |w.list|
    ensures Path(DoAll(w, acts, time)) == []
    decreases |acts|
  {
    if acts != [] {
      EmptyAfter(Do(w, acts[0], time), acts[1..], time);
    }
  }

  // ---- what a walk fires ---------------------------------------------------------------------

  /** The due timers in their order, without those that an earlier callback arms or cancels. */
  function Meant<T(==)>(due: seq<T>, script: seq<seq<Act<T>>>): (r: seq<T>)
    ensures |r| <= |due|
    decreases |due|
  {
    if due == [] then [] else [due[0]] + Meant(Untouched(due[1..], Head(script)), Tail(script))
  }

  /** No callback cancels the timer that is next, unless it arms it; to arm it ends the walk. */
  predicate Steady<T(==)>(due: seq<T>, script: seq<seq<Act<T>>>)
    decreases |due|
  {
    |due| < 2
    || if Touches(Head(script), due[1]) then Arms(Head(script), due[1])
       else Steady(Untouched(due[1..], Head(script)), Tail(script))
  }

  /** ... and none arms the timer that is next while others are still to fire. */
  predicate Smooth<T(==)>(due: seq<T>, script: seq<seq<Act<T>>>)
    decreases |due|
  {
    |due| < 2
    || if Touches(Head(script), due[1]) then Arms(Head(script), due[1]) && Untouched(due[1..], Head(script)) == []
       else Smooth(Untouched(due[1..], Head(script)), Tail(script))
  }

  /** No callback touches a timer that is still to fire. */
  ghost predicate Calm<T>(due: seq<T>, script: seq<seq<Act<T>>>) {
    due == [] || ((forall id :: id in due[1..] ==> !Touches(Head(script), id)) && Calm(due[1..], Tail(script)))
  }

  ghost predicate Ready<T>(list: seq<Timer<T>>, time: nat) {
    Distinct(list) && Front(list, time)
  }

  lemma RestReady<T>(list: seq<Timer<T>>, time: nat)
    requires Ready(list, time) && list != []
    ensures Ready(list[1..], time) && Sound(Start(list[1..]), time)
  {
    DistinctFrom(list, 1, list[1..]);
    FrontFrom(list, 1, list[1..], time);
    assert Path(Start(list[1..])) == list[1..];
  }

  /** What is left of the walk behind the first callback. */
  function More<T(==)>(list: seq<Timer<T>>, script: seq<seq<Act<T>>>, time: nat): (seq<Timer<T>>, seq<T>)
    requires list != []
  {
    var w := DoAll(Start(list[1..]), Head(script), time);
    Dispatch(w.list, Path(w), Tail(script), time)
  }

  /** The list behind the first callback. */
  function After<T(==)>(list: seq<Timer<T>>, script: seq<seq<Act<T>>>, time: nat): seq<Timer<T>>
    requires list != []
  {
    Calls(list[1..], Head(script), time)
  }

  lemma AfterIs<T>(list: seq<Timer<T>>, script: seq<seq<Act<T>>>, time: nat)
    requires Ready(list, time) && list != []
    ensures var w := DoAll(Start(list[1..]), Head(script), time);
            Sound(w, time) && w.list == After(list, script, time)
    ensures Ready(After(list, script, time), time)
  {
    var w := DoAll(Start(list[1..]), Head(script), time);
    RestReady(list, time);
    DoAllSound(Start(list[1..]), Head(script), time, w);
    DoAllList(Start(list[1..]), Head(script), time);
  }

  lemma OneStep<T>(list: seq<Timer<T>>, script: seq<seq<Act<T>>>, time: nat)
    requires Ready(list, time) && list != [] && list[0].target <= time
    ensures Notified(list, script, time)
         == (More(list, script, time).0, [list[0].id] + More(list, script, time).1)
    ensures Due(list, time) == [list[0].id] + Due(list[1..], time)
    ensures Ready(After(list, script, time), time)
    ensures Due(After(list, script, time), time) == Untouched(Due(list[1..], time), Head(script))
  {
    RestReady(list, time);
    AfterIs(list, script, time);
    DueCalls(list[1..], Head(script), time);
  }

  /** Where the walk goes on behind the first callback. */
  lemma NextPath<T>(rest: seq<Timer<T>>, acts: seq<Act<T>>, time: nat, w: Walk<T>)
    requires Sound(Start(rest), time) && w == DoAll(Start(rest), acts, time)
    ensures var due := Due(rest, time);
            if due == [] || Arms(acts, due[0]) then Path(w) == [] || Path(w)[0].target > time
            else if !Touches(acts, due[0]) then w.stale == [] && w.at == 0 && Path(w) == w.list
            else Path(w) != [] && Path(w)[0].id == due[0] && Path(w)[0].target <= time
  {
    if rest == [] {
      EmptyAfter(Start(rest), acts, time);
    } else {
      NextAfter(Start(rest), acts, time);
      if rest[0].target > time {
        FrontDue(rest, time);
      } else if !Touches(acts, rest[0].id) {
        StaysAfter(Start(rest), acts, time);
      }
    }
  }

  /** As long as no callback cancels the next timer, what fires is the first of the list. */
  lemma SteadyNext<T>(path: seq<Timer<T>>, script: seq<seq<Act<T>>>, time: nat, w: Walk<T>)
    requires Ready(path, time) && path != [] && path[0].target <= time && Steady(Due(path, time), script)
    requires w == DoAll(Start(path[1..]), Head(script), time)
    ensures Path(w) != [] && Path(w)[0].target <= time ==>
              w.stale == [] && w.at == 0 && Steady(Due(Path(w), time), Tail(script))
  {
    OneStep(path, script, time);
    RestReady(path, time);
    NextPath(path[1..], Head(script), time, w);
    AfterIs(path, script, time);
    assert Due(path, time)[1..] == Due(path[1..], time);
  }

  lemma NextStep<T>(list: seq<Timer<T>>, script: seq<seq<Act<T>>>, time: nat)
    requires Ready(list, time) && list != []
    ensures var due, more := Due(list[1..], time), More(list, script, time);
            var next := After(list, script, time);
            if due == [] || Arms(Head(script), due[0]) then more == (next, [])
            else if !Touches(Head(script), due[0]) then more == Notified(next, Tail(script), time)
            else more.1 != [] && more.1[0] == due[0]
  {
    RestReady(list, time);
    AfterIs(list, script, time);
    NextPath(list[1..], Head(script), time, DoAll(Start(list[1..]), Head(script), time));
  }

  /** Notify fires the timers it should, each once and in the order of the list, exactly when the next timer is
      never cancelled and armed only when no other is left to fire.  Nothing is due then. */
  lemma {:induction false} FiresWhatIsMeant<T>(list: seq<Timer<T>>, script: seq<seq<Act<T>>>, time: nat)
    requires Ready(list, time)
    ensures Notified(list, script, time).1 == Meant(Due(list, time), script) <==> Smooth(Due(list, time), script)
    ensures Smooth(Due(list, time), script) ==> Due(Notified(list, script, time).0, time) == []
    decreases |Due(list, time)|
  {
    if list == [] || list[0].target > time {
      FrontDue(list, time);
    } else {
      OneStep(list, script, time);
      NextStep(list, script, time);
      var due := Due(list, time);
      var left, next := Untouched(due[1..], Head(script)), After(list, script, time);
      assert due[1..] == Due(list[1..], time);
      assert Meant(due, script) == [due[0]] + Meant(left, Tail(script));
      SameRest(due[0], More(list, script, time).1, Meant(left, Tail(script)));
      if |due| > 1 && !Touches(Head(script), due[1]) {
        FiresWhatIsMeant(next, Tail(script), time);
      } else if |due| > 1 && !Arms(Head(script), due[1]) {
        if left != [] && left[0] == due[1] {
          UntouchedIsNot(due[1..], Head(script), due[1]);
          assert false;
        }
      }
    }
  }

  lemma SameRest<T>(first: T, a: seq<T>, b: seq<T>)
    ensures [first] + a == [first] + b <==> a == b
    ensures [first] + a <= [first] + b <==> a <= b
  {
    assert ([first] + a)[1..] == a && ([first] + b)[1..] == b;
  }

  /** It fires no timer that it should not, and none before its turn, exactly when no callback cancels the next. */
  lemma {:induction false} FiresOnlyWhatIsMeant<T>(list: seq<Timer<T>>, script: seq<seq<Act<T>>>, time: nat)
    requires Ready(list, time)
    ensures Notified(list, script, time).1 <= Meant(Due(list, time), script) <==> Steady(Due(list, time), script)
    decreases |Due(list, time)|
  {
    if list == [] || list[0].target > time {
      FrontDue(list, time);
    } else {
      OneStep(list, script, time);
      NextStep(list, script, time);
      var due := Due(list, time);
      var left, next := Untouched(due[1..], Head(script)), After(list, script, time);
      assert due[1..] == Due(list[1..], time);
      assert Meant(due, script) == [due[0]] + Meant(left, Tail(script));
      SameRest(due[0], More(list, script, time).1, Meant(left, Tail(script)));
      if |due| > 1 && !Touches(Head(script), due[1]) {
        FiresOnlyWhatIsMeant(next, Tail(script), time);
      } else if |due| > 1 && !Arms(Head(script), due[1]) {
        if left != [] && left[0] == due[1] {
          UntouchedIsNot(due[1..], Head(script), due[1]);
          assert false;
        }
      }
    }
  }

  // ---- callbacks that only arm ---------------------------------------------------------------

  ghost predicate OnlyArms<T>(script: seq<seq<Act<T>>>) {
    forall n, k :: 0 <= n < |script| && 0 <= k < |script[n]| ==> script[n][k].Arm?
  }

  lemma {:induction false} OnlyArmsSteady<T>(due: seq<T>, script: seq<seq<Act<T>>>)
    requires OnlyArms(script)
    ensures Steady(due, script)
    decreases |due|
  {
    if |due| > 1 {
      if Touches(Head(script), due[1]) {
        var k :| 0 <= k < |script[0]| && script[0][k].id == due[1];
        assert script[0][k].Arm?;
      } else {
        OnlyArmsSteady(Untouched(due[1..], Head(script)), Tail(script));
      }
    }
  }

  lemma {:induction false} MeantIsAll<T>(due: seq<T>, script: seq<seq<Act<T>>>)
    ensures Meant(due, script) == due <==> Calm(due, script)
    ensures Calm(due, script) ==> Smooth(due, script)
    decreases |due|
  {
    if due != [] {
      var rest := due[1..];
      var left := Untouched(rest, Head(script));
      UntouchedAll(rest, Head(script));
      MeantIsAll(left, Tail(script));
      assert due == [due[0]] + rest;
      SameRest(due[0], Meant(left, Tail(script)), rest);
      if |due| > 1 {
        assert due[1] in rest;
      }
    }
  }

  /** When callbacks only arm, the due timers fire, each once and in the order of the list, exactly when no callback
      arms a timer that is still to fire.  Nothing is due then. */
  lemma FiresWhatIsDue<T>(list: seq<Timer<T>>, script: seq<seq<Act<T>>>, time: nat)
    requires Ready(list, time) && OnlyArms(script)
    ensures Notified(list, script, time).1 == Due(list, time) <==> Calm(Due(list, time), script)
    ensures Calm(Due(list, time), script) ==> Due(Notified(list, script, time).0, time) == []
  {
    OnlyArmsSteady(Due(list, time), script);
    FiresOnlyWhatIsMeant(list, script, time);
    FiresWhatIsMeant(list, script, time);
    MeantIsAll(Due(list, time), script);
  }

  /** A callback that arms the timer behind its own ends the walk: what else is due waits for the next tick. */
  lemma ArmingTheNextEndsTheWalk<T>(list: seq<Timer<T>>, script: seq<seq<Act<T>>>, time: nat)
    requires Ready(list, time) && |list| > 1 && list[1].target <= time && Arms(Head(script), list[1].id)
    ensures Notified(list, script, time).1 == [list[0].id]
    ensures Due(Notified(list, script, time).0, time) == Untouched(Due(list[1..], time), Head(script))
  {
    assert list[0].target <= time;
    OneStep(list, script, time);
    assert Due(list[1..], time)[0] == list[1].id;
    NextStep(list, script, time);
  }

  // ---- callbacks that cancel -----------------------------------------------------------------

  lemma {:induction false} MeantWasLeft<T>(due: seq<T>, script: seq<seq<Act<T>>>, id: T)
    requires id in Meant(due, script)
    ensures id in due
    decreases |due|
  {
    if id != due[0] {
      var left := Untouched(due[1..], Head(script));
      MeantWasLeft(left, Tail(script), id);
      UntouchedWas(due[1..], Head(script), id);
    }
  }

  lemma {:induction false} UntouchedWas<T>(ids: seq<T>, acts: seq<Act<T>>, id: T)
    requires id in Untouched(ids, acts)
    ensures id in ids && !Touches(acts, id)
  {
    UntouchedIsNot(ids, acts, id);
    if id != ids[0] {
      UntouchedWas(ids[1..], acts, id);
    }
  }

  /** A timer that the callback before it cancels fires all the same. */
  lemma CancelledNextFires<T>(list: seq<Timer<T>>, script: seq<seq<Act<T>>>, time: nat)
    requires Ready(list, time) && |list| > 1 && list[1].target <= time
    requires Touches(Head(script), list[1].id) && !Arms(Head(script), list[1].id)
    ensures [list[0].id, list[1].id] <= Notified(list, script, time).1
    ensures list[1].id !in Meant(Due(list, time), script)
  {
    var due, id := Due(list, time), list[1].id;
    assert list[0].target <= time;
    OneStep(list, script, time);
    assert due[1..] == Due(list[1..], time) && due[1] == id;
    NextStep(list, script, time);
    CancelledIsNotMeant(due, script);
  }

  lemma CancelledIsNotMeant<T>(due: seq<T>, script: seq<seq<Act<T>>>)
    requires |due| > 1 && due[0] != due[1] && Touches(Head(script), due[1])
    ensures due[1] !in Meant(due, script)
  {
    var left := Untouched(due[1..], Head(script));
    if due[1] in Meant(left, Tail(script)) {
      MeantWasLeft(left, Tail(script), due[1]);
      UntouchedIsNot(due[1..], Head(script), due[1]);
      assert false;
    }
  }

  lemma FiresNext<T>(list: seq<Timer<T>>, path: seq<Timer<T>>, script: seq<seq<Act<T>>>, time: nat, w: Walk<T>)
    requires path != [] && path[0].target <= time && w == DoAll(Start(path[1..]), Head(script), time)
    ensures var more := Dispatch(w.list, Path(w), Tail(script), time);
            Dispatch(list, path, script, time) == (more.0, [path[0].id] + more.1)
  {
  }

  lemma DoBoth<T>(w: Walk<T>, acts: seq<Act<T>>, time: nat)
    requires Inside(w) && |acts| == 2
    ensures DoAll(w, acts, time) == Do(Do(w, acts[0], time), acts[1], time)
  {
    DoOne(Do(w, acts[0], time), acts[1..], time);
  }

  lemma DoOne<T>(w: Walk<T>, acts: seq<Act<T>>, time: nat)
    requires Inside(w) && |acts| == 1
    ensures DoAll(w, acts, time) == Do(w, acts[0], time)
  {
    assert DoAll(Do(w, acts[0], time), acts[1..], time) == Do(w, acts[0], time);
  }

  lemma CancelsFirst<T>(b: Timer<T>, rest: seq<Timer<T>>)
    ensures Taken(Start([b] + rest), b.id) == Walk(rest, [b], 0)
  {
    assert Deleted([b] + rest, 0) == rest;
  }

  lemma ArmsBefore<T>(b: Timer<T>, rest: seq<Timer<T>>, x: Timer<T>)
    requires Lacks(rest, x.id) && x.id != b.id && (rest != [] ==> x.target <= rest[0].target)
    ensures Added(Taken(Walk(rest, [b], 0), x.id), x) == Walk([x] + rest, [b], 1)
  {
    var w := Walk(rest, [b], 0);
    assert Taken(w, x.id) == w;
    assert Place(rest, x.target) == 0 && Inserted(rest, x, 0) == [x] + rest;
    assert Find(w.stale, x.id) == 1;
  }

  /** When a callback cancels the next timer and arms another before the rest, the cancelled one fires and the armed
      one is lost: it is cut off with all that lies before the place where the walk goes on. */
  lemma ArmedTimerIsLost<T>(a: Timer<T>, b: Timer<T>, rest: seq<Timer<T>>, id: T, secs: Interval, time: nat,
                            script: seq<seq<Act<T>>>)
    requires a.target <= time && b.target <= time && id != b.id && Lacks(rest, id)
    requires rest != [] ==> time + secs <= rest[0].target
    requires script == [[Cancel(b.id), Arm(id, secs)]]
    ensures Notified([a, b] + rest, script, time) == (rest, [a.id, b.id])
  {
    var list, x := [a, b] + rest, Timer(id, time + secs);
    assert list[1..] == [b] + rest;
    var w := Walk([x] + rest, [b], 1);
    CancelsAndArms(b, rest, x, time, script[0], w);
    FiresNext(list, list, script, time, w);
    LastFires(w, b, rest, time, Tail(script));
    assert [a.id] + [b.id] == [a.id, b.id];
  }

  lemma CancelsAndArms<T>(b: Timer<T>, rest: seq<Timer<T>>, x: Timer<T>, time: nat, acts: seq<Act<T>>, w: Walk<T>)
    requires x.id != b.id && Lacks(rest, x.id) && (rest != [] ==> x.target <= rest[0].target) && x.target > time
    requires |acts| == 2 && acts[0] == Cancel(b.id) && acts[1] == Arm(x.id, x.target - time)
    requires w == Walk([x] + rest, [b], 1)
    ensures DoAll(Start([b] + rest), acts, time) == w && Path(w) == [b] + rest
  {
    CancelsFirst(b, rest);
    ArmsBefore(b, rest, x);
    DoBoth(Start([b] + rest), acts, time);
    assert Do(Start([b] + rest), acts[0], time) == Walk(rest, [b], 0);
    assert ([x] + rest)[1..] == rest;
  }

  lemma LastFires<T>(w: Walk<T>, b: Timer<T>, rest: seq<Timer<T>>, time: nat, script: seq<seq<Act<T>>>)
    requires Inside(w) && Path(w) == [b] + rest && b.target <= time && (rest == [] || rest[0].target > time)
    requires script == []
    ensures Dispatch(w.list, Path(w), script, time) == (rest, [b.id])
  {
    assert Path(w)[1..] == rest && Head(script) == [] && Tail(script) == script;
    assert DoAll(Start(rest), Head(script), time) == Start(rest);
    FiresNext(w.list, Path(w), script, time, Start(rest));
    assert Dispatch(rest, rest, script, time) == (rest, []);
    assert [b.id] + [] == [b.id];
  }

  // ---- whatever callbacks do -----------------------------------------------------------------

  /** Some of them, in their order. */
  predicate Among<T(==)>(some: seq<T>, all: seq<T>) {
    if some == [] then true
    else if all == [] then false
    else if some[0] == all[0] then Among(some[1..], all[1..])
    else Among(some, all[1..])
  }

  lemma {:induction false} AmongShorter<T>(some: seq<T>, all: seq<T>)
    requires Among(some, all)
    ensures |some| <= |all|
    decreases |all|
  {
    if some != [] {
      AmongShorter(if some[0] == all[0] then some[1..] else some, all[1..]);
    }
  }

  lemma {:induction false} AmongMore<T>(some: seq<T>, first: T, all: seq<T>)
    requires Among(some, all)
    ensures Among(some, [first] + all)
    decreases |some|, |all|, 1
  {
    assert ([first] + all)[1..] == all;
    if some != [] && some[0] == first {
      AmongRest(some, all);
    }
  }

  lemma {:induction false} AmongRest<T>(some: seq<T>, all: seq<T>)
    requires some != [] && Among(some, all)
    ensures Among(some[1..], all)
    decreases |some|, |all|, 0
  {
    assert all == [all[0]] + all[1..];
    if some[0] == all[0] {
      AmongMore(some[1..], all[0], all[1..]);
    } else {
      AmongRest(some, all[1..]);
      AmongMore(some[1..], all[0], all[1..]);
    }
  }

  lemma {:induction false} AmongTrans<T>(a: seq<T>, b: seq<T>, c: seq<T>)
    requires Among(a, b) && Among(b, c)
    ensures Among(a, c)
    decreases |c|, |b|
  {
    if a != [] {
      if b[0] != c[0] {
        AmongTrans(a, b, c[1..]);
        AmongMore(a, c[0], c[1..]);
        assert c == [c[0]] + c[1..];
      } else if a[0] == b[0] {
        AmongTrans(a[1..], b[1..], c[1..]);
      } else {
        AmongTrans(a, b[1..], c[1..]);
      }
    }
  }

  lemma AmongFirst<T>(first: T, some: seq<T>, all: seq<T>)
    requires Among(some, all)
    ensures Among([first] + some, [first] + all)
  {
    assert ([first] + some)[1..] == some && ([first] + all)[1..] == all;
  }

  lemma {:induction false} AmongBehind<T>(skipped: seq<T>, b: seq<T>)
    ensures Among(b, skipped + b)
    decreases |skipped|, |b|
  {
    if skipped != [] {
      AmongBehind(skipped[1..], b);
      AmongMore(b, skipped[0], skipped[1..] + b);
      assert [skipped[0]] + (skipped[1..] + b) == skipped + b;
    } else if b != [] {
      AmongBehind([], b[1..]);
      assert [] + b == b && [] + b[1..] == b[1..];
    }
  }

  lemma {:induction false} AmongSkip<T>(a: seq<T>, skipped: seq<T>, b: seq<T>)
    ensures Among(a + b, a + skipped + b)
  {
    if a == [] {
      AmongBehind(skipped, b);
      assert [] + b == b && [] + skipped + b == skipped + b;
    } else {
      AmongSkip(a[1..], skipped, b);
      AmongFirst(a[0], a[1..] + b, a[1..] + skipped + b);
      assert a + b == [a[0]] + (a[1..] + b) && a + skipped + b == [a[0]] + (a[1..] + skipped + b);
    }
  }

  lemma {:induction false} DueOfBoth<T>(a: seq<Timer<T>>, b: seq<Timer<T>>, time: nat)
    ensures Due(a + b, time) == Due(a, time) + Due(b, time)
  {
    if a == [] {
      assert a + b == b;
    } else {
      assert (a + b)[1..] == a[1..] + b && (a + b)[0] == a[0];
      DueOfBoth(a[1..], b, time);
      assert Due(a + b, time) == (if a[0].target <= time then [a[0].id] else []) + Due(a[1..] + b, time);
    }
  }

  lemma DueDeleted<T>(list: seq<Timer<T>>, k: nat, time: nat)
    requires k < |list|
    ensures Among(Due(Deleted(list, k), time), Due(list, time))
  {
    var a, x, b := list[..k], [list[k]], list[k + 1..];
    assert list == a + x + b;
    DueOfBoth(a, b, time);
    DueOfBoth(a + x, b, time);
    DueOfBoth(a, x, time);
    AmongSkip(Due(a, time), Due(x, time), Due(b, time));
  }

  lemma DueInserted<T>(list: seq<Timer<T>>, x: Timer<T>, k: nat, time: nat)
    requires k <= |list| && x.target > time
    ensures Due(Inserted(list, x, k), time) == Due(list, time)
  {
    assert list == list[..k] + list[k..];
    DueOfBoth(list[..k], list[k..], time);
    DueOfBoth(list[..k] + [x], list[k..], time);
    DueOfBoth(list[..k], [x], time);
  }

  lemma AmongSame<T>(a: seq<T>)
    ensures Among(a, a)
  {
    AmongSkip(a, [], []);
    assert a + [] == a && a + [] + [] == a;
  }

  lemma DueTaken<T>(w: Walk<T>, id: T, time: nat)
    requires Inside(w)
    ensures Among(Due(Path(Taken(w, id)), time), Due(Path(w), time))
  {
    var k := Find(w.list, id);
    TakenPath(w, id);
    AmongSame(Due(Path(w), time));
    if w.at < k < |w.list| {
      DueDeleted(Path(w), |w.stale| + k - w.at, time);
    }
  }

  lemma DueAdded<T>(w: Walk<T>, x: Timer<T>, time: nat, path: seq<Timer<T>>)
    requires Inside(w) && Front(w.list, time) && x.target > time && path == Path(Added(w, x))
    ensures Among(Due(path, time), Due(Path(w), time))
  {
    var k, i := Place(w.list, x.target), Find(w.stale, x.id);
    AddedPath(w, x);
    if i < |w.stale| {
      var end := w.list[k..];
      FrontFrom(w.list, k, end, time);
      DueJoined(w.stale, i, x, end, w.list[w.at..], time);
      assert path == w.stale[..i] + ([x] + end);
    } else {
      DueInsertedAt(Path(w), x, path, |w.stale| + k - w.at, time);
    }
  }

  lemma DueInsertedAt<T>(list: seq<Timer<T>>, x: Timer<T>, path: seq<Timer<T>>, k: int, time: nat)
    requires x.target > time && (path == list || (0 <= k <= |list| && path == Inserted(list, x, k)))
    ensures Among(Due(path, time), Due(list, time))
  {
    AmongSame(Due(list, time));
    if path != list {
      DueInserted(list, x, k, time);
    }
  }

  lemma DueJoined<T>(stale: seq<Timer<T>>, i: nat, x: Timer<T>, end: seq<Timer<T>>, rest: seq<Timer<T>>, time: nat)
    requires i <= |stale| && x.target > time
    requires Front(end, time) && (end == [] || end[0].target > time)
    ensures Among(Due(stale[..i] + ([x] + end), time), Due(stale + rest, time))
  {
    FrontDue(end, time);
    DueOfBoth(stale[..i], [x] + end, time);
    DueOfBoth([x], end, time);
    assert stale + rest == stale[..i] + (stale[i..] + rest);
    DueOfBoth(stale[..i], stale[i..] + rest, time);
    var a, skipped := Due(stale[..i], time), Due(stale[i..] + rest, time);
    AmongSkip(a, skipped, []);
    assert a + [] == a && a + skipped + [] == a + skipped;
    assert Due([x] + end, time) == [];
  }

  lemma {:induction false} DueDoAll<T>(w: Walk<T>, acts: seq<Act<T>>, time: nat)
    requires Sound(w, time)
    ensures Among(Due(Path(DoAll(w, acts, time)), time), Due(Path(w), time))
    decreases |acts|
  {
    AmongSame(Due(Path(w), time));
    if acts != [] {
      var v := Do(w, acts[0], time);
      DoSound(w, acts[0], time, v);
      DueDoAll(v, acts[1..], time);
      DueDo(w, acts[0], time);
      AmongTrans(Due(Path(DoAll(v, acts[1..], time)), time), Due(Path(v), time), Due(Path(w), time));
    }
  }

  lemma DueDo<T>(w: Walk<T>, act: Act<T>, time: nat)
    requires Sound(w, time)
    ensures Among(Due(Path(Do(w, act, time)), time), Due(Path(w), time))
  {
    DueTaken(w, act.id, time);
    match act
    case Arm(id, secs) =>
      var v, x := Taken(w, id), Timer(id, time + secs);
      assert Do(w, act, time) == Added(v, x);
      TakenSound(w, id, time);
      DueAdded(v, x, time, Path(Added(v, x)));
      AmongTrans(Due(Path(Added(v, x)), time), Due(Path(v), time), Due(Path(w), time));
    case Cancel(id) =>
      assert Do(w, act, time) == Taken(w, id);
  }

  lemma PathDistinct<T>(w: Walk<T>, path: seq<Timer<T>>)
    requires Inside(w) && Apart(w) && path == Path(w)
    ensures Distinct(path)
  {
    var n := |w.stale|;
    forall i, j | 0 <= i < j < |path|
      ensures path[i].id != path[j].id
    {
      if j < n {
        assert path[j] == w.stale[j] && path[i] == w.stale[i];
      } else {
        assert path[j] == w.list[w.at + j - n] && path[i] == if i < n then w.stale[i] else w.list[w.at + i - n];
      }
    }
  }

  lemma PathReady<T>(w: Walk<T>, time: nat, path: seq<Timer<T>>)
    requires Sound(w, time) && path == Path(w)
    ensures Ready(path, time)
  {
    PathDistinct(w, path);
  }

  lemma {:induction false} FiresAmong<T>(list: seq<Timer<T>>, path: seq<Timer<T>>, script: seq<seq<Act<T>>>, time: nat)
    requires Ready(path, time)
    ensures Among(Dispatch(list, path, script, time).1, Due(path, time))
    decreases |script|, |path|
  {
    if path != [] && path[0].target <= time {
      var acts := Head(script);
      RestReady(path, time);
      var w := DoAll(Start(path[1..]), acts, time);
      DoAllSound(Start(path[1..]), acts, time, w);
      PathReady(w, time, Path(w));
      DueDoAll(Start(path[1..]), acts, time);
      var fired, due := Dispatch(w.list, Path(w), Tail(script), time).1, Due(path[1..], time);
      FiresAmong(w.list, Path(w), Tail(script), time);
      AmongTrans(fired, Due(Path(w), time), due);
      assert ([path[0].id] + fired)[1..] == fired && ([path[0].id] + due)[1..] == due;
    }
  }

  /** Only timers that were due on entry fire, none twice, and in the order of the list. */
  lemma NeverMore<T>(list: seq<Timer<T>>, script: seq<seq<Act<T>>>, time: nat)
    requires Ready(list, time)
    ensures Among(Notified(list, script, time).1, Due(list, time))
    ensures |Notified(list, script, time).1| <= |Due(list, time)|
  {
    FiresAmong(list, list, script, time);
    AmongShorter(Notified(list, script, time).1, Due(list, time));
  }

  // ---- what stays ----------------------------------------------------------------------------

  /** As long as no callback cancels the next timer the list stays sorted. */
  lemma {:induction false} NotifySorted<T>(list: seq<Timer<T>>, script: seq<seq<Act<T>>>, time: nat)
    requires Distinct(list) && Sorted(list) && Steady(Due(list, time), script)
    ensures Sorted(Notified(list, script, time).0)
    decreases |Due(list, time)|
  {
    SortedFront(list, time);
    if list != [] && list[0].target <= time {
      OneStep(list, script, time);
      NextStep(list, script, time);
      var due := Due(list, time);
      assert due[1..] == Due(list[1..], time);
      SortedFrom(list);
      CallsSorted(list[1..], Head(script), time);
      if |due| > 1 && !Touches(Head(script), due[1]) {
        NotifySorted(After(list, script, time), Tail(script), time);
      }
    }
  }

  lemma SortedFrom<T>(list: seq<Timer<T>>)
    requires Sorted(list) && list != []
    ensures Sorted(list[1..])
  {
  }

  /** ... and a timer that is not due and that no callback touches stays as it is. */
  lemma {:induction false} OthersStay<T>(list: seq<Timer<T>>, script: seq<seq<Act<T>>>, time: nat, x: Timer<T>)
    requires Ready(list, time) && Steady(Due(list, time), script) && x.target > time
    requires forall k :: 0 <= k < |script| ==> !Touches(script[k], x.id)
    ensures x in Notified(list, script, time).0 <==> x in list
    decreases |Due(list, time)|
  {
    if list != [] && list[0].target <= time {
      OneStep(list, script, time);
      NextStep(list, script, time);
      var due := Due(list, time);
      assert due[1..] == Due(list[1..], time);
      assert list == [list[0]] + list[1..];
      CallsKeep(list[1..], Head(script), time, x);
      if |due| > 1 && !Touches(Head(script), due[1]) {
        OthersStay(After(list, script, time), Tail(script), time, x);
      }
    }
  }
}
