/** CCAPI20_MsgBase: messages on their way to CAPI.  CapiBase_PutMessage reports its result from within the
    call, so that putting one message drains the queue by recursion. */
module PutQueue {
  import opened Options
  import opened DynStore

  /** What the handlers do in answer to a failed request. */
  datatype Call = Message | Release

  /** The result of one capi20_put_message. */
  datatype Result = Ok | IllAppNr | Failed(reaction: seq<Call>)

  /** `next` numbers the messages. */
  datatype Base = Base(store: Store, cur: Option<Buffer>, registered: bool, next: nat)

  /** Put and Done enclose one call of CapiBase_PutMessage; illegal: CAPI does not know the application's number. */
  datatype Event = Put(serial: nat) | Done(illegal: bool) | CapiRelease | Registered(next: nat)

  type Step = (Base, seq<Event>)

  const NewBase := Base(Store([], 0, []), None, false, 0)

  function Head(results: seq<Result>): Result {
    if results == [] then Ok else results[0]
  }

  function Tail(results: seq<Result>): seq<Result> {
    if results == [] then [] else results[1..]
  }

  /** The first half of AllocAndPutMsg: a buffer is taken, filled and queued. */
  function Queued(b: Base, release: bool): Base {
    var (store, id) := AllocFrom(b.store);
    b.(store := Enter(store, Buffer(id, DynStore.Message(b.next, release))), next := b.next + 1)
  }

  function FreeCur(b: Base): Base {
    if b.cur.None? then b else b.(store := FreeTo(b.store, b.cur.value.id), cur := None)
  }

  /** RELEASE drops what waits, and queues the message that asks for the release. */
  function Released(b: Base): Base {
    Queued(b.(store := FreeAll(b.store)), true)
  }

  function React(b: Base, calls: seq<Call>): Base
    decreases |calls|
  {
    if calls == [] then b
    else React(if calls[0] == Call.Release then Released(b) else Queued(b, false), calls[1..])
  }

  /** HandleMessageError, while the message is still in flight. */
  function Handled(b: Base, result: Result): Base {
    match result
    case Ok => b
    case IllAppNr => if b.registered then Released(b) else b
    case Failed(reaction) => React(b, reaction)
  }

  /** The first of the queue is the current message. */
  function Taken(b: Base): Base {
    b.(store := Leave(b.store).0, cur := Leave(b.store).1)
  }

  /** EmptyPutMsgbufferQueue. */
  function Drained(b: Base, results: seq<Result>): Step
    decreases |results|, |b.store.queue|, 0
  {
    if b.cur.Some? || b.store.queue == [] then (b, []) else Sent(Taken(b), results)
  }

  /** What becomes of the current message: it asks for the release, or it is put, or nobody is registered. */
  function Sent(b: Base, results: seq<Result>): Step
    requires b.cur.Some?
    decreases |results|, |b.store.queue|, 2
  {
    var data := b.cur.value.data;
    if data.release then (FreeCur(b).(registered := false), [CapiRelease])
    else if !b.registered then (FreeCur(b), [])
    else
      var (b1, es) := Completed(b, results);
      (b1, [Put(data.serial)] + es)
  }

  /** PutMessageComplete. */
  function Completed(b: Base, results: seq<Result>): Step
    requires b.cur.Some?
    decreases |results|, |b.store.queue|, 1
  {
    var (b1, es) := Drained(FreeCur(Handled(b, Head(results))), Tail(results));
    (b1, [Done(Head(results) == IllAppNr)] + es)
  }

  /** Calls from outside, with the results that CAPI will give while they run. */
  datatype Input =
    | AllocAndPut(results: seq<Result>) | Release(results: seq<Result>)
    | Register(succeeds: bool) | ReleaseComplete

  function Next(b: Base, input: Input): Step {
    match input
    case AllocAndPut(results) => Drained(Queued(b, false), results)
    case Release(results) => Drained(Released(b), results)
    case Register(succeeds) =>
      (FreeCur(b.(store := FreeAll(b.store))).(registered := succeeds), if succeeds then [Registered(b.next)] else [])
    case ReleaseComplete => (FreeCur(b.(store := FreeAll(b.store))), [])
  }

  function Run(b: Base, inputs: seq<Input>): Step
    decreases |inputs|
  {
    if inputs == [] then (b, [])
    else
      var (b1, e1) := Next(b, inputs[0]);
      var (b2, e2) := Run(b1, inputs[1..]);
      (b2, e1 + e2)
  }

  // ---- what an observer at the CAPI demands --------------------------------------------------

  /** Only messages numbered `low` or higher may come, only while `open`, one at a time, and none when CAPI does not
      know the application: then the release is due. */
  datatype Monitor = Monitor(low: nat, open: bool, flying: bool, due: bool)

  function Observe(m: Monitor, e: Event): Option<Monitor> {
    match e
    case Put(serial) =>
      if m.open && !m.flying && !m.due && m.low <= serial then Some(Monitor(serial + 1, true, true, false)) else None
    case Done(illegal) => if m.flying then Some(m.(flying := false, due := illegal)) else None
    case CapiRelease => if !m.flying then Some(m.(open := false, due := false)) else None
    case Registered(next) =>
      if !m.flying && !m.due && m.low <= next then Some(Monitor(next, true, false, false)) else None
  }

  function Watch(m: Monitor, log: seq<Event>): Option<Monitor>
    decreases |log|
  {
    if log == [] then Some(m)
    else
      match Observe(m, log[0])
      case None => None
      case Some(m1) => Watch(m1, log[1..])
  }

  lemma {:induction false} WatchAppend(m: Monitor, x: seq<Event>, y: seq<Event>)
    requires Watch(m, x).Some?
    ensures Watch(m, x + y) == Watch(Watch(m, x).value, y)
    decreases |x|
  {
    if x == [] {
      assert x + y == y;
    } else {
      assert (x + y)[1..] == x[1..] + y;
      WatchAppend(Observe(m, x[0]).value, x[1..], y);
    }
  }

  // ---- the invariant -------------------------------------------------------------------------

  /** Waiting messages are numbered upwards from `low`. */
  predicate Rising(queue: seq<Buffer>, low: nat, next: nat)
    decreases |queue|
  {
    if queue == [] then low <= next
    else low <= queue[0].data.serial < next && Rising(queue[1..], queue[0].data.serial + 1, next)
  }

  function InFlight(b: Base): multiset<nat> {
    if b.cur.Some? then multiset{b.cur.value.id} else multiset{}
  }

  /** The next message asks for the release. */
  predicate Asks(queue: seq<Buffer>) {
    queue != [] && queue[0].data.release
  }

  /** Every buffer is in one place; what waits will come in order; the observer knows whether the
      application is registered, and when the release is due it comes next. */
  ghost predicate Sound(b: Base, m: Monitor) {
    && Accounted(b.store, InFlight(b))
    && Rising(b.store.queue, m.low, b.next)
    && m.open == b.registered
    && m.flying == b.cur.Some?
    && (m.due ==> Asks(b.store.queue))
  }

  lemma {:induction false} RisingAppend(queue: seq<Buffer>, low: nat, next: nat, id: nat, release: bool)
    requires Rising(queue, low, next)
    ensures Rising(queue + [Buffer(id, DynStore.Message(next, release))], low, next + 1)
    decreases |queue|
  {
    var x := Buffer(id, DynStore.Message(next, release));
    if queue == [] {
      assert queue + [x] == [x] && [x][1..] == [];
    } else {
      assert (queue + [x])[1..] == queue[1..] + [x];
      RisingAppend(queue[1..], queue[0].data.serial + 1, next, id, release);
    }
  }

  lemma {:induction false} RisingLow(queue: seq<Buffer>, low: nat, next: nat)
    requires Rising(queue, low, next)
    ensures low <= next
    decreases |queue|
  {
  }

  lemma QueuedSound(b: Base, m: Monitor, release: bool)
    requires Sound(b, m)
    ensures Sound(Queued(b, release), m)
  {
    var (store, id) := AllocFrom(b.store);
    AllocAccounted(b.store, InFlight(b));
    EnterAccounted(store, InFlight(b), Buffer(id, DynStore.Message(b.next, release)));
    RisingAppend(b.store.queue, m.low, b.next, id, release);
  }

  lemma FreeAllSound(b: Base, m: Monitor)
    requires Sound(b, m) && !m.due
    ensures Sound(b.(store := FreeAll(b.store)), m)
  {
    FreeAllAccounted(b.store, InFlight(b));
    RisingLow(b.store.queue, m.low, b.next);
  }

  lemma ReleasedSound(b: Base, m: Monitor)
    requires Sound(b, m) && !m.due
    ensures Sound(Released(b), m) && Asks(Released(b).store.queue)
  {
    FreeAllSound(b, m);
    QueuedSound(b.(store := FreeAll(b.store)), m, true);
  }

  lemma {:induction false} ReactSound(b: Base, m: Monitor, calls: seq<Call>)
    requires Sound(b, m) && !m.due
    ensures Sound(React(b, calls), m)
    decreases |calls|
  {
    if calls != [] {
      ReleasedSound(b, m);
      QueuedSound(b, m, false);
      ReactSound(if calls[0] == Call.Release then Released(b) else Queued(b, false), m, calls[1..]);
    }
  }

  lemma HandledSound(b: Base, m: Monitor, result: Result)
    requires Sound(b, m) && !m.due && b.registered
    ensures Sound(Handled(b, result), m.(due := result == IllAppNr))
  {
    ReleasedSound(b, m);
    if result.Failed? {
      ReactSound(b, m, result.reaction);
    }
  }

  lemma FreeCurSound(b: Base, m: Monitor)
    requires Sound(b, m)
    ensures Sound(FreeCur(b), m.(flying := false))
  {
    if b.cur.Some? {
      FreeAccounted(b.store, multiset{}, b.cur.value.id);
    }
  }

  lemma TakenSound(b: Base, m: Monitor)
    requires Sound(b, m) && b.cur.None? && b.store.queue != []
    ensures m.low <= b.store.queue[0].data.serial
    ensures Sound(Taken(b), Monitor(b.store.queue[0].data.serial + 1, b.registered, true, false))
  {
    LeaveAccounted(b.store, multiset{});
  }

  lemma PutSound(b: Base, m: Monitor, result: Result)
    requires Sound(b, m) && !m.due && b.registered
    ensures Sound(FreeCur(Handled(b, result)), m.(flying := false, due := result == IllAppNr))
    ensures FreeCur(Handled(b, result)).cur.None?
  {
    HandledSound(b, m, result);
    FreeCurSound(Handled(b, result), m.(due := result == IllAppNr));
  }

  lemma DroppedKeeps(b: Base, m: Monitor, low: nat, due: bool)
    requires Sound(b, m) && low <= m.low && !m.due
    ensures !due ==> Keeps(m.(low := low, flying := false), (FreeCur(b), []))
    ensures Keeps(m.(low := low, flying := false, due := due), (FreeCur(b).(registered := false), [CapiRelease]))
  {
    FreeCurSound(b, m);
    RisingWeaken(b.store.queue, low, m.low, b.next);
    assert [CapiRelease][1..] == [];
  }

  /** A step that says nothing the observer forbids, keeps the invariant and leaves no message in flight and no
      release due. */
  ghost predicate Keeps(m: Monitor, step: Step) {
    && step.0.cur.None? && Watch(m, step.1).Some?
    && Sound(step.0, Watch(m, step.1).value) && !Watch(m, step.1).value.due
  }

  lemma PutKeeps(m: Monitor, serial: nat, illegal: bool, step: Step)
    requires m.open && !m.flying && !m.due && m.low <= serial
    requires Keeps(Monitor(serial + 1, true, false, illegal), step)
    ensures Keeps(m, (step.0, [Put(serial), Done(illegal)] + step.1))
  {
    var log := [Put(serial), Done(illegal)] + step.1;
    assert log[1..] == [Done(illegal)] + step.1 && log[1..][1..] == step.1;
  }

  lemma DrainedOnce(b: Base, results: seq<Result>)
    requires b.cur.None? && b.store.queue != [] && b.registered && !b.store.queue[0].data.release
    ensures var step := Drained(FreeCur(Handled(Taken(b), Head(results))), Tail(results));
            var illegal := Head(results) == IllAppNr;
            Drained(b, results) == (step.0, [Put(b.store.queue[0].data.serial), Done(illegal)] + step.1)
  {
    var data := b.store.queue[0].data;
    var es := Drained(FreeCur(Handled(Taken(b), Head(results))), Tail(results)).1;
    var done := Done(Head(results) == IllAppNr);
    assert [Put(data.serial)] + ([done] + es) == [Put(data.serial), done] + es;
    assert Drained(b, results) == Sent(Taken(b), results);
  }

  /** What one message leaves behind, and what the observer makes of it. */
  function Behind(b: Base, result: Result): Base {
    FreeCur(Handled(Taken(b), result))
  }

  function Seen(b: Base, result: Result): Monitor
    requires b.store.queue != []
  {
    Monitor(b.store.queue[0].data.serial + 1, b.registered, false, result == IllAppNr)
  }

  lemma TurnSound(b: Base, m: Monitor, result: Result)
    requires Sound(b, m) && b.cur.None? && b.registered && b.store.queue != [] && !b.store.queue[0].data.release
    ensures m.low <= b.store.queue[0].data.serial && m.open && !m.flying && !m.due
    ensures Behind(b, result).cur.None? && Sound(Behind(b, result), Seen(b, result))
  {
    TakenSound(b, m);
    PutSound(Taken(b), Seen(b, Ok).(flying := true), result);
  }

  lemma RisingFirst(queue: seq<Buffer>, low: nat, next: nat)
    requires Rising(queue, low, next) && queue != []
    ensures low <= queue[0].data.serial
  {
  }

  lemma TurnDecreases(b: Base, results: seq<Result>)
    requires b.store.queue != []
    ensures results == [] ==> |Behind(b, Head(results)).store.queue| < |b.store.queue|
    ensures results != [] ==> |Tail(results)| < |results|
  {
  }

  lemma TurnKeeps(b: Base, m: Monitor, result: Result, step: Step)
    requires Sound(b, m) && b.cur.None? && b.registered && b.store.queue != [] && !b.store.queue[0].data.release
    requires Keeps(Seen(b, result), step)
    ensures Keeps(m, (step.0, [Put(b.store.queue[0].data.serial), Done(result == IllAppNr)] + step.1))
  {
    RisingFirst(b.store.queue, m.low, b.next);
    PutKeeps(m, b.store.queue[0].data.serial, result == IllAppNr, step);
  }

  lemma DropKeeps(b: Base, m: Monitor, results: seq<Result>)
    requires Sound(b, m) && b.cur.None? && b.store.queue != []
    requires b.store.queue[0].data.release || !b.registered
    ensures Keeps(m, Drained(b, results))
  {
    TakenSound(b, m);
    DroppedKeeps(Taken(b), Seen(b, Ok).(flying := true), m.low, m.due);
    assert Drained(b, results) == Sent(Taken(b), results);
  }

  /** The drain recursion. */
  lemma {:induction false} DrainedKeeps(b: Base, m: Monitor, results: seq<Result>)
    requires Sound(b, m) && b.cur.None?
    ensures Keeps(m, Drained(b, results))
    decreases |results|, |b.store.queue|
  {
    if b.store.queue != [] {
      if b.store.queue[0].data.release || !b.registered {
        DropKeeps(b, m, results);
      } else {
        TurnSound(b, m, Head(results));
        TurnDecreases(b, results);
        DrainedKeeps(Behind(b, Head(results)), Seen(b, Head(results)), Tail(results));
        TurnKeeps(b, m, Head(results), Drained(Behind(b, Head(results)), Tail(results)));
        DrainedOnce(b, results);
      }
    }
  }

  lemma RisingWeaken(queue: seq<Buffer>, low: nat, higher: nat, next: nat)
    requires Rising(queue, higher, next) && low <= higher
    ensures Rising(queue, low, next)
  {
  }

  lemma NextKeeps(b: Base, m: Monitor, input: Input)
    requires Sound(b, m) && !m.due && b.cur.None? && Conforms(b, input)
    ensures Keeps(m, Next(b, input))
  {
    match input {
      case AllocAndPut(results) =>
        QueuedSound(b, m, false);
        DrainedKeeps(Queued(b, false), m, results);
      case Release(results) =>
        ReleasedSound(b, m);
        DrainedKeeps(Released(b), m, results);
      case _ => FreeAllSound(b, m);
    }
  }

  /** REGISTER demands that the application is not registered. */
  predicate Conforms(b: Base, input: Input) {
    input.Register? ==> !b.registered
  }

  predicate RunConforms(b: Base, inputs: seq<Input>)
    decreases |inputs|
  {
    inputs == [] || (Conforms(b, inputs[0]) && RunConforms(Next(b, inputs[0]).0, inputs[1..]))
  }

  lemma {:induction false} RunKeeps(b: Base, m: Monitor, inputs: seq<Input>)
    requires Sound(b, m) && !m.due && b.cur.None? && RunConforms(b, inputs)
    ensures Keeps(m, Run(b, inputs))
    decreases |inputs|
  {
    if inputs != [] {
      var (b1, e1) := Next(b, inputs[0]);
      NextKeeps(b, m, inputs[0]);
      RunKeeps(b1, Watch(m, e1).value, inputs[1..]);
      WatchAppend(m, e1, Run(b1, inputs[1..]).1);
    }
  }

  const NewMonitor := Monitor(0, false, false, false)

  /** The observer has no objection to the log since the layer was new, and between calls no message is in
      flight. */
  ghost predicate Watched(b: Base, log: seq<Event>) {
    && b.cur.None? && Watch(NewMonitor, log).Some?
    && Sound(b, Watch(NewMonitor, log).value) && !Watch(NewMonitor, log).value.due
  }

  lemma StaysWatched(b: Base, log: seq<Event>, inputs: seq<Input>)
    requires Watched(b, log) && RunConforms(b, inputs)
    ensures Watched(Run(b, inputs).0, log + Run(b, inputs).1)
  {
    RunKeeps(b, Watch(NewMonitor, log).value, inputs);
    WatchAppend(NewMonitor, log, Run(b, inputs).1);
  }

  lemma RunFirst(b: Base, inputs: seq<Input>, before: seq<Event>)
    ensures inputs == [] ==> Run(b, inputs) == (b, []) && before + [] == before
    ensures inputs != [] ==>
              var (b1, e1) := Next(b, inputs[0]);
              && Run(b, inputs).0 == Run(b1, inputs[1..]).0
              && before + Run(b, inputs).1 == before + e1 + Run(b1, inputs[1..]).1
  {
    if inputs != [] {
      var (b1, e1) := Next(b, inputs[0]);
      var e2 := Run(b1, inputs[1..]).1;
      assert before + e1 + e2 == before + (e1 + e2);
    }
  }

  /** Over every run, whatever CAPI answers and whatever the handlers do then: messages are put in the order
      of AllocAndPutMsg and at most once, one at a time, none between a release and the next registration and
      none from before a registration after it; when CAPI does not know the application the release comes next;
      and every buffer is in the pool or in the queue, once. */
  lemma PutInOrder(inputs: seq<Input>, id: nat)
    requires RunConforms(NewBase, inputs)
    ensures var (b, log) := Run(NewBase, inputs);
            && Watch(NewMonitor, log).Some? && !Watch(NewMonitor, log).value.due
            && b.cur == None
            && multiset(b.store.pool)[id] + Ids(b.store.queue)[id] == if id < b.store.made then 1 else 0
  {
    RunKeeps(NewBase, NewMonitor, inputs);
    InOnePlace(Run(NewBase, inputs).0.store, multiset{}, id);
  }

  // ---- a drain without errors ----------------------------------------------------------------

  /** The messages up to the first that asks for the release. */
  function Sendable(queue: seq<Buffer>): seq<Buffer> {
    if queue == [] || queue[0].data.release then [] else [queue[0]] + Sendable(queue[1..])
  }

  function PutsOf(queue: seq<Buffer>): seq<Event> {
    if queue == [] then [] else [Put(queue[0].data.serial), Done(false)] + PutsOf(queue[1..])
  }

  /** Without errors everything before a message that asks for the release is put, in order; then the release
      follows, and what is queued behind it stays. */
  lemma {:induction false} DrainsAll(b: Base, results: seq<Result>)
    requires b.cur.None? && b.registered && forall k :: 0 <= k < |results| ==> results[k] == Ok
    ensures var n := |Sendable(b.store.queue)|;
            var (b', log) := Drained(b, results);
            if n < |b.store.queue| then
              && log == PutsOf(b.store.queue[..n]) + [CapiRelease]
              && b'.store.queue == b.store.queue[n + 1..] && !b'.registered
            else log == PutsOf(b.store.queue) && b'.store.queue == [] && b'.registered
    decreases |b.store.queue|
  {
    var queue := b.store.queue;
    if queue != [] && !queue[0].data.release {
      var b2 := FreeCur(Taken(b));
      DrainsAll(b2, Tail(results));
      DrainedOnce(b, results);
      var n := |Sendable(queue[1..])|;
      if n < |queue[1..]| {
        assert queue[..n + 1][1..] == queue[1..][..n];
        assert queue[1..][n + 1..] == queue[n + 2..];
      }
    }
  }

  // ---- a drain with errors that are answered by messages -------------------------------------

  predicate NoRelease(queue: seq<Buffer>) {
    forall k :: 0 <= k < |queue| ==> !queue[k].data.release
  }

  /** The messages from one number up to another. */
  function PutsFrom(from: nat, end: nat): seq<Event>
    requires from <= end
    decreases end - from
  {
    if from == end then [] else [Put(from), Done(false)] + PutsFrom(from + 1, end)
  }

  /** How many messages the handlers add in answer to a result. */
  function Answers(result: Result): nat {
    if result.Failed? then |result.reaction| else 0
  }

  /** The handlers answer with messages only. */
  predicate Gentle(result: Result) {
    result != IllAppNr && (result.Failed? ==> forall k :: 0 <= k < |result.reaction| ==> result.reaction[k].Message?)
  }

  /** What the first results add. */
  function Added(results: seq<Result>, n: nat): nat {
    if n == 0 || results == [] then 0 else Answers(results[0]) + Added(results[1..], n - 1)
  }

  lemma {:induction false} PutsOfAppend(x: seq<Buffer>, y: seq<Buffer>)
    ensures PutsOf(x + y) == PutsOf(x) + PutsOf(y)
  {
    if x == [] {
      assert x + y == y;
    } else {
      assert (x + y)[1..] == x[1..] + y;
      PutsOfAppend(x[1..], y);
    }
  }

  lemma {:induction false} PutsFromAppend(from: nat, mid: nat, to: nat)
    requires from <= mid <= to
    ensures PutsFrom(from, to) == PutsFrom(from, mid) + PutsFrom(mid, to)
    decreases mid - from
  {
    if from < mid {
      PutsFromAppend(from + 1, mid, to);
    }
  }

  lemma {:induction false} ReactQueues(b: Base, calls: seq<Call>)
    requires NoRelease(b.store.queue) && forall k :: 0 <= k < |calls| ==> calls[k].Message?
    ensures var b' := React(b, calls);
            && b'.next == b.next + |calls| && b'.registered == b.registered && b'.cur == b.cur
            && NoRelease(b'.store.queue) && |b'.store.queue| == |b.store.queue| + |calls|
            && PutsOf(b'.store.queue) == PutsOf(b.store.queue) + PutsFrom(b.next, b.next + |calls|)
    decreases |calls|
  {
    if calls != [] {
      var b1 := Queued(b, false);
      var last := [Buffer(AllocFrom(b.store).1, DynStore.Message(b.next, false))];
      assert b1.store.queue == b.store.queue + last;
      ReactQueues(b1, calls[1..]);
      PutsOfAppend(b.store.queue, last);
      assert last[1..] == [] && PutsOf(last) == [Put(b.next), Done(false)] + [];
      assert PutsOf(last) + PutsFrom(b.next + 1, b.next + |calls|) == PutsFrom(b.next, b.next + |calls|);
    }
  }

  /** A drain that puts what waits and then what is added, and leaves nothing. */
  ghost predicate PutsAll(b: Base, results: seq<Result>, step: Step) {
    var (b', log) := step;
    && b'.store.queue == [] && b'.registered && b.next <= b'.next
    && log == PutsOf(b.store.queue) + PutsFrom(b.next, b'.next)
    && b'.next == b.next + Added(results, |b.store.queue| + (b'.next - b.next))
  }

  lemma Chained(head: seq<Event>, rest: seq<Event>, x: seq<Event>, y: seq<Event>)
    ensures head + (rest + x + y) == head + rest + (x + y)
  {
  }

  lemma PutsAllTurn(b: Base, results: seq<Result>, b2: Base, step: Step)
    requires b.cur.None? && b.registered && NoRelease(b.store.queue) && b.store.queue != [] && Gentle(Head(results))
    requires b2 == Behind(b, Head(results)) && PutsAll(b2, Tail(results), step)
    ensures PutsAll(b, results, (step.0, [Put(b.store.queue[0].data.serial), Done(false)] + step.1))
  {
    var queue, n := b.store.queue, Answers(Head(results));
    AfterAnswer(b, results, b2);
    PutsFromAppend(b.next, b.next + n, step.0.next);
    Chained([Put(queue[0].data.serial), Done(false)], PutsOf(queue[1..]), PutsFrom(b.next, b.next + n),
            PutsFrom(b.next + n, step.0.next));
    AddedMore(results, |queue| + (step.0.next - b.next));
  }

  lemma AddedMore(results: seq<Result>, n: nat)
    requires n > 0
    ensures Added(results, n) == Answers(Head(results)) + Added(Tail(results), n - 1)
  {
  }

  /** When the handlers answer errors with messages only, everything that waits is put, and then everything that they
      add, in the order of the numbers; nothing is left. */
  lemma {:induction false} DrainsAnswers(b: Base, results: seq<Result>)
    requires b.cur.None? && b.registered && NoRelease(b.store.queue)
    requires forall k :: 0 <= k < |results| ==> Gentle(results[k])
    ensures PutsAll(b, results, Drained(b, results))
    decreases |results|, |b.store.queue|
  {
    if b.store.queue != [] {
      AfterAnswer(b, results, Behind(b, Head(results)));
      TurnDecreases(b, results);
      DrainsAnswers(Behind(b, Head(results)), Tail(results));
      PutsAllTurn(b, results, Behind(b, Head(results)), Drained(Behind(b, Head(results)), Tail(results)));
      DrainedOnce(b, results);
    }
  }

  /** The queue behind the first message, and what its result adds. */
  lemma AfterAnswer(b: Base, results: seq<Result>, b2: Base)
    requires b.cur.None? && NoRelease(b.store.queue) && b.store.queue != [] && Gentle(Head(results))
    requires b2 == FreeCur(Handled(Taken(b), Head(results)))
    ensures var n := Answers(Head(results));
            && b2.cur.None? && b2.registered == b.registered && b2.next == b.next + n && NoRelease(b2.store.queue)
            && |b2.store.queue| == |b.store.queue| - 1 + n
            && PutsOf(b2.store.queue) == PutsOf(b.store.queue[1..]) + PutsFrom(b.next, b.next + n)
  {
    var b1 := Taken(b);
    assert b1.store.queue == b.store.queue[1..];
    if Head(results).Failed? {
      ReactQueues(b1, Head(results).reaction);
    } else {
      assert PutsOf(b1.store.queue) + [] == PutsOf(b1.store.queue);
    }
  }
}
