/** The log of the transfer channel, read by an observer that knows what each call promises, but not the code. */
module TransferLedger {
  import opened Options
  import opened DataHand
  import opened Transfer

  /** The last callback of a disconnection. */
  type Farewell = e: Event | e == Inquiry || e == Ended witness Inquiry

  /** A call of the channel below. */
  type Order = e: Event | e.Hangup? || e == Release witness Release

  /** A call in progress, by what the observer expects of it next.
        Putting: the block is taken under a handle not in use, unless blocks are refused or all handles are in use;
        Sending: the message with that handle, and nothing before it;
        Confirming: the completion of what a handle stores, or a hang-up if it stores nothing;
        Clearing: completions from the lowest handle on, and when none is left the last callback, if there is one;
        Hanging: a call of the channel below;
        Calling: a callback was made, and calls may come from within it;
        Ending: nothing more. */
  datatype Frame =
    | Putting(id: nat, connected: bool) | Sending(handle: nat) | Confirming(handle: nat)
    | Clearing(last: Option<Farewell>) | Hanging(order: Order) | Calling | Ending

  datatype Calls = Outside | Within(frame: Frame, caller: Calls)

  /** What the observer knows: which block each handle stores, whether a call is active, whether blocks are refused,
      and the calls in progress. */
  datatype View = View(live: seq<Option<nat>>, active: bool, refuses: bool, calls: Calls)

  predicate Empty(live: seq<Option<nat>>) {
    forall h :: 0 <= h < |live| ==> live[h] == None
  }

  predicate Stores(live: seq<Option<nat>>, handle: nat) {
    handle < |live| && live[handle].Some?
  }

  predicate Full(live: seq<Option<nat>>) {
    forall h :: 0 <= h < |live| ==> live[h].Some?
  }

  function Begun(v: View, input: Input): Frame {
    match input
    case PutData(id, connected) => Putting(id, connected)
    case DataB3Conf(handle) => Confirming(handle)
    case DisconnectB3Ind => Clearing(Some(Inquiry))
    case DisconnectInd(dialling) =>
      if v.active then Clearing(if dialling then None else Some(Ended)) else Ending
    case Disconnect(Normal) => Hanging(Hangup(false))
    case Disconnect(Fast) => Hanging(Hangup(true))
    case Disconnect(Hard) => Hanging(Release)
    case Disconnect(_) => if Empty(v.live) then Hanging(Hangup(false)) else Ending
    case _ => Ending
  }

  function Active(active: bool, input: Input): bool {
    match input
    case SetActive(on) => on
    case DisconnectInd(_) => false
    case _ => active
  }

  /** What makes the channel refuse blocks or take them again: a reset, and the two waiting kinds of Disconnect. */
  function Refuses(v: View, input: Input): bool {
    match input
    case Mark(Reset) => true
    case FinishReset(_, listening) => v.refuses && listening
    case Disconnect(WaitWithPut) => v.refuses || !Empty(v.live)
    case Disconnect(WaitNoPut) => v.refuses && Empty(v.live)
    case _ => v.refuses
  }

  /** Calls come from outside or from within a callback. */
  predicate MayCall(calls: Calls) {
    calls.Outside? || calls.frame.Calling? || calls.frame.Clearing?
  }

  predicate MayEnd(v: View, frame: Frame) {
    match frame
    case Putting(_, _) => v.refuses || Full(v.live)
    case Clearing(None) => Empty(v.live)
    case Calling => true
    case Ending => true
    case _ => false
  }

  function Moved(v: View, live: seq<Option<nat>>, frame: Frame): View
    requires v.calls.Within?
  {
    v.(live := live, calls := v.calls.(frame := frame))
  }

  /** What an event of the innermost call makes of the view, or None if it must not come. */
  function Expect(v: View, e: Event): Option<View>
    requires v.calls.Within?
  {
    match (v.calls.frame, e)
    case (Putting(id, connected), Accepted(block, h)) =>
      if block == id && !v.refuses && h < |v.live| && v.live[h] == None then
        Some(Moved(v, v.live[h := Some(id)], if connected then Sending(h) else Confirming(h)))
      else None
    case (Sending(h), Request(g)) => if g == h then Some(Moved(v, v.live, Ending)) else None
    case (Confirming(h), Completed(id, g)) =>
      if g == h && h < |v.live| && v.live[h] == Some(id) then Some(Moved(v, v.live[h := None], Calling)) else None
    case (Confirming(h), Hangup(false)) => if Stores(v.live, h) then None else Some(Moved(v, v.live, Ending))
    case (Clearing(_), Completed(id, h)) =>
      if h < |v.live| && v.live[h] == Some(id) && Empty(v.live[..h]) then
        Some(Moved(v, v.live[h := None], v.calls.frame))
      else None
    case (Clearing(Some(last)), _) => if e == last && Empty(v.live) then Some(Moved(v, v.live, Calling)) else None
    case (Hanging(order), _) => if e == order then Some(Moved(v, v.live, Ending)) else None
    case _ => None
  }

  function Entered(v: View, input: Input): View {
    View(v.live, Active(v.active, input), Refuses(v, input), Within(Begun(v, input), v.calls))
  }

  function Watch(v: View, e: Event): Option<View> {
    if e.In? then
      if MayCall(v.calls) then Some(Entered(v, e.input)) else None
    else if v.calls.Outside? then None
    else if e == Out then
      if MayEnd(v, v.calls.frame) then Some(v.(calls := v.calls.caller)) else None
    else Expect(v, e)
  }

  function WatchAll(v: View, log: seq<Event>): Option<View>
    decreases |log|
  {
    if log == [] then Some(v)
    else
      var w := Watch(v, log[0]);
      if w.None? then None else WatchAll(w.value, log[1..])
  }

  /** A log leads from one view to another, and every event in it is one that may come. */
  predicate Shows(v: View, log: seq<Event>, w: View) {
    WatchAll(v, log) == Some(w)
  }

  lemma {:induction false} ShowsThen(v: View, x: seq<Event>, w: View, y: seq<Event>, u: View)
    requires Shows(v, x, w) && Shows(w, y, u)
    ensures Shows(v, x + y, u)
    decreases |x|
  {
    if x == [] {
      assert x + y == y;
    } else {
      assert (x + y)[1..] == x[1..] + y;
      ShowsThen(Watch(v, x[0]).value, x[1..], w, y, u);
    }
  }

  lemma ShowsOne(v: View, e: Event, w: View)
    requires Watch(v, e) == Some(w)
    ensures Shows(v, [e], w)
  {
    assert WatchAll(w, [e][1..]) == Some(w);
  }

  // ---- every run is one that the observer expects --------------------------------------------

  function At(c: Chan, calls: Calls): View {
    View(c.send.live, c.active, AnyOf(c.reseting, RESET), calls)
  }

  ghost predicate Fine(c: Chan) {
    Sound(c.send) && WaitBitsClear(c)
  }

  lemma EmptyCount(s: Store)
    ensures Empty(s.live) <==> Count(s.live) == 0
  {
    CountNone(s.live);
  }

  lemma {:induction false} CallbackShows(v: View, e: Event, c: Chan, calls: Calls)
    requires Fine(c) && MayCall(calls) && Watch(v, e) == Some(At(c, calls))
    ensures Shows(v, Callback(c, e).1, At(Callback(c, e).0, calls))
    decreases |c.app|, 0, 0
  {
    ShowsOne(v, e, At(c, calls));
    if c.app != [] {
      var d := c.(app := c.app[1..]);
      RunShows(d, c.app[0], calls);
      ShowsThen(v, [e], At(c, calls), Run(d, c.app[0]).1, At(Run(d, c.app[0]).0, calls));
    }
  }

  lemma {:induction false} ConfShows(c: Chan, handle: nat, caller: Calls)
    requires Fine(c)
    ensures var (d, es) := DoDataB3Conf(c, handle);
            var frame := if Stores(c.send.live, handle) then Calling else Ending;
            Shows(At(c, Within(Confirming(handle), caller)), es, At(d, Within(frame, caller)))
    decreases |c.app|, 1, 0
  {
    var v := At(c, Within(Confirming(handle), caller));
    if Stores(c.send.live, handle) {
      FreeKeeps(c.send, handle);
      var d, e := c.(send := FreeEntry(c.send, handle).0), Completed(c.send.live[handle].value, handle);
      CallbackShows(v, e, d, Within(Calling, caller));
      assert Callback(d, e).1 + [] == Callback(d, e).1;
    } else {
      ShowsOne(v, Hangup(false), At(c, Within(Ending, caller)));
    }
  }

  lemma {:induction false} HandShows(v: View, c: Chan, id: nat, handle: nat, connected: bool, caller: Calls)
    requires Fine(c) && Stores(c.send.live, handle)
    requires Watch(v, Accepted(id, handle))
             == Some(At(c, Within(if connected then Sending(handle) else Confirming(handle), caller)))
    ensures var (d, es) := DoHand(c, id, handle, connected);
            Shows(v, es, At(d, Within(if connected then Ending else Calling, caller)))
    decreases |c.app|, 1, 1
  {
    var w := At(c, Within(if connected then Sending(handle) else Confirming(handle), caller));
    ShowsOne(v, Accepted(id, handle), w);
    if connected {
      ShowsOne(w, Request(handle), At(c, Within(Ending, caller)));
      ShowsThen(v, [Accepted(id, handle)], w, [Request(handle)], At(c, Within(Ending, caller)));
    } else {
      ConfShows(c, handle, caller);
      var (d, es) := DoDataB3Conf(c, handle);
      ShowsThen(v, [Accepted(id, handle)], w, es, At(d, Within(Calling, caller)));
    }
  }

  /** The log of a call, its end included. */
  predicate Finishes(v: View, es: seq<Event>, w: View) {
    Shows(v, es + [Out], w)
  }

  lemma ShowsOut(v: View, es: seq<Event>, d: Chan, frame: Frame, caller: Calls)
    requires Shows(v, es, At(d, Within(frame, caller))) && MayEnd(At(d, caller), frame)
    ensures Finishes(v, es, At(d, caller))
  {
    ShowsOne(At(d, Within(frame, caller)), Out, At(d, caller));
    ShowsThen(v, es, At(d, Within(frame, caller)), [Out], At(d, caller));
  }

  lemma PutRefused(c: Chan, id: nat, connected: bool)
    requires Sound(c.send) && (AnyOf(c.reseting, DISCONNECT_WAIT_NO | RESET) || c.send.free == [])
    ensures DoPutData(c, id, connected) == (c, [])
  {
    if !AnyOf(c.reseting, DISCONNECT_WAIT_NO | RESET) {
      assert DoPutData(c, id, connected) == DoEnter(c, id, connected) == (c, []);
    }
  }

  lemma {:induction false} PutShows(c: Chan, id: nat, connected: bool, caller: Calls)
    requires Fine(c)
    ensures var (d, es) := DoPutData(c, id, connected);
            Finishes(At(c, Within(Putting(id, connected), caller)), es, At(d, caller))
    decreases |c.app|, 1, 3
  {
    var v := At(c, Within(Putting(id, connected), caller));
    var (d, es) := DoPutData(c, id, connected);
    StatusBits(c.reseting);
    if AnyOf(c.reseting, DISCONNECT_WAIT_NO | RESET) || c.send.free == [] {
      PutRefused(c, id, connected);
      CountNone(c.send.live);
      ShowsOut(v, es, d, Putting(id, connected), caller);
    } else {
      NewKeeps(c.send, id);
      var e, handle := c.(send := NewEntry(c.send, id).0), c.send.free[0];
      assert DoPutData(c, id, connected) == DoEnter(c, id, connected) == DoHand(e, id, handle, connected);
      HandShows(v, e, id, handle, connected, caller);
      ShowsOut(v, es, d, if connected then Ending else Calling, caller);
    }
  }

  lemma {:induction false} ResetShows(c: Chan, last: Option<Farewell>, caller: Calls)
    requires Fine(c)
    ensures var (d, es) := DoReset(c);
            Empty(d.send.live)
            && Shows(At(c, Within(Clearing(last), caller)), es, At(d, Within(Clearing(last), caller)))
    decreases |c.app|, 1, Count(c.send.live)
  {
    DelNextFinds(c.send);
    EmptyCount(c.send);
    EmptyCount(DoReset(c).0.send);
    var calls := Within(Clearing(last), caller);
    var h := Lowest(c.send.live);
    if Stores(c.send.live, h) {
      var d, e := c.(send := DelNext(c.send).0), Completed(c.send.live[h].value, h);
      CallbackShows(At(c, calls), e, d, calls);
      var (c1, e1) := Callback(d, e);
      ResetShows(c1, last, caller);
      var (c2, e2) := DoReset(c1);
      ShowsThen(At(c, calls), e1, At(c1, calls), e2, At(c2, calls));
    }
  }

  /** The loop and the callback behind it. */
  lemma {:induction false} EndShows(c: Chan, last: Farewell, caller: Calls)
    requires Fine(c)
    ensures var (c1, e1) := DoReset(c);
            var (c2, e2) := Callback(c1, last);
            Shows(At(c, Within(Clearing(Some(last)), caller)), e1 + e2, At(c2, Within(Calling, caller)))
    decreases |c.app|, 2, 0
  {
    var (c1, e1) := DoReset(c);
    var (c2, e2) := Callback(c1, last);
    var clearing := Within(Clearing(Some(last)), caller);
    ResetShows(c, Some(last), caller);
    CallbackShows(At(c1, clearing), last, c1, Within(Calling, caller));
    ShowsThen(At(c, clearing), e1, At(c1, clearing), e2, At(c2, Within(Calling, caller)));
  }

  lemma {:induction false} EndCallShows(c: Chan, dialling: bool, caller: Calls)
    requires Fine(c)
    ensures var (d, es) := DoEndCall(c, dialling);
            Finishes(At(c, Within(Clearing(if dialling then None else Some(Ended)), caller)), es, At(d, caller))
    decreases |c.app|, 2, 1
  {
    var (d, es) := DoEndCall(c, dialling);
    var frame := Clearing(if dialling then None else Some(Ended));
    if dialling {
      ResetShows(c, None, caller);
      assert DoReset(c).1 + [] == DoReset(c).1;
      ShowsOut(At(c, Within(frame, caller)), es, d, frame, caller);
    } else {
      EndShows(c, Ended, caller);
      ShowsOut(At(c, Within(frame, caller)), es, d, Calling, caller);
    }
  }

  /** The bits of the status are apart from each other, and 4 is that of a reset. */
  lemma StatusBits(status: bv8)
    ensures AnyOf(status & !DISCONNECT_WAIT, RESET) == AnyOf(status, RESET)
    ensures AnyOf(status | WAIT_RELEASE, RESET) == AnyOf(status, RESET)
    ensures AnyOf(status | WAIT_REGISTER, RESET) == AnyOf(status, RESET)
    ensures AnyOf(status | RESET, RESET) && AnyOf(4, RESET)
    ensures !AnyOf(2, RESET) && !AnyOf(WAIT_REGISTER, RESET) && !AnyOf(0, RESET)
    ensures status & DISCONNECT_WAIT == 0 ==> AnyOf(status, DISCONNECT_WAIT_NO | RESET) == AnyOf(status, RESET)
  {
  }

  lemma StatusAfter(c: Chan, input: Input, caller: Calls)
    requires Fine(c) && (input.Disconnect? || input.SetActive? || input.Mark? || input.FinishReset?)
    ensures AnyOf(DoInput(c, input).0.reseting, RESET) == Refuses(At(c, caller), input)
  {
    EmptyCount(c.send);
    StatusBits(c.reseting);
  }

  lemma DisconnectShows(c: Chan, kind: Kind, caller: Calls)
    requires Fine(c)
    ensures var (d, es) := DoDisconnect(c, kind);
            Finishes(Entered(At(c, caller), Disconnect(kind)), es, At(d, caller))
  {
    EmptyCount(c.send);
    StatusAfter(c, Disconnect(kind), caller);
    var (d, es) := DoDisconnect(c, kind);
    var frame := Begun(At(c, caller), Disconnect(kind));
    var v := Entered(At(c, caller), Disconnect(kind));
    if frame.Hanging? {
      ShowsOne(v, frame.order, At(d, Within(Ending, caller)));
    }
    ShowsOut(v, es, d, Ending, caller);
  }

  lemma {:induction false} InputShows(c: Chan, input: Input, caller: Calls)
    requires Fine(c)
    ensures var (d, es) := DoInput(c, input);
            Finishes(Entered(At(c, caller), input), es, At(d, caller))
    decreases |c.app|, 3, 0
  {
    match input {
      case PutData(id, connected) => PutShows(c, id, connected, caller);
      case DataB3Conf(handle) => ConfInputShows(c, handle, caller);
      case DisconnectB3Ind => DisconnectB3IndShows(c, caller);
      case DisconnectInd(dialling) => DisconnectIndShows(c, dialling, caller);
      case Disconnect(kind) => DisconnectShows(c, kind, caller);
      case _ => FieldShows(c, input, caller);
    }
  }

  lemma {:induction false} ConfInputShows(c: Chan, handle: nat, caller: Calls)
    requires Fine(c)
    ensures var (d, es) := DoDataB3Conf(c, handle);
            Finishes(Entered(At(c, caller), DataB3Conf(handle)), es, At(d, caller))
    decreases |c.app|, 2, 0
  {
    ConfShows(c, handle, caller);
    var (d, es) := DoDataB3Conf(c, handle);
    ShowsOut(At(c, Within(Confirming(handle), caller)), es, d, if Stores(c.send.live, handle) then Calling else Ending,
             caller);
  }

  lemma {:induction false} DisconnectB3IndShows(c: Chan, caller: Calls)
    requires Fine(c)
    ensures var (d, es) := DoDisconnectB3Ind(c);
            Finishes(Entered(At(c, caller), DisconnectB3Ind), es, At(d, caller))
    decreases |c.app|, 2, 2
  {
    StatusBits(c.reseting);
    EndShows(Unwaiting(c), Inquiry, caller);
    var (d, es) := DoDisconnectB3Ind(c);
    ShowsOut(At(c, Within(Clearing(Some(Inquiry)), caller)), es, d, Calling, caller);
  }

  lemma FieldShows(c: Chan, input: Input, caller: Calls)
    requires Fine(c) && (input.SetActive? || input.Mark? || input.FinishReset?)
    ensures var (d, es) := DoInput(c, input);
            Finishes(Entered(At(c, caller), input), es, At(d, caller))
  {
    StatusAfter(c, input, caller);
    var (d, es) := DoInput(c, input);
    ShowsOut(At(d, Within(Ending, caller)), es, d, Ending, caller);
  }

  lemma {:induction false} DisconnectIndShows(c: Chan, dialling: bool, caller: Calls)
    requires Fine(c)
    ensures var (d, es) := DoDisconnectInd(c, dialling);
            Finishes(Entered(At(c, caller), DisconnectInd(dialling)), es, At(d, caller))
    decreases |c.app|, 2, 2
  {
    var (d, es) := DoDisconnectInd(c, dialling);
    StatusBits(c.reseting);
    if c.active {
      EndCallShows(Unwaiting(c.(active := false)), dialling, caller);
    } else {
      ShowsOut(At(d, Within(Ending, caller)), es, d, Ending, caller);
    }
  }

  lemma {:induction false} NextShows(c: Chan, input: Input, caller: Calls)
    requires Fine(c) && MayCall(caller)
    ensures Shows(At(c, caller), Next(c, input).1, At(Next(c, input).0, caller))
    decreases |c.app|, 3, 1
  {
    var (d, es) := DoInput(c, input);
    ShowsOne(At(c, caller), In(input), Entered(At(c, caller), input));
    InputShows(c, input, caller);
    ShowsThen(At(c, caller), [In(input)], Entered(At(c, caller), input), es + [Out], At(d, caller));
  }

  /** Whatever is called, from outside and from within the callbacks: every event of the log is one that the
      observer expects when it comes, and in the end it knows what the handles store. */
  lemma {:induction false} RunShows(c: Chan, inputs: seq<Input>, caller: Calls)
    requires Fine(c) && MayCall(caller)
    ensures Shows(At(c, caller), Run(c, inputs).1, At(Run(c, inputs).0, caller))
    decreases |c.app|, 4, |inputs|
  {
    if inputs != [] {
      NextShows(c, inputs[0], caller);
      var (c1, e1) := Next(c, inputs[0]);
      RunShows(c1, inputs[1..], caller);
      var (c2, e2) := Run(c1, inputs[1..]);
      ShowsThen(At(c, caller), e1, At(c1, caller), e2, At(c2, caller));
    }
  }

  // ---- what follows for the log --------------------------------------------------------------

  /** What stands around an acceptance, wherever it is in a log: it is the first event of its PutData, and the next
      event is the message with the same handle while the channel is connected, and else the completion of the block.
      No message is sent but for an acceptance just before it. */
  predicate InPlace(log: seq<Event>, k: nat)
    requires k < |log|
  {
    match log[k]
    case Accepted(id, h) =>
      && 0 < k < |log| - 1
      && (|| (log[k - 1] == In(PutData(id, true)) && log[k + 1] == Request(h))
          || (log[k - 1] == In(PutData(id, false)) && log[k + 1] == Completed(id, h)))
    case Request(h) => 0 < k && log[k - 1].Accepted? && log[k - 1].handle == h
    case _ => true
  }

  lemma {:induction false} Splits(v: View, log: seq<Event>, k: nat)
    requires k < |log| && WatchAll(v, log).Some?
    ensures var w := WatchAll(v, log[..k]);
            && w.Some? && Watch(w.value, log[k]).Some?
            && WatchAll(v, log[..k + 1]) == Watch(w.value, log[k])
    decreases k
  {
    var w := Watch(v, log[0]);
    if k == 0 {
      assert log[..1][1..] == [] && log[..0] == [];
    } else {
      Splits(w.value, log[1..], k - 1);
      assert log[..k][1..] == log[1..][..k - 1] && log[..k + 1][1..] == log[1..][..k];
    }
  }

  /** Every call in progress but the innermost has made a callback. */
  predicate CallersCall(calls: Calls) {
    calls.Outside? || (MayCall(calls.caller) && CallersCall(calls.caller))
  }

  /** What the innermost call says about the event before. */
  predicate Before(log: seq<Event>, w: View) {
    && CallersCall(w.calls)
    && (w.calls.Within? && w.calls.frame.Putting? ==>
          log != [] && log[|log| - 1] == In(PutData(w.calls.frame.id, w.calls.frame.connected)))
    && (w.calls.Within? && w.calls.frame.Sending? ==>
          log != [] && log[|log| - 1].Accepted? && log[|log| - 1].handle == w.calls.frame.handle)
  }

  lemma {:induction false} SeenBefore(v: View, log: seq<Event>, k: nat)
    requires v.calls.Outside? && k <= |log| && WatchAll(v, log).Some?
    ensures WatchAll(v, log[..k]).Some? && Before(log[..k], WatchAll(v, log[..k]).value)
    decreases k
  {
    if k == 0 {
      assert log[..0] == [];
    } else {
      SeenBefore(v, log, k - 1);
      Splits(v, log, k - 1);
      StepBefore(log[..k - 1], WatchAll(v, log[..k - 1]).value, log[k - 1]);
      assert log[..k] == log[..k - 1] + [log[k - 1]];
    }
  }

  lemma StepBefore(log: seq<Event>, w: View, e: Event)
    requires Before(log, w) && Watch(w, e).Some?
    ensures Before(log + [e], Watch(w, e).value)
  {
  }

  lemma AcceptedInPlace(before: seq<Event>, w: View, e: Event, next: Event)
    requires Before(before, w) && e.Accepted? && Watch(w, e).Some? && Watch(Watch(w, e).value, next).Some?
    ensures before != []
    ensures var last := before[|before| - 1];
            || (last == In(PutData(e.id, true)) && next == Request(e.handle))
            || (last == In(PutData(e.id, false)) && next == Completed(e.id, e.handle))
  {
  }

  lemma AllInPlace(v: View, log: seq<Event>, k: nat)
    requires v.calls.Outside? && k < |log| && WatchAll(v, log).Some? && WatchAll(v, log).value.calls.Outside?
    ensures InPlace(log, k)
  {
    SeenBefore(v, log, k);
    Splits(v, log, k);
    var w := WatchAll(v, log[..k]).value;
    assert k > 0 ==> log[..k][|log[..k]| - 1] == log[k - 1];
    if log[k].Request? {
      assert w.calls.frame.Sending?;
    } else if log[k].Accepted? {
      assert w.calls.frame.Putting?;
      assert Watch(w, log[k]).value.calls.Within?;
      assert log[..k + 1] == log || k + 1 < |log|;
      Splits(v, log, k + 1);
      AcceptedInPlace(log[..k], w, log[k], log[k + 1]);
    }
  }

  /** Over every run: a block accepted while connected goes to the line at once and once, under the handle that
      stores it, and nothing else does. */
  lemma AcceptedGoesToTheLine(max: nat, app: seq<seq<Input>>, inputs: seq<Input>, k: nat)
    requires k < |Run(NewChan(max, app), inputs).1|
    ensures InPlace(Run(NewChan(max, app), inputs).1, k)
  {
    var c := NewChan(max, app);
    RunShows(c, inputs, Outside);
    AllInPlace(At(c, Outside), Run(c, inputs).1, k);
  }

  /** PutData takes the block if and only if no status bit refuses it and a handle is free.  While connected its
      confirmation, with nothing in between, completes that very block, and the store is as it was. */
  lemma PutThenConf(c: Chan, id: nat)
    requires Fine(c)
    ensures var (d, es) := DoPutData(c, id, true);
            && (es != [] <==> !AnyOf(c.reseting, DISCONNECT_WAIT_NO | RESET) && Count(c.send.live) < |c.send.live|)
            && (es != [] ==>
                  exists h: nat :: h < |c.send.live| && c.send.live[h] == None && es == [Accepted(id, h), Request(h)]
                              && DoDataB3Conf(d, h) == Callback(c, Completed(id, h)))
  {
    NewIsDistinct(c.send, id);
    NewKeeps(c.send, id);
    if !AnyOf(c.reseting, DISCONNECT_WAIT_NO | RESET) && c.send.free != [] {
      var d, h := c.(send := NewEntry(c.send, id).0), c.send.free[0];
      assert DoPutData(c, id, true) == DoEnter(c, id, true) == DoHand(d, id, h, true);
      assert [Accepted(id, h)] + [Request(h)] == [Accepted(id, h), Request(h)];
      assert DoHand(d, id, h, true) == (d, [Accepted(id, h), Request(h)]);
      var (c1, es) := Callback(c, Completed(id, h));
      assert es + [] == es;
    } else {
      PutRefused(c, id, true);
    }
  }
}
