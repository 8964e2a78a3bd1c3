/** CTransferChannel: data blocks put by the application, their confirmations, and disconnection. */
module Transfer {
  import opened Options
  import opened Sequences
  import opened DataHand

  const WAIT_REGISTER: bv8 := 0x01
  const WAIT_RELEASE: bv8 := 0x02
  const RESET: bv8 := 0x04
  const DISCONNECT_WAIT_NO: bv8 := 0x08
  const DISCONNECT_WAIT: bv8 := 0x18

  const MAX_OUTSTANDING_FRAMES := 8

  datatype Kind = Hard | Fast | Normal | WaitNoPut | WaitWithPut
  datatype Flag = WaitRegister | WaitRelease | Reset

  /** The calls of the application and of the channel below.  The last three stand for what else touches the
      fields: a call begins or fails, a status bit is set, and the end of a release. */
  datatype Input =
    | PutData(id: nat, connected: bool) | DataB3Conf(handle: nat)
    | DisconnectB3Ind | DisconnectInd(dialling: bool) | Disconnect(kind: Kind)
    | SetActive(active: bool) | Mark(flag: Flag) | FinishReset(waitRegister: bool, listening: bool)

  /** `app` is what happens within the callbacks to come, one list of calls for each of them; they may put
      again, hang up, and let the channel below report anything.  When it is used up callbacks do nothing. */
  datatype Chan = Chan(send: Store, active: bool, reseting: bv8, app: seq<seq<Input>>)

  /** In and Out: a call begins and ends; Accepted: PutData takes a block and stores it under a handle; Request: it
      goes to the line under that handle; Completed, Inquiry and Ended: the callbacks PutDataComplete (for the block
      that the handle stored), DisconnectInquiry and IsDisconnected; Hangup and Release: calls of the channel below. */
  datatype Event =
    | In(input: Input) | Out
    | Accepted(id: nat, handle: nat) | Request(handle: nat) | Completed(id: nat, handle: nat)
    | Inquiry | Ended | Hangup(fast: bool) | Release

  type Step = (Chan, seq<Event>)

  function NewChan(max: nat, app: seq<seq<Input>>): (c: Chan)
    ensures Sound(c.send)
  {
    NewStoreIsSound(max);
    Chan(NewStore(max), false, 0, app)
  }

  predicate AnyOf(value: bv8, bits: bv8) {
    value & bits != 0
  }

  function Bits(flag: Flag): bv8 {
    match flag
    case WaitRegister => WAIT_REGISTER
    case WaitRelease => WAIT_RELEASE
    case Reset => RESET
  }

  predicate WaitBitsClear(c: Chan) {
    c.reseting & DISCONNECT_WAIT == 0
  }

  /** What every call keeps: the free list, that callbacks are used up, and status bits that nothing sets. */
  ghost predicate Keeps(c: Chan, d: Chan) {
    Sound(d.send) && |d.app| <= |c.app| && (WaitBitsClear(c) ==> WaitBitsClear(d))
  }

  /** A callback, and what happens within it. */
  function Callback(c: Chan, e: Event): (r: Step)
    requires Sound(c.send)
    ensures Keeps(c, r.0) && (c.app == [] ==> r == (c, [e])) && (c.app != [] ==> |r.0.app| < |c.app|)
    decreases |c.app|, 0, 0
  {
    if c.app == [] then (c, [e])
    else
      var (c1, es) := Run(c.(app := c.app[1..]), c.app[0]);
      (c1, [e] + es)
  }

  function DoDataB3Conf(c: Chan, handle: nat): (r: Step)
    requires Sound(c.send)
    ensures Keeps(c, r.0)
    decreases |c.app|, 1, 0
  {
    FreeKeeps(c.send, handle);
    var (send, id) := FreeEntry(c.send, handle);
    if id.None? then (c, [Hangup(false)])
    else
      var (c1, es) := Callback(c.(send := send), Completed(id.value, handle));
      (c1, es + if AnyOf(c1.reseting, DISCONNECT_WAIT) && Count(c1.send.live) == 0 then [Hangup(false)] else [])
  }

  function DoPutData(c: Chan, id: nat, connected: bool): (r: Step)
    requires Sound(c.send)
    ensures Keeps(c, r.0)
    decreases |c.app|, 1, 3
  {
    if AnyOf(c.reseting, DISCONNECT_WAIT_NO | RESET) then (c, []) else DoEnter(c, id, connected)
  }

  function DoEnter(c: Chan, id: nat, connected: bool): (r: Step)
    requires Sound(c.send)
    ensures Keeps(c, r.0)
    decreases |c.app|, 1, 2
  {
    NewKeeps(c.send, id);
    var (send, handle) := NewEntry(c.send, id);
    if handle.None? then (c, []) else DoHand(c.(send := send), id, handle.value, connected)
  }

  /** DataB3Req of the channel below: a message, or at once the confirmation. */
  function DoHand(c: Chan, id: nat, handle: nat, connected: bool): (r: Step)
    requires Sound(c.send)
    ensures Keeps(c, r.0)
    decreases |c.app|, 1, 1
  {
    var (c1, es) := if connected then (c, [Request(handle)]) else DoDataB3Conf(c, handle);
    (c1, [Accepted(id, handle)] + es)
  }

  /** ResetSendBlock: the loop over DelNextEntry. */
  function DoReset(c: Chan): (r: Step)
    requires Sound(c.send)
    ensures Keeps(c, r.0) && Count(r.0.send.live) == 0
    decreases |c.app|, 1, Count(c.send.live), 0
  {
    DelNextFinds(c.send);
    var (send, id) := DelNext(c.send);
    if id.None? then (c, [])
    else
      var (c1, e1) := Callback(c.(send := send), Completed(id.value, Lowest(c.send.live)));
      var (c2, e2) := DoReset(c1);
      (c2, e1 + e2)
  }

  /** The status before the loop. */
  function Unwaiting(c: Chan): (d: Chan)
    ensures WaitBitsClear(d)
  {
    c.(reseting := c.reseting & !DISCONNECT_WAIT)
  }

  function DoDisconnectB3Ind(c: Chan): (r: Step)
    requires Sound(c.send)
    ensures Keeps(c, r.0)
    decreases |c.app|, 2, 0
  {
    var (c1, e1) := DoReset(Unwaiting(c));
    var (c2, e2) := Callback(c1, Inquiry);
    (c2, e1 + e2)
  }

  /** While an incoming call is still being dialled the application knows nothing of it. */
  function DoDisconnectInd(c: Chan, dialling: bool): (r: Step)
    requires Sound(c.send)
    ensures Keeps(c, r.0)
    decreases |c.app|, 2, 0
  {
    if c.active then DoEndCall(Unwaiting(c.(active := false)), dialling) else (c, [])
  }

  function DoEndCall(c: Chan, dialling: bool): (r: Step)
    requires Sound(c.send)
    ensures Keeps(c, r.0)
    decreases |c.app|, 1, Count(c.send.live), 1
  {
    var (c1, e1) := DoReset(c);
    var (c2, e2) := if dialling then (c1, []) else Callback(c1, Ended);
    (c2, e1 + e2)
  }

  /** The two waiting kinds store 2 and 4 in the status. */
  function DoDisconnect(c: Chan, kind: Kind): (r: Step)
    requires Sound(c.send)
    ensures Keeps(c, r.0)
  {
    match kind
    case WaitWithPut => if Count(c.send.live) != 0 then (c.(reseting := 4), []) else (c, [Hangup(false)])
    case WaitNoPut => if Count(c.send.live) != 0 then (c.(reseting := 2), []) else (c, [Hangup(false)])
    case Normal => (c, [Hangup(false)])
    case Fast => (c, [Hangup(true)])
    case Hard => (c.(reseting := c.reseting | WAIT_RELEASE), [Release])
  }

  function DoFinishReset(c: Chan, waitRegister: bool, listening: bool): (d: Chan)
    requires Sound(c.send)
    ensures Keeps(c, d)
  {
    if !AnyOf(c.reseting, RESET) then c.(reseting := if waitRegister then WAIT_REGISTER else 0)
    else if !listening then c.(reseting := 0)
    else c
  }

  function DoMark(c: Chan, flag: Flag): (d: Chan)
    requires Sound(c.send)
    ensures Keeps(c, d)
  {
    c.(reseting := c.reseting | Bits(flag))
  }

  function Next(c: Chan, input: Input): (r: Step)
    requires Sound(c.send)
    ensures Keeps(c, r.0)
    decreases |c.app|, 3, 1
  {
    var (c1, es) := DoInput(c, input);
    (c1, [In(input)] + (es + [Out]))
  }

  function DoInput(c: Chan, input: Input): (r: Step)
    requires Sound(c.send)
    ensures Keeps(c, r.0)
    decreases |c.app|, 3, 0
  {
    match input
    case PutData(id, connected) => DoPutData(c, id, connected)
    case DataB3Conf(handle) => DoDataB3Conf(c, handle)
    case DisconnectB3Ind => DoDisconnectB3Ind(c)
    case DisconnectInd(dialling) => DoDisconnectInd(c, dialling)
    case Disconnect(kind) => DoDisconnect(c, kind)
    case SetActive(active) => (c.(active := active), [])
    case Mark(flag) => (DoMark(c, flag), [])
    case FinishReset(waitRegister, listening) => (DoFinishReset(c, waitRegister, listening), [])
  }

  /** Calls in a row, from outside or within a callback. */
  function Run(c: Chan, inputs: seq<Input>): (r: Step)
    requires Sound(c.send)
    ensures Keeps(c, r.0)
    decreases |c.app|, 4, |inputs|
  {
    if inputs == [] then (c, [])
    else
      var (c1, e1) := Next(c, inputs[0]);
      var (c2, e2) := Run(c1, inputs[1..]);
      (c2, e1 + e2)
  }

  // ---- every accepted block is completed exactly once ----------------------------------------

  function Weight(id: nat, e: Event): int {
    match e
    case Accepted(block, _) => if block == id then 1 else 0
    case Completed(block, _) => if block == id then -1 else 0
    case _ => 0
  }

  /** How often a block was accepted, less how often it was completed. */
  function Pending(id: nat, log: seq<Event>): int {
    if log == [] then 0 else Weight(id, log[0]) + Pending(id, log[1..])
  }

  /** How many handles store a block. */
  function Outstanding(id: nat, live: seq<Option<nat>>): nat {
    if live == [] then 0 else (if live[0] == Some(id) then 1 else 0) + Outstanding(id, live[1..])
  }

  lemma {:induction false} PendingAppend(id: nat, x: seq<Event>, y: seq<Event>)
    ensures Pending(id, x + y) == Pending(id, x) + Pending(id, y)
  {
    if x == [] {
      assert x + y == y;
    } else {
      assert (x + y)[1..] == x[1..] + y;
      PendingAppend(id, x[1..], y);
    }
  }

  lemma PendingShort(id: nat, log: seq<Event>)
    ensures |log| == 1 ==> Pending(id, log) == Weight(id, log[0])
    ensures |log| == 2 ==> Pending(id, log) == Weight(id, log[0]) + Weight(id, log[1])
  {
  }

  lemma {:induction false} OutstandingUpdate(id: nat, live: seq<Option<nat>>, h: nat, x: Option<nat>)
    requires h < |live|
    ensures Outstanding(id, live[h := x]) == Outstanding(id, live)
            - (if live[h] == Some(id) then 1 else 0) + (if x == Some(id) then 1 else 0)
  {
    if h == 0 {
      assert live[0 := x][1..] == live[1..];
    } else {
      assert live[h := x][1..] == live[1..][h - 1 := x];
      OutstandingUpdate(id, live[1..], h - 1, x);
    }
  }

  lemma {:induction false} NoneOutstanding(id: nat, live: seq<Option<nat>>)
    requires Count(live) == 0
    ensures Outstanding(id, live) == 0
  {
    if live != [] {
      NoneOutstanding(id, live[1..]);
    }
  }

  /** The change in what is pending is the change in what is stored. */
  predicate Balanced(id: nat, c: Chan, step: Step) {
    Pending(id, step.1) == Outstanding(id, step.0.send.live) - Outstanding(id, c.send.live)
  }

  lemma BalancedThen(id: nat, c: Chan, x: Step, y: Step)
    requires Balanced(id, c, x) && Balanced(id, x.0, y)
    ensures Balanced(id, c, (y.0, x.1 + y.1))
  {
    PendingAppend(id, x.1, y.1);
  }

  lemma {:induction false} CallbackBalanced(id: nat, c: Chan, e: Event)
    requires Sound(c.send)
    ensures var r := Callback(c, e);
            Pending(id, r.1) == Weight(id, e) + Outstanding(id, r.0.send.live) - Outstanding(id, c.send.live)
    decreases |c.app|, 0, 0
  {
    PendingShort(id, [e]);
    if c.app != [] {
      var d := c.(app := c.app[1..]);
      RunBalanced(id, d, c.app[0]);
      PendingAppend(id, [e], Run(d, c.app[0]).1);
    }
  }

  lemma {:induction false} ConfBalanced(id: nat, c: Chan, handle: nat)
    requires Sound(c.send)
    ensures Balanced(id, c, DoDataB3Conf(c, handle))
    decreases |c.app|, 1, 0
  {
    PendingShort(id, [Hangup(false)]);
    if handle < |c.send.live| && c.send.live[handle].Some? {
      FreeKeeps(c.send, handle);
      OutstandingUpdate(id, c.send.live, handle, None);
      var d, e := c.(send := FreeEntry(c.send, handle).0), Completed(c.send.live[handle].value, handle);
      CallbackBalanced(id, d, e);
      PendingAppend(id, Callback(d, e).1, [Hangup(false)]);
      assert Callback(d, e).1 + [] == Callback(d, e).1;
    }
  }

  lemma {:induction false} PutBalanced(id: nat, c: Chan, put: nat, connected: bool)
    requires Sound(c.send)
    ensures Balanced(id, c, DoPutData(c, put, connected))
    decreases |c.app|, 1, 3
  {
    if !AnyOf(c.reseting, DISCONNECT_WAIT_NO | RESET) && c.send.free != [] {
      NewKeeps(c.send, put);
      var d, handle := c.(send := NewEntry(c.send, put).0), c.send.free[0];
      OutstandingUpdate(id, c.send.live, handle, Some(put));
      HandBalanced(id, d, put, handle, connected);
      assert DoPutData(c, put, connected) == DoEnter(c, put, connected) == DoHand(d, put, handle, connected);
    }
  }

  lemma {:induction false} HandBalanced(id: nat, c: Chan, put: nat, handle: nat, connected: bool)
    requires Sound(c.send)
    ensures var r := DoHand(c, put, handle, connected);
            Pending(id, r.1) == Weight(id, Accepted(put, handle))
                                + Outstanding(id, r.0.send.live) - Outstanding(id, c.send.live)
    decreases |c.app|, 1, 1
  {
    PendingShort(id, [Accepted(put, handle)]);
    PendingShort(id, [Request(handle)]);
    ConfBalanced(id, c, handle);
    PendingAppend(id, [Accepted(put, handle)], if connected then [Request(handle)] else DoDataB3Conf(c, handle).1);
  }

  lemma {:induction false} ResetBalanced(id: nat, c: Chan)
    requires Sound(c.send)
    ensures Balanced(id, c, DoReset(c))
    decreases |c.app|, 1, Count(c.send.live)
  {
    DelNextFinds(c.send);
    var (send, at) := DelNext(c.send);
    if at.Some? {
      var d, e := c.(send := send), Completed(at.value, Lowest(c.send.live));
      OutstandingUpdate(id, c.send.live, Lowest(c.send.live), None);
      CallbackBalanced(id, d, e);
      var (c1, e1) := Callback(d, e);
      ResetBalanced(id, c1);
      PendingAppend(id, e1, DoReset(c1).1);
    }
  }

  lemma {:induction false} EndBalanced(id: nat, c: Chan, e: Event)
    requires Sound(c.send) && Weight(id, e) == 0
    ensures Balanced(id, c, DoReset(c))
    ensures Balanced(id, c, (Callback(DoReset(c).0, e).0, DoReset(c).1 + Callback(DoReset(c).0, e).1))
    decreases |c.app|, 2, 0
  {
    ResetBalanced(id, c);
    CallbackBalanced(id, DoReset(c).0, e);
    BalancedThen(id, c, DoReset(c), Callback(DoReset(c).0, e));
  }

  lemma {:induction false} EndCallBalanced(id: nat, c: Chan, dialling: bool)
    requires Sound(c.send)
    ensures Balanced(id, c, DoEndCall(c, dialling))
    decreases |c.app|, 2, 1
  {
    EndBalanced(id, c, Ended);
    assert DoReset(c).1 + [] == DoReset(c).1;
  }

  lemma {:induction false} NextBalanced(id: nat, c: Chan, input: Input)
    requires Sound(c.send)
    ensures Balanced(id, c, Next(c, input))
    decreases |c.app|, 3, 1
  {
    InputBalanced(id, c, input);
    PendingShort(id, [In(input)]);
    PendingShort(id, [Out]);
    PendingAppend(id, DoInput(c, input).1, [Out]);
    PendingAppend(id, [In(input)], DoInput(c, input).1 + [Out]);
  }

  lemma {:induction false} InputBalanced(id: nat, c: Chan, input: Input)
    requires Sound(c.send)
    ensures Balanced(id, c, DoInput(c, input))
    decreases |c.app|, 3, 0
  {
    match input {
      case PutData(put, connected) => PutBalanced(id, c, put, connected);
      case DataB3Conf(handle) => ConfBalanced(id, c, handle);
      case DisconnectB3Ind => EndBalanced(id, Unwaiting(c), Inquiry);
      case DisconnectInd(dialling) =>
        assert DoInput(c, input) == DoDisconnectInd(c, dialling);
        EndCallBalanced(id, Unwaiting(c.(active := false)), dialling);
      case _ => QuietBalanced(id, c, input);
    }
  }

  lemma QuietBalanced(id: nat, c: Chan, input: Input)
    requires Sound(c.send) && (input.Disconnect? || input.SetActive? || input.Mark? || input.FinishReset?)
    ensures Balanced(id, c, DoInput(c, input))
  {
    PendingShort(id, DoInput(c, input).1);
  }

  /** Over every interleaving, late and repeated confirmations and any calls from within the callbacks
      included, a block has been completed as often as it was accepted, but for the handles that still store it. */
  lemma {:induction false} RunBalanced(id: nat, c: Chan, inputs: seq<Input>)
    requires Sound(c.send)
    ensures Balanced(id, c, Run(c, inputs))
    decreases |c.app|, 4, |inputs|
  {
    if inputs != [] {
      NextBalanced(id, c, inputs[0]);
      var step := Next(c, inputs[0]);
      RunBalanced(id, step.0, inputs[1..]);
      BalancedThen(id, c, step, Run(step.0, inputs[1..]));
    }
  }

  /** From a new channel: as many blocks are pending as handles store them, hence never more completions
      than acceptances; and none is pending once the loop of ResetSendBlock has run, whatever the callbacks
      do, even if they put again while it runs. */
  lemma ExactlyOnce(max: nat, app: seq<seq<Input>>, inputs: seq<Input>, id: nat)
    ensures var (c, log) := Run(NewChan(max, app), inputs);
            && Sound(c.send)
            && Pending(id, log) == Outstanding(id, c.send.live)
            && Count(DoReset(c).0.send.live) == 0
            && Pending(id, log + DoReset(c).1) == 0
  {
    var start := NewChan(max, app);
    CountNone(start.send.live);
    NoneOutstanding(id, start.send.live);
    RunBalanced(id, start, inputs);
    var (c, log) := Run(start, inputs);
    ResetBalanced(id, c);
    NoneOutstanding(id, DoReset(c).0.send.live);
    PendingAppend(id, log, DoReset(c).1);
  }

  // ---- callbacks that do nothing -------------------------------------------------------------

  predicate Silent(app: seq<seq<Input>>) {
    forall k :: 0 <= k < |app| ==> app[k] == []
  }

  /** One completion for each handle in use, from one on, in the order of the handles. */
  function Completions(live: seq<Option<nat>>, from: nat): (es: seq<Event>)
    requires from <= |live|
    ensures |es| == Count(live[from..])
    decreases |live| - from
  {
    if from == |live| then []
    else
      assert live[from..][1..] == live[from + 1..];
      (if live[from].Some? then [Completed(live[from].value, from)] else []) + Completions(live, from + 1)
  }

  lemma SilentCallback(c: Chan, e: Event)
    requires Sound(c.send) && Silent(c.app)
    ensures var (d, es) := Callback(c, e); es == [e] && d.send == c.send && Silent(d.app)
  {
    if c.app != [] {
      var d := c.(app := c.app[1..]);
      assert c.app[0] == [] && Run(d, []) == (d, []);
      assert [e] + [] == [e];
    }
  }

  /** When callbacks do nothing the loop runs once for every handle in use, as the counter says, and completes
      what they store in the order of the handles. */
  lemma {:induction false} SilentReset(c: Chan)
    requires Sound(c.send) && Silent(c.app)
    ensures DoReset(c).1 == Completions(c.send.live, 0) && |DoReset(c).1| == Count(c.send.live)
    decreases Count(c.send.live)
  {
    DelNextFinds(c.send);
    var (send, id) := DelNext(c.send);
    var h := Lowest(c.send.live);
    LowestFirst(c.send.live);
    if id.Some? {
      var d, e := c.(send := send), Completed(id.value, h);
      var (c1, e1) := Callback(d, e);
      SilentCallback(d, e);
      SilentReset(c1);
    }
  }

  lemma LowestFirst(live: seq<Option<nat>>)
    ensures |Completions(live, 0)| == Count(live)
    ensures var h := Lowest(live);
            if h == |live| then Completions(live, 0) == []
            else Completions(live, 0) == [Completed(live[h].value, h)] + Completions(live[h := None], 0)
  {
    var h := Lowest(live);
    assert live[0..] == live;
    NoneBelow(live, 0, h);
    if h < |live| {
      NoneBelow(live[h := None], 0, h);
      SameAbove(live, live[h := None], h + 1);
    }
  }

  lemma {:induction false} NoneBelow(live: seq<Option<nat>>, from: nat, to: nat)
    requires from <= to <= |live| && forall k :: from <= k < to ==> live[k] == None
    ensures Completions(live, from) == Completions(live, to)
    decreases |live| - from
  {
    if from < to {
      NoneBelow(live, from + 1, to);
    }
  }

  lemma {:induction false} SameAbove(x: seq<Option<nat>>, y: seq<Option<nat>>, from: nat)
    requires from <= |x| == |y| && forall k :: from <= k < |x| ==> x[k] == y[k]
    ensures Completions(x, from) == Completions(y, from)
    decreases |x| - from
  {
    if from < |x| {
      SameAbove(x, y, from + 1);
    }
  }

  // ---- the waiting kinds of Disconnect -------------------------------------------------------

  /** The status bits that DataB3Conf looks at are never set, so that the confirmation of the last
      block is its completion and nothing else, whatever kind of disconnection was asked for before. */
  lemma WaitingDisconnectIsLost(max: nat, app: seq<seq<Input>>, inputs: seq<Input>, handle: nat)
    ensures var (c, log) := Run(NewChan(max, app), inputs);
            var (send, id) := FreeEntry(c.send, handle);
            && Sound(c.send) && Sound(send)
            && (id.Some? ==> DoDataB3Conf(c, handle) == Callback(c.(send := send), Completed(id.value, handle)))
  {
    var (c, log) := Run(NewChan(max, app), inputs);
    FreeKeeps(c.send, handle);
    var (send, id) := FreeEntry(c.send, handle);
    if id.Some? {
      var (c1, es) := Callback(c.(send := send), Completed(id.value, handle));
      assert WaitBitsClear(c1);
      assert es + [] == es;
    }
  }

  /** While blocks are outstanding, the kind that should stop the application from putting more does not,
      and the kind that should let it put more does. */
  lemma WaitKindsAreSwapped(c: Chan, id: nat, connected: bool)
    requires Sound(c.send) && Count(c.send.live) > 0
    ensures DoPutData(DoDisconnect(c, WaitWithPut).0, id, connected).1 == []
    ensures DoPutData(DoDisconnect(c, WaitNoPut).0, id, connected).1 == []
            <==> Count(c.send.live) == |c.send.live|
  {
    NewIsDistinct(c.send, id);
    var d := DoDisconnect(c, WaitNoPut).0;
    assert d.send == c.send && DoPutData(d, id, connected) == DoEnter(d, id, connected);
    if d.send.free != [] {
      NewKeeps(d.send, id);
      var e := d.(send := NewEntry(d.send, id).0);
      assert DoEnter(d, id, connected) == DoHand(e, id, d.send.free[0], connected);
      assert DoHand(e, id, d.send.free[0], connected).1[0] == Accepted(id, d.send.free[0]);
    }
  }

  // ---- the class -----------------------------------------------------------------------------

  /** What the loop has logged, and what it still will. */
  ghost predicate ResetLeft(c0: Chan, done: seq<Event>, c: Chan)
    requires Sound(c0.send) && Sound(c.send)
  {
    DoReset(c0).0 == DoReset(c).0 && DoReset(c0).1 == done + DoReset(c).1
  }

  /** One turn of the loop. */
  ghost function ResetTurn(c: Chan): (r: Step)
    requires Sound(c.send)
    ensures Sound(r.0.send)
  {
    DelNextFinds(c.send);
    var (send, id) := DelNext(c.send);
    if id.None? then (c, []) else Callback(c.(send := send), Completed(id.value, Lowest(c.send.live)))
  }

  /** Within the loop and behind it. */
  ghost predicate Looping(c0: Chan, done: seq<Event>, c: Chan, ok: bool)
    requires Sound(c0.send) && Sound(c.send)
  {
    if ok then ResetLeft(c0, done, c) else c == DoReset(c0).0 && done == DoReset(c0).1
  }

  lemma ResetBegins(c: Chan)
    requires Sound(c.send)
    ensures Looping(c, [], c, true)
  {
    assert [] + DoReset(c).1 == DoReset(c).1;
  }

  lemma ResetStep(c0: Chan, done: seq<Event>, c: Chan)
    requires Sound(c0.send) && Sound(c.send) && Looping(c0, done, c, true)
    ensures var (d, es) := ResetTurn(c);
            && Looping(c0, done + es, d, Count(c.send.live) != 0)
            && (Count(c.send.live) == 0 ==> d.app == c.app)
            && (Count(c.send.live) != 0 ==>
                  |d.app| < |c.app| || (d.app == c.app && Count(d.send.live) < Count(c.send.live)))
  {
    DelNextFinds(c.send);
    var (d, es) := ResetTurn(c);
    if Count(c.send.live) == 0 {
      assert done + [] == done;
    } else {
      Regroup(done, es, DoReset(d).1);
    }
  }

  class CTransferChannel {
    const sendBlock: DataHandleAdmin
    var active: bool
    var reseting: bv8
    var app: seq<seq<Input>>
    ghost var log: seq<Event>

    ghost predicate Valid()
      reads this, sendBlock, sendBlock.entries
    {
      sendBlock.Valid()
    }

    ghost function Here(): Chan
      reads this, sendBlock, sendBlock.entries
    {
      Chan(sendBlock.Contents(), active, reseting, app)
    }

    constructor (app: seq<seq<Input>>)
      ensures Valid() && fresh(sendBlock) && fresh(sendBlock.entries)
      ensures Here() == NewChan(MAX_OUTSTANDING_FRAMES, app) && log == []
    {
      sendBlock := new DataHandleAdmin(MAX_OUTSTANDING_FRAMES);
      active, reseting, log := false, 0, [];
      this.app := app;
    }

    /** The channel is where a step leads, and the log has grown by what the step reports. */
    ghost predicate Did(step: Step, before: seq<Event>)
      reads this, sendBlock, sendBlock.entries
    {
      Here() == step.0 && log == before + step.1
    }

    ghost method Note(es: seq<Event>)
      modifies this`log
      ensures log == old(log) + es
    {
      log := log + es;
    }

    /** A callback of the application. */
    method Notify(ghost e: Event)
      requires Valid()
      modifies this, sendBlock, sendBlock.entries
      ensures Valid()
      ensures Did(Callback(old(Here()), e), old(log))
      decreases |app|, 0, 0
    {
      ghost var before := log;
      Note([e]);
      if app != [] {
        var calls := app[0];
        app := app[1..];
        ghost var es := Run(Here(), calls).1;
        Perform(calls);
        Regroup(before, [e], es);
      }
    }

    /** Calls in a row. */
    method Perform(inputs: seq<Input>)
      requires Valid()
      modifies this, sendBlock, sendBlock.entries
      ensures Valid()
      ensures Did(Run(old(Here()), inputs), old(log))
      decreases |app|, 4, |inputs|
    {
      if inputs != [] {
        ghost var before, c := log, Here();
        Note([In(inputs[0])]);
        PerformOne(inputs[0]);
        Note([Out]);
        ghost var es := DoInput(c, inputs[0]).1;
        Regroup(before + [In(inputs[0])], es, [Out]);
        Regroup(before, [In(inputs[0])], es + [Out]);
        ghost var e2 := Run(Here(), inputs[1..]).1;
        Perform(inputs[1..]);
        Regroup(before, Next(c, inputs[0]).1, e2);
      }
    }

    method PerformOne(input: Input)
      requires Valid()
      modifies this, sendBlock, sendBlock.entries
      ensures Valid()
      ensures Did(DoInput(old(Here()), input), old(log))
      decreases |app|, 3, 0
    {
      match input
      case PutData(id, connected) => var ok := PutData(id, connected);
      case DataB3Conf(handle) => DataB3Conf(handle);
      case DisconnectB3Ind => DisconnectB3Ind();
      case DisconnectInd(dialling) => DisconnectInd(dialling);
      case Disconnect(kind) => Disconnect(kind);
      case _ => SetField(input);
    }

    method SetField(input: Input)
      requires Valid() && (input.SetActive? || input.Mark? || input.FinishReset?)
      modifies this`active, this`reseting
      ensures Valid()
      ensures Here() == DoInput(old(Here()), input).0
    {
      match input
      case SetActive(on) => active := on;
      case Mark(flag) => reseting := reseting | Bits(flag);
      case FinishReset(waitRegister, listening) => CheckFinishReset(waitRegister, listening);
    }

    method CheckFinishReset(waitRegister: bool, listening: bool)
      requires Valid()
      modifies this`reseting
      ensures Valid() && Here() == DoFinishReset(old(Here()), waitRegister, listening)
    {
      if !AnyOf(reseting, RESET) {
        reseting := if waitRegister then WAIT_REGISTER else 0;
      } else if !listening {
        reseting := 0;
      }
    }

    method PutData(id: nat, connected: bool) returns (ok: bool)
      requires Valid()
      modifies this, sendBlock, sendBlock.entries
      ensures Valid()
      ensures Did(DoPutData(old(Here()), id, connected), old(log))
      ensures ok <==> DoPutData(old(Here()), id, connected).1 != []
      decreases |app|, 1, 3
    {
      ok := false;
      if !AnyOf(reseting, DISCONNECT_WAIT_NO | RESET) {
        ok := Enter(id, connected);
      }
    }

    method Enter(id: nat, connected: bool) returns (ok: bool)
      requires Valid()
      modifies this, sendBlock, sendBlock.entries
      ensures Valid()
      ensures Did(DoEnter(old(Here()), id, connected), old(log))
      ensures ok <==> DoEnter(old(Here()), id, connected).1 != []
      decreases |app|, 1, 2
    {
      var handle;
      ok, handle := sendBlock.New(id);
      if ok {
        Hand(id, handle, connected);
      }
    }

    method Hand(id: nat, handle: nat, connected: bool)
      requires Valid()
      modifies this, sendBlock, sendBlock.entries
      ensures Valid()
      ensures Did(DoHand(old(Here()), id, handle, connected), old(log))
      decreases |app|, 1, 1
    {
      ghost var before, c := log, Here();
      Note([Accepted(id, handle)]);
      if connected {
        Note([Request(handle)]);
      } else {
        DataB3Conf(handle);
      }
      Regroup(before, [Accepted(id, handle)], if connected then [Request(handle)] else DoDataB3Conf(c, handle).1);
    }

    method DataB3Conf(handle: nat)
      requires Valid()
      modifies this, sendBlock, sendBlock.entries
      ensures Valid()
      ensures Did(DoDataB3Conf(old(Here()), handle), old(log))
      decreases |app|, 1, 0
    {
      var ok, id := sendBlock.Free(handle);
      if ok {
        ghost var before, es := log, Callback(Here(), Completed(id, handle)).1;
        Notify(Completed(id, handle));
        var hangup := AnyOf(reseting, DISCONNECT_WAIT) && sendBlock.IsEmpty();
        Note(if hangup then [Hangup(false)] else []);
        Regroup(before, es, if hangup then [Hangup(false)] else []);
      } else {
        Note([Hangup(false)]);
      }
    }

    /** DelNextEntry, and PutDataComplete for what it finds. */
    method CompleteNext() returns (ok: bool)
      requires Valid()
      modifies this, sendBlock, sendBlock.entries
      ensures Valid()
      ensures ok <==> Count(old(Here()).send.live) != 0
      ensures Did(ResetTurn(old(Here())), old(log))
      decreases |app|, 0, 1
    {
      DelNextFinds(Here().send);
      ghost var handle := Lowest(Here().send.live);
      var id;
      ok, id := sendBlock.DelNextEntry();
      if ok {
        Notify(Completed(id, handle));
      }
    }

    method ResetSendBlock()
      requires Valid()
      modifies this, sendBlock, sendBlock.entries
      ensures Valid()
      ensures Did(DoReset(old(Here())), old(log))
      decreases |app|, 1, 0
    {
      ghost var before, c0, done: seq<Event> := log, Here(), [];
      ResetBegins(c0);
      var ok := true;
      while ok
        invariant Valid() && |app| <= |c0.app|
        invariant log == before + done
        invariant Looping(c0, done, Here(), ok)
        decreases ok, |app|, Count(Here().send.live)
      {
        ghost var c, es := Here(), ResetTurn(Here()).1;
        ResetStep(c0, done, c);
        ok := CompleteNext();
        Regroup(before, done, es);
        done := done + es;
      }
    }

    method StopWaiting()
      requires Valid()
      modifies this`reseting
      ensures Valid() && Here() == Unwaiting(old(Here()))
    {
      reseting := reseting & !DISCONNECT_WAIT;
    }

    method DisconnectB3Ind()
      requires Valid()
      modifies this, sendBlock, sendBlock.entries
      ensures Valid()
      ensures Did(DoDisconnectB3Ind(old(Here())), old(log))
      decreases |app|, 2, 0
    {
      StopWaiting();
      ghost var before, r := log, DoReset(Here());
      ResetSendBlock();
      Notify(Inquiry);
      Regroup(before, r.1, Callback(r.0, Inquiry).1);
    }

    method DisconnectInd(dialling: bool)
      requires Valid()
      modifies this, sendBlock, sendBlock.entries
      ensures Valid()
      ensures Did(DoDisconnectInd(old(Here()), dialling), old(log))
      decreases |app|, 2, 0
    {
      assert log + [] == log;
      if active {
        StopCall();
        EndCall(dialling);
      }
    }

    method StopCall()
      requires Valid()
      modifies this`active, this`reseting
      ensures Valid() && Here() == Unwaiting(old(Here()).(active := false))
    {
      active := false;
      StopWaiting();
    }

    method EndCall(dialling: bool)
      requires Valid()
      modifies this, sendBlock, sendBlock.entries
      ensures Valid()
      ensures Did(DoEndCall(old(Here()), dialling), old(log))
      decreases |app|, 1, 1
    {
      ghost var before, r := log, DoReset(Here());
      ResetSendBlock();
      if !dialling {
        Notify(Ended);
      }
      Regroup(before, r.1, if dialling then [] else Callback(r.0, Ended).1);
    }

    method WaitOrHangUp(status: bv8)
      requires Valid()
      modifies this`reseting, this`log
      ensures Valid()
      ensures if Count(Here().send.live) == 0 then Here() == old(Here()) && log == old(log) + [Hangup(false)]
              else Here() == old(Here()).(reseting := status) && log == old(log)
    {
      if !sendBlock.IsEmpty() {
        reseting := status;
      } else {
        Note([Hangup(false)]);
      }
    }

    method Disconnect(kind: Kind)
      requires Valid()
      modifies this
      ensures Valid()
      ensures Did(DoDisconnect(old(Here()), kind), old(log))
    {
      match kind
      case WaitWithPut => WaitOrHangUp(4);
      case WaitNoPut => WaitOrHangUp(2);
      case Normal => Note([Hangup(false)]);
      case Fast => Note([Hangup(true)]);
      case Hard =>
        reseting := reseting | WAIT_RELEASE;
        Note([Release]);
    }

    /** Whatever is called, from outside and within callbacks: no block was completed more often than accepted,
        and what the handles store is what is missing. */
    method Conserves(inputs: seq<Input>)
      requires Valid()
      requires forall id :: Pending(id, log) == Outstanding(id, Here().send.live)
      modifies this, sendBlock, sendBlock.entries
      ensures Valid()
      ensures forall id :: Pending(id, log) == Outstanding(id, Here().send.live)
    {
      ghost var before, c := log, Here();
      Perform(inputs);
      forall id
        ensures Pending(id, log) == Outstanding(id, Here().send.live)
      {
        RunBalanced(id, c, inputs);
        PendingAppend(id, before, Run(c, inputs).1);
      }
    }
  }
}
