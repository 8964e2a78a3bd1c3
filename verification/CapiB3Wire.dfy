/** One B channel connection as the messages show it, after the NCCI's state diagram. */
module CapiB3Wire {
  import opened Options
  import opened CapiChan
  import opened CapiLedger
  import opened CapiWire
  import opened CapiB3Ledger

  /** The phases N-0, N-2, N-1, N-ACT, N-4 and N-5 of one NCCI, whether nothing illegal was sent for it, and whether
      it was accepted. */
  datatype B3 = B3(legal: bool, line: Line, accepted: bool)

  const NewB3 := B3(true, Idle, false)

  function Goes(b: B3, legal: bool, line: Line): B3 {
    b.(legal := b.legal && legal, line := line)
  }

  function ReceivedB3(b: B3, ind: Indication, n: nat): B3 {
    match ind
    case ConnectB3Ind(m) => if m == n then Goes(b, true, Offered) else b
    case ConnectB3ActiveInd(m) => if m == n then Goes(b, true, Up) else b
    case DisconnectB3Ind(m) => if m == n then Goes(b, true, Ended) else b
    case _ => b
  }

  /** Data goes out only while the connection is up.  DISCONNECT_RESP ends all that belongs to the PLCI. */
  function TransmittedB3(b: B3, msg: Message, n: nat): B3 {
    match msg
    case ConnectB3Resp(m, accept) =>
      if m == n then Goes(b, b.line == Offered, if accept then Rising else Closing).(accepted := accept) else b
    case ConnectB3ActiveResp(m) => if m == n then Goes(b, Alive(b.line), b.line) else b
    case DataB3Req(m, _) => if m == n then Goes(b, b.line == Up, b.line) else b
    case DataB3Resp(m, _) => if m == n then Goes(b, Alive(b.line), b.line) else b
    case DisconnectB3Req(m) => if m == n then Goes(b, Alive(b.line) || b.line == Rising, Closing) else b
    case DisconnectB3Resp(m) => if m == n then Goes(b, b.line == Ended, Idle) else b
    case DisconnectResp(q) => if q == PlciOf(n) then Goes(b, true, Idle) else b
    case _ => b
  }

  function WatchB3(b: B3, e: Event, n: nat): B3 {
    match e
    case Got(ind) => ReceivedB3(b, ind, n)
    case Sent(msg) => TransmittedB3(b, msg, n)
    case Call(OnRelease) => Goes(b, true, Idle)
    case RELEASE => Goes(b, true, Idle)
    case _ => b
  }

  function WatchAllB3(b: B3, log: seq<Event>, n: nat): B3
    decreases |log|
  {
    if log == [] then b else WatchAllB3(WatchB3(b, log[0], n), log[1..], n)
  }

  function HeardB3(b: B3, input: Input, n: nat): B3 {
    if input == ConnectB3Conf(n, true) then b.(line := Rising, accepted := false) else b
  }

  function AfterB3(b: B3, input: Input, log: seq<Event>, n: nat): B3 {
    WatchAllB3(HeardB3(b, input, n), log, n)
  }

  /** What a CAPI may send about an NCCI: it begins one that is not in use, and data, confirmations and the end
      belong to one that is. */
  predicate AllowsB3(b: B3, input: Input, n: nat) {
    match input
    case ConnectB3Conf(m, ok) => m == n && ok ==> b.line == Idle
    case DataB3Conf(m, _) => m == n ==> Alive(b.line)
    case Indicate(ConnectB3Ind(m), _) => m == n ==> b.line == Idle
    case Indicate(ConnectB3ActiveInd(m), _) => m == n ==> b.line == Idle || b.line == Rising || b.line == Closing
    case Indicate(DataB3Ind(m, _), _) => m == n ==> Alive(b.line)
    case Indicate(DisconnectB3Ind(m), _) => m == n ==> b.line != Idle && b.line != Ended
    case _ => true
  }

  predicate AllAllowedB3(c: Chan, b: B3, inputs: seq<Input>, n: nat)
    decreases |inputs|
  {
    inputs == [] ||
    (&& Conforms(c, inputs[0]) && AllowsB3(b, inputs[0], n)
     && var (c1, e1) := Next(c, inputs[0]);
        AllAllowedB3(c1, AfterB3(b, inputs[0], e1, n), inputs[1..], n))
  }

  function RunAfterB3(c: Chan, b: B3, inputs: seq<Input>, n: nat): B3
    decreases |inputs|
  {
    if inputs == [] then b
    else
      var (c1, e1) := Next(c, inputs[0]);
      RunAfterB3(c1, AfterB3(b, inputs[0], e1, n), inputs[1..], n)
  }

  // ---- the phase agrees with the channel's state ---------------------------------------------

  predicate StandsB3(state: CapiState, line: Line) {
    match state
    case B_ConnectPending => line == Rising
    case Connected => line == Up
    case B_DisconnectPending => line == Closing
    case B_DisconnectRespPending => line == Ended
    case D_DisconnectRespPending => line == Ended
    case _ => line != Idle && line != Offered
  }

  /** A connection that is not the channel's own is idle, or given up, or not accepted. */
  predicate Foreign(b: B3) {
    b.line == Idle || b.line == Closing || (b.line == Rising && !b.accepted)
  }

  /** Nothing illegal was sent, and the phase is the one that the state says. */
  predicate AgreesB3(c: Chan, b: B3, n: nat) {
    b.legal && if c.ncci == n then StandsB3(c.state, b.line) else Foreign(b)
  }

  predicate KeepsB3(b: B3, step: Step, n: nat) {
    AgreesB3(step.0, WatchAllB3(b, step.1, n), n)
  }

  lemma {:induction false} WatchAppendB3(b: B3, x: seq<Event>, y: seq<Event>, n: nat)
    ensures WatchAllB3(b, x + y, n) == WatchAllB3(WatchAllB3(b, x, n), y, n)
    decreases |x|
  {
    if x == [] {
      assert x + y == y;
    } else {
      assert (x + y)[1..] == x[1..] + y;
      WatchAppendB3(WatchB3(b, x[0], n), x[1..], y, n);
    }
  }

  lemma WatchShortB3(b: B3, log: seq<Event>, n: nat)
    ensures log == [] ==> WatchAllB3(b, log, n) == b
    ensures |log| == 1 ==> WatchAllB3(b, log, n) == WatchB3(b, log[0], n)
    ensures |log| == 2 ==> WatchAllB3(b, log, n) == WatchB3(WatchB3(b, log[0], n), log[1], n)
    ensures |log| == 3 ==> WatchAllB3(b, log, n) == WatchB3(WatchB3(WatchB3(b, log[0], n), log[1], n), log[2], n)
    decreases |log|
  {
    if log != [] {
      WatchShortB3(WatchB3(b, log[0], n), log[1..], n);
    }
  }

  lemma ReleaseAgreesB3(c: Chan, b: B3, n: nat)
    requires Fits(c) && AgreesB3(c, b, n) && n != 0
    ensures KeepsB3(b, DoRelease(c), n)
  {
    WatchShortB3(b, DoRelease(c).1, n);
  }

  lemma DisconnectAgreesB3(c: Chan, fast: bool, b: B3, n: nat)
    requires Fits(c) && AgreesB3(c, b, n) && n != 0
    ensures KeepsB3(b, DoDisconnect(c, fast), n)
  {
    WatchShortB3(b, DoDisconnect(c, fast).1, n);
  }

  lemma AnswerAgreesB3(c: Chan, call: AppCall, b: B3, n: nat)
    requires Fits(c) && AgreesB3(c, b, n) && n != 0
    requires call.AnswerConnect? || call.AnswerDisconnectB3?
    ensures KeepsB3(b, DoCall(c, call), n)
  {
    WatchShortB3(b, DoCall(c, call).1, n);
  }

  lemma CallAgreesB3(c: Chan, call: AppCall, b: B3, n: nat)
    requires Fits(c) && AgreesB3(c, b, n) && n != 0
    ensures KeepsB3(b, DoCall(c, call), n)
  {
    match call
    case Release => ReleaseAgreesB3(c, b, n);
    case Disconnect(fast) => DisconnectAgreesB3(c, fast, b, n);
    case AnswerConnect(_) => AnswerAgreesB3(c, call, b, n);
    case AnswerDisconnectB3 => AnswerAgreesB3(c, call, b, n);
    case AcceptIncomingCall(_) =>
      DisconnectAgreesB3(c, false, b, n);
      assert WatchAllB3(b, [], n) == b;
    case _ => WatchShortB3(b, DoCall(c, call).1, n);
  }

  lemma {:induction false} CallsAgreeB3(c: Chan, calls: seq<AppCall>, b: B3, n: nat)
    requires Fits(c) && AgreesB3(c, b, n) && n != 0
    ensures KeepsB3(b, DoCalls(c, calls), n)
    decreases |calls|
  {
    if calls != [] {
      var (c1, e1) := DoCall(c, calls[0]);
      CallAgreesB3(c, calls[0], b, n);
      CallFits(c, calls[0]);
      CallsAgreeB3(c1, calls[1..], WatchAllB3(b, e1, n), n);
      WatchAppendB3(b, e1, DoCalls(c1, calls[1..]).1, n);
    }
  }

  lemma ActiveIndAgreesB3(c: Chan, ind: Indication, inCallback: seq<AppCall>, b: B3, n: nat)
    requires Fits(c) && AgreesB3(c, b, n) && n != 0 && ind.ConnectActiveInd? && Takes(c, ind)
    ensures KeepsB3(b, DoIndicate(c, ind, inCallback), n)
  {
    var c0 := Armed(c.(state := D_Connected), ForBChannel);
    var (c1, es) := DoCalls(c0, inCallback);
    var tail := Outgoing(c1);
    var head := [Got(ind), Sent(ConnectActiveResp(ind.plci)), Call(OnConnectActive)];
    ActiveIndLog(c, ind, inCallback, head, es, tail);
    WatchShortB3(b, head, n);
    CallsAgreeB3(c0, inCallback, b, n);
    WatchShortB3(WatchAllB3(b, es, n), tail, n);
    WatchAppendB3(b, es, tail, n);
    WatchAppendB3(b, head, es + tail, n);
  }

  lemma TakenAgreesB3(c: Chan, ind: Indication, inCallback: seq<AppCall>, b: B3, n: nat)
    requires Fits(c) && AgreesB3(c, b, n) && ValidPlci(PlciOf(n))
    requires Conforms(c, Indicate(ind, inCallback)) && AllowsB3(b, Indicate(ind, inCallback), n)
    requires !ind.ConnectActiveInd? && Takes(c, ind)
    ensures KeepsB3(b, DoIndicate(c, ind, inCallback), n)
  {
    WatchShortB3(b, DoIndicate(c, ind, inCallback).1, n);
  }

  lemma RefusedAgreesB3(c: Chan, ind: Indication, inCallback: seq<AppCall>, b: B3, n: nat)
    requires Fits(c) && AgreesB3(c, b, n) && ValidPlci(PlciOf(n))
    requires Conforms(c, Indicate(ind, inCallback)) && AllowsB3(b, Indicate(ind, inCallback), n)
    requires !Takes(c, ind)
    ensures KeepsB3(b, DoIndicate(c, ind, inCallback), n)
  {
    WatchShortB3(b, DoIndicate(c, ind, inCallback).1, n);
  }

  lemma ConfirmAgreesB3(c: Chan, input: Input, b: B3, n: nat)
    requires Fits(c) && AgreesB3(c, b, n) && ValidPlci(PlciOf(n)) && Conforms(c, input) && AllowsB3(b, input, n)
    requires !input.App? && !input.Indicate? && !input.TimerExpires? && !input.DisconnectConf?
    ensures KeepsB3(HeardB3(b, input, n), Next(c, input), n)
  {
    WatchShortB3(HeardB3(b, input, n), Next(c, input).1, n);
  }

  lemma TimerAgreesB3(c: Chan, b: B3, n: nat)
    requires Fits(c) && AgreesB3(c, b, n) && n != 0
    ensures KeepsB3(b, DoTimer(c), n)
  {
    var c1 := c.(timer := None);
    ReleaseAgreesB3(c1, b, n);
    DisconnectAgreesB3(c1, false, b, n);
    assert WatchAllB3(b, [], n) == b;
  }

  lemma NextAgreesB3(c: Chan, input: Input, b: B3, n: nat)
    requires Fits(c) && AgreesB3(c, b, n) && ValidPlci(PlciOf(n)) && Conforms(c, input) && AllowsB3(b, input, n)
    ensures KeepsB3(HeardB3(b, input, n), Next(c, input), n)
  {
    match input
    case App(call) => CallAgreesB3(c, call, b, n);
    case TimerExpires => TimerAgreesB3(c, b, n);
    case DisconnectConf(_, _) =>
      ReleaseAgreesB3(c.(timer := None), b, n);
      assert WatchAllB3(b, [], n) == b;
    case Indicate(ind, inCallback) =>
      if !Takes(c, ind) {
        RefusedAgreesB3(c, ind, inCallback, b, n);
      } else if ind.ConnectActiveInd? {
        ActiveIndAgreesB3(c, ind, inCallback, b, n);
      } else {
        TakenAgreesB3(c, ind, inCallback, b, n);
      }
    case _ => ConfirmAgreesB3(c, input, b, n);
  }

  /** Over every run in which the CAPI keeps to the NCCI's diagram, the channel does: data only while the connection
      is up, an answer for everything that waits for one, and the phase is the one that its state says. */
  lemma {:induction false} RunAgreesB3(c: Chan, b: B3, inputs: seq<Input>, n: nat)
    requires Fits(c) && AgreesB3(c, b, n) && ValidPlci(PlciOf(n)) && AllAllowedB3(c, b, inputs, n)
    ensures AgreesB3(Run(c, inputs).0, RunAfterB3(c, b, inputs, n), n)
    decreases |inputs|
  {
    if inputs != [] {
      var (c1, e1) := Next(c, inputs[0]);
      NextAgreesB3(c, inputs[0], b, n);
      NextFits(c, inputs[0]);
      RunAgreesB3(c1, AfterB3(b, inputs[0], e1, n), inputs[1..], n);
    }
  }

  // ---- the runs that other results give ------------------------------------------------------

  /** A channel, and what the messages have said about one PLCI and one NCCI. */
  datatype Place = Place(c: Chan, w: Wire, b: B3)

  function Moves(s: Place, input: Input, p: nat, n: nat): Place {
    var (c1, e1) := Next(s.c, input);
    Place(c1, After(s.w, input, e1, p), AfterB3(s.b, input, e1, n))
  }

  predicate BothTake(s: Place, input: Input, p: nat, n: nat) {
    Conforms(s.c, input) && Allows(s.w, input, p) && AllowsB3(s.b, input, n)
  }

  /** Whether both diagrams allow a run. */
  predicate BothAllow(s: Place, inputs: seq<Input>, p: nat, n: nat)
    decreases |inputs|
  {
    inputs == [] || (BothTake(s, inputs[0], p, n) && BothAllow(Moves(s, inputs[0], p, n), inputs[1..], p, n))
  }

  lemma {:induction false} BothMean(s: Place, inputs: seq<Input>, p: nat, n: nat)
    ensures BothAllow(s, inputs, p, n) <==> AllAllowed(s.c, s.w, inputs, p) && AllAllowedB3(s.c, s.b, inputs, n)
    decreases |inputs|
  {
    if inputs != [] {
      BothMean(Moves(s, inputs[0], p, n), inputs[1..], p, n);
    }
  }

  lemma First(s: Place, inputs: seq<Input>, p: nat, n: nat)
    requires inputs != [] && BothTake(s, inputs[0], p, n) && BothAllow(Moves(s, inputs[0], p, n), inputs[1..], p, n)
    ensures BothAllow(s, inputs, p, n)
  {
  }

  /** A call of our own goes through, and the B channel is asked for. */
  lemma ActiveAsks(s: Place, plci: nat, p: nat, n: nat)
    requires s.c.state == D_ConnectPending && s.c.plci == plci && s.c.initiator
    requires p == plci ==> s.w.line == Rising && !s.w.asked
    ensures var d := Moves(s, Indicate(ConnectActiveInd(plci), []), p, n);
            && d.c == Armed(s.c.(state := D_Connected, initiator := false), ForBChannel) && d.b == s.b
            && d.w == if p == plci then s.w.(line := Up, asked := true) else s.w
  {
    var ind := ConnectActiveInd(plci);
    var head := [Got(ind), Sent(ConnectActiveResp(plci)), Call(OnConnectActive)];
    var tail := [Sent(ConnectB3Req(plci))];
    assert Outgoing(DoCalls(Armed(s.c.(state := D_Connected), ForBChannel), []).0) == tail;
    ActiveIndLog(s.c, ind, [], head, [], tail);
    assert [] + tail == tail;
    WatchAppend(s.w, head, tail, p);
    WatchShort(s.w, head, p);
    WatchShort(WatchAll(s.w, head, p), tail, p);
    WatchAppendB3(s.b, head, tail, n);
    WatchShortB3(s.b, head, n);
    WatchShortB3(WatchAllB3(s.b, head, n), tail, n);
  }

  lemma DialsAllowed(controller: nat, ncci: nat, p: nat, n: nat)
    requires ValidPlci(PlciOf(ncci)) && p != 0 && n != 0
    ensures var plci := PlciOf(ncci);
            var s := Place(NewChan.(state := Registered), NewWire, NewB3);
            && BothTake(s, App(Connect(controller)), p, n)
            && var s1 := Moves(s, App(Connect(controller)), p, n);
               && BothTake(s1, ConnectConf(plci, true), p, n)
               && var s2 := Moves(s1, ConnectConf(plci, true), p, n);
                  && s2.c == Chan(D_ConnectPending, controller, plci, 0, true, 0, None) && s2.b == NewB3
                  && s2.w == Wire(true, if p == plci then Rising else Idle, false, true, false, false)
  {
    WatchShort(NewWire, [Sent(ConnectReq(controller))], p);
    WatchShortB3(NewB3, [Sent(ConnectReq(controller))], n);
    var w := NewWire.(requested := true, ours := true);
    WatchShort(Heard(w, ConnectConf(PlciOf(ncci), true), p), [Call(OnConnectConf)], p);
    WatchShortB3(NewB3, [Call(OnConnectConf)], n);
  }

  lemma DialRunAllowed(controller: nat, ncci: nat, p: nat, n: nat)
    requires ValidPlci(PlciOf(ncci)) && p != 0 && n != 0
    ensures BothAllow(Place(NewChan.(state := Registered), NewWire, NewB3), ConnectingRun(controller, ncci)[2..], p, n)
  {
    var run := ConnectingRun(controller, ncci)[2..];
    var s2 := Place(NewChan.(state := Registered), NewWire, NewB3);
    var s3 := Moves(s2, run[0], p, n);
    var s4 := Moves(s3, run[1], p, n);
    var s5 := Moves(s4, run[2], p, n);
    var s6 := Moves(s5, run[3], p, n);
    DialsAllowed(controller, ncci, p, n);
    ActiveAsks(s4, PlciOf(ncci), p, n);
    assert s6.b.line == if n == ncci then Rising else Idle;
    First(s6, run[4..], p, n);
    First(s5, run[3..], p, n);
    First(s4, run[2..], p, n);
    First(s3, run[1..], p, n);
    First(s2, run, p, n);
  }

  /** The run from a new channel to a connected one is one that both diagrams allow, for every PLCI and NCCI: its
      confirmation for the B channel answers a request that was sent. */
  lemma ConnectingRunAllowed(controller: nat, ncci: nat, p: nat, n: nat)
    requires ValidPlci(PlciOf(ncci)) && p != 0 && n != 0
    ensures AllAllowed(NewChan, NewWire, ConnectingRun(controller, ncci), p)
    ensures AllAllowedB3(NewChan, NewB3, ConnectingRun(controller, ncci), n)
  {
    var run := ConnectingRun(controller, ncci);
    var s0 := Place(NewChan, NewWire, NewB3);
    var s1 := Moves(s0, run[0], p, n);
    assert Moves(s1, run[1], p, n) == Place(NewChan.(state := Registered), NewWire, NewB3);
    DialRunAllowed(controller, ncci, p, n);
    First(s1, run[1..], p, n);
    First(s0, run, p, n);
    BothMean(s0, run, p, n);
  }

  /** So are the runs that lose the answer to a DISCONNECT_B3_IND, from any connected state. */
  lemma LossesAllowed(s: Place, p: nat, n: nat)
    requires Fits(s.c) && s.c.state == Connected && AgreesB3(s.c, s.b, n) && n != 0
    ensures var ind, answer := Indicate(DisconnectB3Ind(s.c.ncci), []), App(AnswerDisconnectB3);
            && BothAllow(s, [App(Disconnect(true)), ind, answer], p, n)
            && BothAllow(s, [ind, App(Disconnect(true)), answer], p, n)
            && BothAllow(s, [ind, App(Release), answer], p, n)
  {
    var ind, answer := Indicate(DisconnectB3Ind(s.c.ncci), []), App(AnswerDisconnectB3);
    var fast, release := App(Disconnect(true)), App(Release);
    var up, broken := Moves(s, fast, p, n), Moves(s, ind, p, n);
    assert up.b == s.b && up.c.ncci == s.c.ncci && up.c.state == D_DisconnectPending by {
      WatchShortB3(s.b, Next(s.c, fast).1, n);
    }
    AppAllowed(Moves(up, ind, p, n), [answer], p, n);
    assert [ind, answer][1..] == [answer] && [fast, ind, answer][1..] == [ind, answer];
    First(up, [ind, answer], p, n);
    First(s, [fast, ind, answer], p, n);
    AppAllowed(broken, [fast, answer], p, n);
    AppAllowed(broken, [release, answer], p, n);
    assert [ind, fast, answer][1..] == [fast, answer] && [ind, release, answer][1..] == [release, answer];
    First(s, [ind, fast, answer], p, n);
    First(s, [ind, release, answer], p, n);
  }

  lemma {:induction false} AppAllowed(s: Place, inputs: seq<Input>, p: nat, n: nat)
    requires forall k :: 0 <= k < |inputs| ==> inputs[k].App?
    ensures BothAllow(s, inputs, p, n)
    decreases |inputs|
  {
    if inputs != [] {
      AppAllowed(Moves(s, inputs[0], p, n), inputs[1..], p, n);
    }
  }
}
