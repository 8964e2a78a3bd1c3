/** One connection as the messages show it, after the PLCI's state diagram: which messages the channel may send when,
    and how often it asks for a B channel. */
module CapiWire {
  import opened Options
  import opened CapiChan
  import opened CapiLedger

  /** The phases P-0, P-2, P-1 and P-4, P-ACT, P-5, P-6. */
  datatype Line = Idle | Offered | Rising | Up | Closing | Ended

  /** What the messages have said about one PLCI.  legal: nothing was sent that the phase does not allow; requested: a
      CONNECT_REQ is not confirmed yet; ours: the last call was our own; asked: a CONNECT_B3_REQ is not confirmed yet;
      failed: one has failed. */
  datatype Wire = Wire(legal: bool, line: Line, requested: bool, ours: bool, asked: bool, failed: bool)

  const NewWire := Wire(true, Idle, false, false, false, false)

  function Moved(w: Wire, legal: bool, line: Line): Wire {
    w.(legal := w.legal && legal, line := line)
  }

  predicate Alive(line: Line) {
    line == Up || line == Closing
  }

  function Received(w: Wire, ind: Indication, p: nat): Wire {
    match ind
    case ConnectInd(q) => if q == p then Moved(w, true, Offered).(failed := false) else w
    case ConnectActiveInd(q) => if q == p then Moved(w, true, Up) else w
    case DisconnectInd(q) => if q == p then Moved(w, true, Ended).(asked := false) else w
    case _ => w
  }

  function Transmitted(w: Wire, msg: Message, p: nat): Wire {
    match msg
    case ConnectReq(_) => w.(legal := w.legal && !w.requested, requested := true, ours := true)
    case ConnectResp(q, accept) =>
      if q == p then Moved(w, w.line == Offered, if accept then Rising else Closing) else w
    case ConnectActiveResp(q) => if q == p then Moved(w, Alive(w.line), w.line) else w
    case AlertReq(q) => if q == p then Moved(w, w.line == Offered, w.line) else w
    case SelectBProtocolReq(q) => if q == p then Moved(w, Alive(w.line), w.line) else w
    case ConnectB3Req(q) => if q == p then Moved(w, w.line == Up && !w.asked, Up).(asked := true) else w
    case DisconnectReq(q) => if q == p then Moved(w, Alive(w.line) || w.line == Rising, Closing) else w
    case DisconnectResp(q) => if q == p then Moved(w, w.line == Ended, Idle) else w
    case _ => w
  }

  function Watch(w: Wire, e: Event, p: nat): Wire {
    match e
    case Got(ind) => Received(w, ind, p)
    case Sent(msg) => Transmitted(w, msg, p)
    case Call(OnConnect) => w.(ours := false)
    case Call(OnRelease) => w.(line := Idle, requested := false, asked := false)
    case RELEASE => w.(line := Idle, requested := false, asked := false)
    case _ => w
  }

  function WatchAll(w: Wire, log: seq<Event>, p: nat): Wire
    decreases |log|
  {
    if log == [] then w else WatchAll(Watch(w, log[0], p), log[1..], p)
  }

  /** Confirmations are no part of the log. */
  function Heard(w: Wire, input: Input, p: nat): Wire {
    match input
    case ConnectConf(q, ok) =>
      if ok && q == p then w.(requested := false, line := Rising, failed := false) else w.(requested := false)
    case ConnectB3Conf(n, ok) => if PlciOf(n) == p then w.(asked := false, failed := !ok) else w
    case _ => w
  }

  function After(w: Wire, input: Input, log: seq<Event>, p: nat): Wire {
    WatchAll(Heard(w, input, p), log, p)
  }

  /** What a CAPI may send by the messages so far: a confirmation only of a request that is outstanding, a call with
      a PLCI that is not in use, CONNECT_ACTIVE_IND once, even if it has crossed a DISCONNECT_REQ, and nothing about a
      connection that has ended. */
  predicate Allows(w: Wire, input: Input, p: nat) {
    match input
    case ConnectConf(q, ok) => w.requested && (ok && q == p ==> w.line == Idle)
    case ConnectB3Conf(n, _) => PlciOf(n) == p ==> w.asked
    case DisconnectB3Conf(n, _) => PlciOf(n) == p ==> Alive(w.line)
    case Indicate(ConnectInd(q), _) => q == p ==> w.line == Idle
    case Indicate(ConnectActiveInd(q), _) => q == p ==> w.line == Idle || w.line == Rising || w.line == Closing
    case Indicate(DisconnectInd(q), _) => q == p ==> w.line != Idle && w.line != Ended
    case _ => true
  }

  predicate AllAllowed(c: Chan, w: Wire, inputs: seq<Input>, p: nat)
    decreases |inputs|
  {
    inputs == [] ||
    (&& Conforms(c, inputs[0]) && Allows(w, inputs[0], p)
     && var (c1, e1) := Next(c, inputs[0]);
        AllAllowed(c1, After(w, inputs[0], e1, p), inputs[1..], p))
  }

  function RunAfter(c: Chan, w: Wire, inputs: seq<Input>, p: nat): Wire
    decreases |inputs|
  {
    if inputs == [] then w
    else
      var (c1, e1) := Next(c, inputs[0]);
      RunAfter(c1, After(w, inputs[0], e1, p), inputs[1..], p)
  }

  lemma OneStep(c: Chan, w: Wire, inputs: seq<Input>, p: nat)
    requires inputs != []
    ensures var (c1, e1) := Next(c, inputs[0]);
            var rest := inputs[1..];
            && Run(c, inputs).0 == Run(c1, rest).0
            && (AllAllowed(c, w, inputs, p) <==>
                && Conforms(c, inputs[0]) && Allows(w, inputs[0], p)
                && AllAllowed(c1, After(w, inputs[0], e1, p), rest, p))
  {
  }

  /** Such a CAPI is a conforming one. */
  lemma {:induction false} AllowedConform(c: Chan, w: Wire, inputs: seq<Input>, p: nat)
    requires AllAllowed(c, w, inputs, p)
    ensures AllConform(c, inputs)
    decreases |inputs|
  {
    if inputs != [] {
      var (c1, e1) := Next(c, inputs[0]);
      AllowedConform(c1, After(w, inputs[0], e1, p), inputs[1..], p);
    }
  }

  // ---- the phase agrees with the channel's state ---------------------------------------------

  /** The phases of the channel's own connection.  A failed CONNECT_B3_CONF makes it send DISCONNECT_REQ and stay in
      its state. */
  predicate Stands(state: CapiState, line: Line) {
    match state
    case D_ConnectIndication => line == Offered
    case D_ConnectPending => line == Rising
    case D_DisconnectPending => line == Closing
    case D_DisconnectRespPending => line == Ended
    case _ => Alive(line)
  }

  /** Nothing illegal was sent; a connection that is not the channel's own is idle or being cleared. */
  predicate Agrees(c: Chan, w: Wire, p: nat) {
    && w.legal
    && (w.requested <==> c.state == D_ConnectRequest || (c.state == D_DisconnectPending && c.plci == 0))
    && (c.state == D_ConnectRequest ==> c.initiator && w.ours)
    && (c.state == D_ConnectIndication ==> !w.ours)
    && (c.state == D_ConnectPending ==> c.initiator == w.ours)
    && (w.asked ==> Alive(w.line))
    && (w.failed ==> w.line == Idle || w.line == Closing || w.line == Ended)
    && if c.plci == p then Stands(c.state, w.line) else w.line == Idle || w.line == Closing
  }

  lemma {:induction false} WatchAppend(w: Wire, x: seq<Event>, y: seq<Event>, p: nat)
    ensures WatchAll(w, x + y, p) == WatchAll(WatchAll(w, x, p), y, p)
    decreases |x|
  {
    if x == [] {
      assert x + y == y;
    } else {
      assert (x + y)[1..] == x[1..] + y;
      WatchAppend(Watch(w, x[0], p), x[1..], y, p);
    }
  }

  lemma WatchShort(w: Wire, log: seq<Event>, p: nat)
    ensures log == [] ==> WatchAll(w, log, p) == w
    ensures |log| == 1 ==> WatchAll(w, log, p) == Watch(w, log[0], p)
    ensures |log| == 2 ==> WatchAll(w, log, p) == Watch(Watch(w, log[0], p), log[1], p)
    ensures |log| == 3 ==> WatchAll(w, log, p) == Watch(Watch(Watch(w, log[0], p), log[1], p), log[2], p)
    decreases |log|
  {
    if log != [] {
      WatchShort(Watch(w, log[0], p), log[1..], p);
    }
  }

  /** A step keeps the phase in agreement with the state. */
  predicate Keeps(w: Wire, step: Step, p: nat) {
    Agrees(step.0, WatchAll(w, step.1, p), p)
  }

  lemma ReleaseAgrees(c: Chan, w: Wire, p: nat)
    requires Fits(c) && Agrees(c, w, p) && p != 0
    ensures Keeps(w, DoRelease(c), p)
  {
    WatchShort(w, DoRelease(c).1, p);
  }

  lemma DisconnectAgrees(c: Chan, fast: bool, w: Wire, p: nat)
    requires Fits(c) && Agrees(c, w, p) && p != 0
    ensures Keeps(w, DoDisconnect(c, fast), p)
  {
    if DoDisconnect(c, fast) == DropConnection(c) {
      WatchShort(w, [Sent(DisconnectReq(c.plci))], p);
    } else {
      WatchShort(w, DoDisconnect(c, fast).1, p);
    }
  }

  lemma AnswerAgrees(c: Chan, call: AppCall, w: Wire, p: nat)
    requires Fits(c) && Agrees(c, w, p) && p != 0
    requires call.AnswerConnect? || call.AnswerDisconnectB3?
    ensures Keeps(w, DoCall(c, call), p)
  {
    WatchShort(w, DoCall(c, call).1, p);
  }

  lemma CallAgrees(c: Chan, call: AppCall, w: Wire, p: nat)
    requires Fits(c) && Agrees(c, w, p) && p != 0
    ensures Keeps(w, DoCall(c, call), p)
  {
    match call
    case Release => ReleaseAgrees(c, w, p);
    case Disconnect(fast) => DisconnectAgrees(c, fast, w, p);
    case AnswerConnect(_) => AnswerAgrees(c, call, w, p);
    case AnswerDisconnectB3 => AnswerAgrees(c, call, w, p);
    case AcceptIncomingCall(_) =>
      DisconnectAgrees(c, false, w, p);
      assert WatchAll(w, [], p) == w;
    case _ => WatchShort(w, DoCall(c, call).1, p);
  }

  lemma {:induction false} CallsAgree(c: Chan, calls: seq<AppCall>, w: Wire, p: nat)
    requires Fits(c) && Agrees(c, w, p) && p != 0
    ensures Keeps(w, DoCalls(c, calls), p)
    decreases |calls|
  {
    if calls != [] {
      var (c1, e1) := DoCall(c, calls[0]);
      CallAgrees(c, calls[0], w, p);
      CallFits(c, calls[0]);
      CallsAgree(c1, calls[1..], WatchAll(w, e1, p), p);
      WatchAppend(w, e1, DoCalls(c1, calls[1..]).1, p);
    }
  }

  // ---- calls from within the callback of CONNECT_ACTIVE_IND ----------------------------------

  predicate FromConnected(state: CapiState) {
    state == D_Connected || state == ProtocolPending || state == D_DisconnectPending || state == Releasing
  }

  lemma CallFromConnected(c: Chan, call: AppCall, w: Wire, p: nat)
    requires FromConnected(c.state)
    ensures var (d, log) := DoCall(c, call);
            && FromConnected(d.state)
            && (d.state == D_Connected ==> d == c && WatchAll(w, log, p) == w)
            && Asks(log, p) == 0
  {
    WatchShort(w, DoCall(c, call).1, p);
    AsksShort(DoCall(c, call).1, p);
  }

  /** No call leads back to the connected state, and calls that stay there send nothing. */
  lemma {:induction false} CallsFromConnected(c: Chan, calls: seq<AppCall>, w: Wire, p: nat)
    requires FromConnected(c.state)
    ensures var (d, log) := DoCalls(c, calls);
            && FromConnected(d.state)
            && (d.state == D_Connected ==> d == c && WatchAll(w, log, p) == w)
            && Asks(log, p) == 0
    decreases |calls|
  {
    if calls != [] {
      var (c1, e1) := DoCall(c, calls[0]);
      CallFromConnected(c, calls[0], w, p);
      CallsFromConnected(c1, calls[1..], WatchAll(w, e1, p), p);
      WatchAppend(w, e1, DoCalls(c1, calls[1..]).1, p);
      AsksAppend(e1, DoCalls(c1, calls[1..]).1, p);
    }
  }

  // ---- CONNECT_B3_REQ ------------------------------------------------------------------------

  /** How often a B channel was asked for. */
  function Asks(log: seq<Event>, p: nat): nat {
    if log == [] then 0 else (if log[0] == Sent(ConnectB3Req(p)) then 1 else 0) + Asks(log[1..], p)
  }

  lemma {:induction false} AsksAppend(x: seq<Event>, y: seq<Event>, p: nat)
    ensures Asks(x + y, p) == Asks(x, p) + Asks(y, p)
  {
    if x == [] {
      assert x + y == y;
    } else {
      assert (x + y)[1..] == x[1..] + y;
      AsksAppend(x[1..], y, p);
    }
  }

  lemma {:induction false} AsksShort(log: seq<Event>, p: nat)
    ensures |log| == 1 ==> Asks(log, p) == if log[0] == Sent(ConnectB3Req(p)) then 1 else 0
    ensures (forall e | e in log :: !(e.Sent? && e.msg.ConnectB3Req?)) ==> Asks(log, p) == 0
  {
    if log != [] {
      AsksShort(log[1..], p);
      assert log[0] in log && forall e | e in log[1..] :: e in log;
    }
  }

  /** The CONNECT_ACTIVE_INDs that a B channel has to be asked for: those taken for a call of our own whose callback
      leaves the channel in D_Connected. */
  predicate IsDue(c: Chan, w: Wire, input: Input, p: nat) {
    && input.Indicate? && input.ind == ConnectActiveInd(p) && Takes(c, input.ind) && w.ours
    && DoCalls(Armed(c.(state := D_Connected), ForBChannel), input.inCallback).0.state == D_Connected
  }

  function Due(c: Chan, w: Wire, inputs: seq<Input>, p: nat): nat
    decreases |inputs|
  {
    if inputs == [] then 0
    else
      var (c1, e1) := Next(c, inputs[0]);
      (if IsDue(c, w, inputs[0], p) then 1 else 0) + Due(c1, After(w, inputs[0], e1, p), inputs[1..], p)
  }

  // ---- every step ----------------------------------------------------------------------------

  lemma ActiveIndSteps(c: Chan, ind: Indication, inCallback: seq<AppCall>, w: Wire, p: nat)
    requires Fits(c) && Agrees(c, w, p) && p != 0 && Allows(w, Indicate(ind, inCallback), p)
    requires ind.ConnectActiveInd? && Takes(c, ind)
    ensures Keeps(w, DoIndicate(c, ind, inCallback), p)
    ensures Asks(DoIndicate(c, ind, inCallback).1, p) == if IsDue(c, w, Indicate(ind, inCallback), p) then 1 else 0
  {
    var c0 := Armed(c.(state := D_Connected), ForBChannel);
    var (c1, es) := DoCalls(c0, inCallback);
    var tail := Outgoing(c1);
    var head := [Got(ind), Sent(ConnectActiveResp(ind.plci)), Call(OnConnectActive)];
    ActiveIndLog(c, ind, inCallback, head, es, tail);
    var w0 := WatchAll(w, head, p);
    WatchShort(w, head, p);
    assert Agrees(c0, w0, p);
    CallsAgree(c0, inCallback, w0, p);
    CallsFromConnected(c0, inCallback, w0, p);
    WatchShort(WatchAll(w0, es, p), tail, p);
    WatchAppend(w0, es, tail, p);
    WatchAppend(w, head, es + tail, p);
    AsksShort(head, p);
    AsksShort(tail, p);
    AsksAppend(es, tail, p);
    AsksAppend(head, es + tail, p);
  }

  lemma TakenAgrees(c: Chan, ind: Indication, inCallback: seq<AppCall>, w: Wire, p: nat)
    requires Fits(c) && Agrees(c, w, p) && p != 0
    requires Conforms(c, Indicate(ind, inCallback)) && Allows(w, Indicate(ind, inCallback), p)
    requires !ind.ConnectActiveInd? && Takes(c, ind)
    ensures Keeps(w, DoIndicate(c, ind, inCallback), p)
  {
    if ind.ConnectInd? || ind.DisconnectInd? {
      LineAgrees(c, ind, inCallback, w, p);
    } else {
      WatchShort(w, DoIndicate(c, ind, inCallback).1, p);
    }
  }

  /** The two indications that begin and end a connection. */
  lemma LineAgrees(c: Chan, ind: Indication, inCallback: seq<AppCall>, w: Wire, p: nat)
    requires Fits(c) && Agrees(c, w, p) && p != 0
    requires Conforms(c, Indicate(ind, inCallback)) && Allows(w, Indicate(ind, inCallback), p)
    requires (ind.ConnectInd? || ind.DisconnectInd?) && Takes(c, ind)
    ensures Keeps(w, DoIndicate(c, ind, inCallback), p)
  {
    WatchShort(w, DoIndicate(c, ind, inCallback).1, p);
  }

  lemma RefusedAgrees(c: Chan, ind: Indication, inCallback: seq<AppCall>, w: Wire, p: nat)
    requires Fits(c) && Agrees(c, w, p) && p != 0
    requires Conforms(c, Indicate(ind, inCallback)) && Allows(w, Indicate(ind, inCallback), p)
    requires !Takes(c, ind)
    ensures Keeps(w, DoIndicate(c, ind, inCallback), p)
  {
    WatchShort(w, DoIndicate(c, ind, inCallback).1, p);
  }

  lemma ConfirmAgrees(c: Chan, input: Input, w: Wire, p: nat)
    requires Fits(c) && Agrees(c, w, p) && p != 0 && Conforms(c, input) && Allows(w, input, p)
    requires !input.App? && !input.Indicate? && !input.TimerExpires? && !input.DisconnectConf?
    ensures Keeps(Heard(w, input, p), Next(c, input), p)
  {
    match input
    case ConnectConf(q, ok) => ConnectConfAgrees(c, q, ok, w, p);
    case ConnectB3Conf(n, ok) => ConnectB3ConfAgrees(c, n, ok, w, p);
    case RegisterComplete(result) => RegisterAgrees(c, result, w, p);
    case ReleaseComplete => ReleaseCompleteAgrees(c, w, p);
    case _ => WatchShort(w, Next(c, input).1, p);
  }

  lemma RegisterAgrees(c: Chan, result: Registration, w: Wire, p: nat)
    requires Fits(c) && Agrees(c, w, p) && p != 0 && Conforms(c, RegisterComplete(result))
    ensures Keeps(w, DoRegisterComplete(c, result), p)
  {
    WatchShort(w, DoRegisterComplete(c, result).1, p);
  }

  lemma ReleaseCompleteAgrees(c: Chan, w: Wire, p: nat)
    requires Agrees(c, w, p) && p != 0
    ensures Keeps(w, DoReleaseComplete(c), p)
  {
    WatchShort(w, DoReleaseComplete(c).1, p);
  }

  lemma ConnectConfAgrees(c: Chan, q: nat, ok: bool, w: Wire, p: nat)
    requires Fits(c) && Agrees(c, w, p) && p != 0 && Conforms(c, ConnectConf(q, ok)) && Allows(w, ConnectConf(q, ok), p)
    ensures Keeps(Heard(w, ConnectConf(q, ok), p), DoConnectConf(c, q, ok), p)
  {
    WatchShort(Heard(w, ConnectConf(q, ok), p), DoConnectConf(c, q, ok).1, p);
  }

  lemma ConnectB3ConfAgrees(c: Chan, n: nat, ok: bool, w: Wire, p: nat)
    requires Fits(c) && Agrees(c, w, p) && p != 0 && Allows(w, ConnectB3Conf(n, ok), p)
    ensures Keeps(Heard(w, ConnectB3Conf(n, ok), p), DoConnectB3Conf(c, n, ok), p)
  {
    WatchShort(Heard(w, ConnectB3Conf(n, ok), p), DoConnectB3Conf(c, n, ok).1, p);
  }

  lemma TimerAgrees(c: Chan, w: Wire, p: nat)
    requires Fits(c) && Agrees(c, w, p) && p != 0
    ensures Keeps(w, DoTimer(c), p)
  {
    var c1 := c.(timer := None);
    assert Agrees(c1, w, p) && WatchAll(w, [], p) == w;
    if c.state == D_DisconnectPending {
      ReleaseAgrees(c1, w, p);
    } else {
      DisconnectAgrees(c1, false, w, p);
    }
  }

  lemma NextAgrees(c: Chan, input: Input, w: Wire, p: nat)
    requires Fits(c) && Agrees(c, w, p) && p != 0 && Conforms(c, input) && Allows(w, input, p)
    ensures Keeps(Heard(w, input, p), Next(c, input), p)
  {
    match input
    case App(call) => CallAgrees(c, call, w, p);
    case TimerExpires => TimerAgrees(c, w, p);
    case DisconnectConf(_, _) =>
      ReleaseAgrees(c.(timer := None), w, p);
      assert WatchAll(w, [], p) == w;
    case Indicate(ind, inCallback) =>
      if !Takes(c, ind) {
        RefusedAgrees(c, ind, inCallback, w, p);
      } else if ind.ConnectActiveInd? {
        ActiveIndSteps(c, ind, inCallback, w, p);
      } else {
        TakenAgrees(c, ind, inCallback, w, p);
      }
    case _ => ConfirmAgrees(c, input, w, p);
  }

  lemma NextAsks(c: Chan, input: Input, w: Wire, p: nat)
    requires Fits(c) && Agrees(c, w, p) && p != 0 && Conforms(c, input) && Allows(w, input, p)
    ensures Asks(Next(c, input).1, p) == if IsDue(c, w, input, p) then 1 else 0
  {
    if input.Indicate? && input.ind.ConnectActiveInd? && Takes(c, input.ind) {
      ActiveIndSteps(c, input.ind, input.inCallback, w, p);
    } else {
      AsksShort(Next(c, input).1, p);
    }
  }

  /** Over every run in which the CAPI keeps to the diagram, the channel does: it sends no message about a connection
      that the phase does not allow, and the phase is the one that its state says.  So a channel that has given up a
      connection has sent DISCONNECT_REQ or refused it, and one that waits for the end of it is told nothing else. */
  lemma {:induction false} RunAgrees(c: Chan, w: Wire, inputs: seq<Input>, p: nat)
    requires Fits(c) && Agrees(c, w, p) && p != 0 && AllAllowed(c, w, inputs, p)
    ensures Agrees(Run(c, inputs).0, RunAfter(c, w, inputs, p), p)
    decreases |inputs|
  {
    if inputs != [] {
      var (c1, e1) := Next(c, inputs[0]);
      NextAgrees(c, inputs[0], w, p);
      NextFits(c, inputs[0]);
      RunAgrees(c1, After(w, inputs[0], e1, p), inputs[1..], p);
    }
  }

  /** And it asks for a B channel exactly as often as it should. */
  lemma {:induction false} RunAsks(c: Chan, w: Wire, inputs: seq<Input>, p: nat)
    requires Fits(c) && Agrees(c, w, p) && p != 0 && AllAllowed(c, w, inputs, p)
    ensures Asks(Run(c, inputs).1, p) == Due(c, w, inputs, p)
    decreases |inputs|
  {
    if inputs != [] {
      var (c1, e1) := Next(c, inputs[0]);
      NextAgrees(c, inputs[0], w, p);
      NextAsks(c, inputs[0], w, p);
      NextFits(c, inputs[0]);
      RunAsks(c1, After(w, inputs[0], e1, p), inputs[1..], p);
      AsksAppend(e1, Run(c1, inputs[1..]).1, p);
    }
  }
}
