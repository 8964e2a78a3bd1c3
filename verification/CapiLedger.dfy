/** What holds over all runs of the channel: its state invariant and the ledgers of answers. */
module CapiLedger {
  import opened CapiChan

  // ---- the channel invariant -----------------------------------------------------------------

  predicate ValidPlci(plci: nat) {
    0 < plci < 0x1_0000
  }

  /** Which of PLCI, NCCI, controller and initiator a state goes with. */
  predicate Fits(c: Chan) {
    match c.state
    case Released => Cleared(c)
    case Releasing => Cleared(c)
    case Registering => Cleared(c)
    case RegisterDelayed => Cleared(c)
    case Registered => Cleared(c)
    case D_ConnectRequest => c.plci == 0 && c.ncci == 0
    case D_ConnectIndication => DChannel(c) && !c.initiator
    case D_ConnectPending => DChannel(c)
    case D_Connected => DChannel(c)
    case ProtocolPending => DChannel(c)
    case D_DisconnectPending => c.ncci != 0 ==> BChannel(c)
    case D_DisconnectRespPending => BChannel(c)
    case B_DisconnectRespPending => BChannel(c)
    case B_DisconnectPending => BChannel(c)
    case B_ConnectPending => BChannel(c)
    case Connected => BChannel(c)
    case _ => false
  }

  predicate Cleared(c: Chan) {
    c.plci == 0 && c.ncci == 0 && c.controller == 0 && !c.initiator
  }

  predicate DChannel(c: Chan) {
    ValidPlci(c.plci) && c.ncci == 0
  }

  predicate BChannel(c: Chan) {
    ValidPlci(c.plci) && PlciOf(c.ncci) == c.plci
  }

  /** What a CAPI that keeps to the protocol may send in a state: real addresses, registration results
      when they are due, one CONNECT_CONF for a CONNECT_REQ, one DISCONNECT_B3_IND for a connection that
      has a B channel, and one DISCONNECT_IND for a connection. */
  predicate Conforms(c: Chan, input: Input) {
    match input
    case RegisterComplete(_) => c.state.Registering? || c.state.RegisterDelayed? || c.state.Releasing?
    case ReleaseComplete => !c.state.Released?
    case ConnectConf(plci, ok) =>
      (ok ==> ValidPlci(plci)) && (c.state.D_DisconnectPending? ==> c.plci == 0)
    case ConnectB3Conf(ncci, _) => ValidPlci(PlciOf(ncci))
    case Indicate(ConnectInd(plci), _) => ValidPlci(plci)
    case Indicate(ConnectB3Ind(ncci), _) => ValidPlci(PlciOf(ncci))
    case Indicate(DisconnectB3Ind(ncci), _) =>
      && ValidPlci(PlciOf(ncci))
      && (ncci == c.ncci ==>
            c.state.B_ConnectPending? || c.state.Connected? || c.state.B_DisconnectPending?
            || c.state.D_DisconnectPending?)
    case Indicate(DisconnectInd(plci), _) =>
      ValidPlci(plci) && (plci == c.plci ==> !c.state.D_DisconnectRespPending?)
    case _ => true
  }

  lemma CallFits(c: Chan, call: AppCall)
    requires Fits(c)
    ensures Fits(DoCall(c, call).0)
  {}

  lemma {:induction false} CallsFit(c: Chan, calls: seq<AppCall>)
    requires Fits(c)
    ensures Fits(DoCalls(c, calls).0)
    decreases |calls|
  {
    if calls != [] {
      CallFits(c, calls[0]);
      CallsFit(DoCall(c, calls[0]).0, calls[1..]);
    }
  }

  lemma IndicateFits(c: Chan, ind: Indication, inCallback: seq<AppCall>)
    requires Fits(c) && Conforms(c, Indicate(ind, inCallback))
    ensures Fits(DoIndicate(c, ind, inCallback).0)
  {
    if ind.ConnectActiveInd? && Takes(c, ind) {
      CallsFit(Armed(c.(state := D_Connected), ForBChannel), inCallback);
    }
  }

  lemma ConfirmFits(c: Chan, input: Input)
    requires Fits(c) && Conforms(c, input) && !input.App? && !input.Indicate?
    ensures Fits(Next(c, input).0)
  {
  }

  lemma NextFits(c: Chan, input: Input)
    requires Fits(c) && Conforms(c, input)
    ensures Fits(Next(c, input).0)
  {
    match input
    case App(call) => CallFits(c, call);
    case Indicate(ind, inCallback) => IndicateFits(c, ind, inCallback);
    case _ => ConfirmFits(c, input);
  }

  // ---- runs ----------------------------------------------------------------------------------

  function Run(c: Chan, inputs: seq<Input>): Step
    decreases |inputs|
  {
    if inputs == [] then (c, [])
    else
      var (c1, e1) := Next(c, inputs[0]);
      var (c2, e2) := Run(c1, inputs[1..]);
      (c2, e1 + e2)
  }

  predicate AllConform(c: Chan, inputs: seq<Input>)
    decreases |inputs|
  {
    inputs == [] || (Conforms(c, inputs[0]) && AllConform(Next(c, inputs[0]).0, inputs[1..]))
  }

  /** The channel invariant holds in every state that a conforming CAPI can lead to. */
  lemma {:induction false} RunFits(c: Chan, inputs: seq<Input>)
    requires Fits(c) && AllConform(c, inputs)
    ensures Fits(Run(c, inputs).0)
    decreases |inputs|
  {
    if inputs != [] {
      NextFits(c, inputs[0]);
      RunFits(Next(c, inputs[0]).0, inputs[1..]);
    }
  }

  // ---- every indication of a connection is answered once -------------------------------------

  /** An account of the indications of one kind and address, and of the responses to them. */
  datatype Account = OfConnect(plci: nat) | OfActive(plci: nat) | OfB3(ncci: nat) | OfB3Active(ncci: nat)

  function Weight(a: Account, e: Event): int {
    match e
    case Got(ConnectInd(p)) => if a == OfConnect(p) then 1 else 0
    case Sent(ConnectResp(p, _)) => if a == OfConnect(p) then -1 else 0
    case Got(ConnectActiveInd(p)) => if a == OfActive(p) then 1 else 0
    case Sent(ConnectActiveResp(p)) => if a == OfActive(p) then -1 else 0
    case Got(ConnectB3Ind(n)) => if a == OfB3(n) then 1 else 0
    case Sent(ConnectB3Resp(n, _)) => if a == OfB3(n) then -1 else 0
    case Got(ConnectB3ActiveInd(n)) => if a == OfB3Active(n) then 1 else 0
    case Sent(ConnectB3ActiveResp(n)) => if a == OfB3Active(n) then -1 else 0
    case _ => 0
  }

  /** Indications received less responses sent. */
  function Open(a: Account, log: seq<Event>): int {
    if log == [] then 0 else Weight(a, log[0]) + Open(a, log[1..])
  }

  lemma {:induction false} OpenAppend(a: Account, x: seq<Event>, y: seq<Event>)
    ensures Open(a, x + y) == Open(a, x) + Open(a, y)
  {
    if x == [] {
      assert x + y == y;
    } else {
      assert (x + y)[1..] == x[1..] + y;
      OpenAppend(a, x[1..], y);
    }
  }

  lemma OpenShort(a: Account, log: seq<Event>)
    ensures |log| == 1 ==> Open(a, log) == Weight(a, log[0])
    ensures |log| == 2 ==> Open(a, log) == Weight(a, log[0]) + Weight(a, log[1])
    ensures |log| == 3 ==> Open(a, log) == Weight(a, log[0]) + Weight(a, log[1]) + Weight(a, log[2])
  {
    if |log| == 3 {
      assert log[1..][1..] == [log[2]];
    }
  }

  /** A CONNECT_IND that waits for the application's answer. */
  function Waiting(c: Chan, a: Account): nat {
    if c.state == D_ConnectIndication && a == OfConnect(c.plci) then 1 else 0
  }

  /** A step's effect on an account: nothing is left open but a CONNECT_IND that waits for its answer,
      and one that waited may also be given up without any. */
  predicate Booked(a: Account, c: Chan, step: Step) {
    if a.OfConnect? then Open(a, step.1) >= Waiting(step.0, a) - Waiting(c, a) else Open(a, step.1) == 0
  }

  lemma CallBooked(c: Chan, call: AppCall, a: Account)
    ensures Booked(a, c, DoCall(c, call))
  {
    OpenShort(a, DoCall(c, call).1);
  }

  lemma {:induction false} CallsBooked(c: Chan, calls: seq<AppCall>, a: Account)
    ensures Booked(a, c, DoCalls(c, calls))
    decreases |calls|
  {
    if calls != [] {
      var (c1, e1) := DoCall(c, calls[0]);
      CallBooked(c, calls[0], a);
      CallsBooked(c1, calls[1..], a);
      OpenAppend(a, e1, DoCalls(c1, calls[1..]).1);
    }
  }

  lemma ActiveIndLog(c: Chan, ind: Indication, inCallback: seq<AppCall>, head: seq<Event>, es: seq<Event>,
                     tail: seq<Event>)
    requires ind.ConnectActiveInd? && Takes(c, ind)
    requires head == [Got(ind), Sent(ConnectActiveResp(ind.plci)), Call(OnConnectActive)]
    requires DoCalls(Armed(c.(state := D_Connected), ForBChannel), inCallback).1 == es
    requires tail == Outgoing(DoCalls(Armed(c.(state := D_Connected), ForBChannel), inCallback).0)
    ensures DoIndicate(c, ind, inCallback).1 == head + (es + tail)
  {
  }

  lemma ActiveIndBooked(c: Chan, ind: Indication, inCallback: seq<AppCall>, a: Account)
    requires ind.ConnectActiveInd? && Takes(c, ind)
    ensures Booked(a, c, DoIndicate(c, ind, inCallback))
  {
    var c0 := Armed(c.(state := D_Connected), ForBChannel);
    var (c1, es) := DoCalls(c0, inCallback);
    var tail := Outgoing(c1);
    var head := [Got(ind), Sent(ConnectActiveResp(ind.plci)), Call(OnConnectActive)];
    ActiveIndLog(c, ind, inCallback, head, es, tail);
    CallsBooked(c0, inCallback, a);
    OpenShort(a, head);
    OpenShort(a, tail);
    OpenAppend(a, es, tail);
    OpenAppend(a, head, es + tail);
  }

  lemma IndicateBooked(c: Chan, ind: Indication, inCallback: seq<AppCall>, a: Account)
    ensures Booked(a, c, DoIndicate(c, ind, inCallback))
  {
    if ind.ConnectActiveInd? && Takes(c, ind) {
      ActiveIndBooked(c, ind, inCallback, a);
    } else {
      OpenShort(a, DoIndicate(c, ind, inCallback).1);
    }
  }

  lemma NextBooked(c: Chan, input: Input, a: Account)
    ensures Booked(a, c, Next(c, input))
  {
    match input
    case App(call) => CallBooked(c, call, a);
    case Indicate(ind, inCallback) => IndicateBooked(c, ind, inCallback, a);
    case _ => OpenShort(a, Next(c, input).1);
  }

  /** Over every run, conforming or not, and for every address: CONNECT_ACTIVE_IND, CONNECT_B3_IND and
      CONNECT_B3_ACTIVE_IND have each been answered exactly as often as they came, and CONNECT_IND no
      more often, with one answer still to come while it waits. */
  lemma {:induction false} RunBooked(c: Chan, inputs: seq<Input>, a: Account)
    ensures Booked(a, c, Run(c, inputs))
    decreases |inputs|
  {
    if inputs != [] {
      var (c1, e1) := Next(c, inputs[0]);
      NextBooked(c, inputs[0], a);
      RunBooked(c1, inputs[1..], a);
      OpenAppend(a, e1, Run(c1, inputs[1..]).1);
    }
  }

  // ---- DISCONNECT_RESP -----------------------------------------------------------------------

  /** The DISCONNECT_RESPs that a log leaves owed for a PLCI; a release settles everything. */
  function Owed(owed: int, log: seq<Event>, plci: nat): int
    decreases |log|
  {
    if log == [] then owed else Owed(OwedAfter(owed, log[0], plci), log[1..], plci)
  }

  function OwedAfter(owed: int, e: Event, plci: nat): int {
    match e
    case Got(DisconnectInd(p)) => if p == plci then owed + 1 else owed
    case Sent(DisconnectResp(p)) => if p == plci then owed - 1 else owed
    case RELEASE => 0
    case Call(OnRelease) => 0
    case _ => owed
  }

  lemma {:induction false} OwedAppend(owed: int, x: seq<Event>, y: seq<Event>, plci: nat)
    ensures Owed(owed, x + y, plci) == Owed(Owed(owed, x, plci), y, plci)
    decreases |x|
  {
    if x == [] {
      assert x + y == y;
    } else {
      assert (x + y)[1..] == x[1..] + y;
      OwedAppend(OwedAfter(owed, x[0], plci), x[1..], y, plci);
    }
  }

  lemma OwedShort(owed: int, log: seq<Event>, plci: nat)
    ensures |log| == 1 ==> Owed(owed, log, plci) == OwedAfter(owed, log[0], plci)
    ensures |log| == 2 ==> Owed(owed, log, plci) == OwedAfter(OwedAfter(owed, log[0], plci), log[1], plci)
    ensures |log| == 3 ==>
              (Owed(owed, log, plci)
               == OwedAfter(OwedAfter(OwedAfter(owed, log[0], plci), log[1], plci), log[2], plci))
    decreases |log|
  {
    if |log| > 0 {
      OwedShort(OwedAfter(owed, log[0], plci), log[1..], plci);
    }
  }

  /** Whether the channel waits for the application before it answers the end of a connection. */
  function Pending(c: Chan, plci: nat): int {
    if c.state == D_DisconnectRespPending && c.plci == plci then 1 else 0
  }

  lemma CallOwes(c: Chan, call: AppCall, plci: nat)
    requires Fits(c)
    ensures Owed(Pending(c, plci), DoCall(c, call).1, plci) == Pending(DoCall(c, call).0, plci)
  {
    OwedShort(Pending(c, plci), DoCall(c, call).1, plci);
  }

  lemma {:induction false} CallsOwe(c: Chan, calls: seq<AppCall>, plci: nat)
    requires Fits(c)
    ensures Owed(Pending(c, plci), DoCalls(c, calls).1, plci) == Pending(DoCalls(c, calls).0, plci)
    decreases |calls|
  {
    if calls != [] {
      var (c1, e1) := DoCall(c, calls[0]);
      CallOwes(c, calls[0], plci);
      CallFits(c, calls[0]);
      CallsOwe(c1, calls[1..], plci);
      OwedAppend(Pending(c, plci), e1, DoCalls(c1, calls[1..]).1, plci);
    }
  }

  lemma ActiveIndOwes(c: Chan, ind: Indication, inCallback: seq<AppCall>, plci: nat)
    requires Fits(c) && ind.ConnectActiveInd? && Takes(c, ind)
    ensures var (c', log) := DoIndicate(c, ind, inCallback);
            Owed(Pending(c, plci), log, plci) == Pending(c', plci)
  {
    var c0 := Armed(c.(state := D_Connected), ForBChannel);
    var (c1, es) := DoCalls(c0, inCallback);
    var tail := Outgoing(c1);
    var head := [Got(ind), Sent(ConnectActiveResp(ind.plci)), Call(OnConnectActive)];
    assert DoIndicate(c, ind, inCallback).1 == head + (es + tail);
    CallsOwe(c0, inCallback, plci);
    OwedShort(0, head, plci);
    OwedShort(Pending(c1, plci), tail, plci);
    OwedAppend(0, es, tail, plci);
    OwedAppend(0, head, es + tail, plci);
  }

  lemma NextOwes(c: Chan, input: Input, plci: nat)
    requires Fits(c) && Conforms(c, input)
    ensures Owed(Pending(c, plci), Next(c, input).1, plci) == Pending(Next(c, input).0, plci)
  {
    match input
    case App(call) => CallOwes(c, call, plci);
    case Indicate(ind, inCallback) =>
      if ind.ConnectActiveInd? && Takes(c, ind) {
        ActiveIndOwes(c, ind, inCallback, plci);
      } else {
        OwedShort(Pending(c, plci), DoIndicate(c, ind, inCallback).1, plci);
      }
    case _ => ConfirmOwes(c, input, plci);
  }

  lemma ConfirmOwes(c: Chan, input: Input, plci: nat)
    requires Fits(c) && Conforms(c, input) && !input.App? && !input.Indicate?
    ensures Owed(Pending(c, plci), Next(c, input).1, plci) == Pending(Next(c, input).0, plci)
  {
    OwedShort(Pending(c, plci), Next(c, input).1, plci);
  }

  /** Over every conforming run a DISCONNECT_RESP is owed exactly while the channel is in
      D_DisconnectRespPending, and then one, for its PLCI. */
  lemma {:induction false} RunOwes(c: Chan, inputs: seq<Input>, plci: nat)
    requires Fits(c) && AllConform(c, inputs)
    ensures Owed(Pending(c, plci), Run(c, inputs).1, plci) == Pending(Run(c, inputs).0, plci)
    decreases |inputs|
  {
    if inputs != [] {
      var (c1, e1) := Next(c, inputs[0]);
      NextOwes(c, inputs[0], plci);
      NextFits(c, inputs[0]);
      RunOwes(c1, inputs[1..], plci);
      OwedAppend(Pending(c, plci), e1, Run(c1, inputs[1..]).1, plci);
    }
  }

  // ---- CONNECT_B3_REQ ------------------------------------------------------------------------

  /** Whether a call of our own has begun that no CONNECT_B3_REQ was sent for. */
  function Credit(credit: bool, log: seq<Event>): bool
    decreases |log|
  {
    if log == [] then credit else Credit(CreditAfter(credit, log[0]), log[1..])
  }

  predicate CreditAfter(credit: bool, e: Event) {
    match e
    case Sent(ConnectReq(_)) => true
    case Sent(ConnectB3Req(_)) => false
    case Call(OnConnect) => false
    case _ => credit
  }

  /** CONNECT_B3_REQ is sent only with credit: at most once for a CONNECT_REQ, and never after an incoming
      call was taken. */
  predicate Disciplined(credit: bool, log: seq<Event>)
    decreases |log|
  {
    log == [] ||
    ((log[0].Sent? && log[0].msg.ConnectB3Req? ==> credit) && Disciplined(CreditAfter(credit, log[0]), log[1..]))
  }

  lemma {:induction false} CreditAppend(credit: bool, x: seq<Event>, y: seq<Event>)
    ensures Credit(credit, x + y) == Credit(Credit(credit, x), y)
    ensures Disciplined(credit, x + y) <==> Disciplined(credit, x) && Disciplined(Credit(credit, x), y)
    decreases |x|
  {
    if x == [] {
      assert x + y == y;
    } else {
      assert (x + y)[1..] == x[1..] + y;
      CreditAppend(CreditAfter(credit, x[0]), x[1..], y);
    }
  }

  lemma CreditShort(credit: bool, log: seq<Event>)
    requires |log| <= 3 && forall e | e in log :: !(e.Sent? && e.msg.ConnectB3Req?)
    ensures Disciplined(credit, log)
    ensures Call(OnConnect) !in log && credit ==> Credit(credit, log)
    ensures |log| == 1 ==> Credit(credit, log) == CreditAfter(credit, log[0])
    decreases |log|
  {
    if |log| > 0 {
      assert log[0] in log && forall e | e in log[1..] :: e in log;
      CreditShort(CreditAfter(credit, log[0]), log[1..]);
    }
  }

  /** The initiator flag is set only while there is credit. */
  predicate Backed(credit: bool, c: Chan) {
    c.initiator ==> credit
  }

  lemma CallBacked(c: Chan, call: AppCall, credit: bool)
    requires Fits(c) && Backed(credit, c)
    ensures var (c', log) := DoCall(c, call); Disciplined(credit, log) && Backed(Credit(credit, log), c')
  {
    CreditShort(credit, DoCall(c, call).1);
  }

  lemma {:induction false} CallsBacked(c: Chan, calls: seq<AppCall>, credit: bool)
    requires Fits(c) && Backed(credit, c)
    ensures var (c', log) := DoCalls(c, calls); Disciplined(credit, log) && Backed(Credit(credit, log), c')
    decreases |calls|
  {
    if calls != [] {
      var (c1, e1) := DoCall(c, calls[0]);
      CallBacked(c, calls[0], credit);
      CallFits(c, calls[0]);
      CallsBacked(c1, calls[1..], Credit(credit, e1));
      CreditAppend(credit, e1, DoCalls(c1, calls[1..]).1);
    }
  }

  lemma ActiveIndBacked(c: Chan, ind: Indication, inCallback: seq<AppCall>, credit: bool)
    requires Fits(c) && Backed(credit, c) && ind.ConnectActiveInd? && Takes(c, ind)
    ensures Disciplined(credit, DoIndicate(c, ind, inCallback).1)
  {
    var c0 := Armed(c.(state := D_Connected), ForBChannel);
    var (c1, es) := DoCalls(c0, inCallback);
    var tail := Outgoing(c1);
    var head := [Got(ind), Sent(ConnectActiveResp(ind.plci)), Call(OnConnectActive)];
    assert DoIndicate(c, ind, inCallback).1 == head + (es + tail);
    CreditShort(credit, head);
    CallsBacked(c0, inCallback, Credit(credit, head));
    CreditAppend(Credit(credit, head), es, tail);
    CreditAppend(credit, head, es + tail);
  }

  lemma NextBacked(c: Chan, input: Input, credit: bool)
    requires Fits(c) && Conforms(c, input) && Backed(credit, c)
    ensures var (c', log) := Next(c, input); Disciplined(credit, log) && Backed(Credit(credit, log), c')
  {
    match input
    case App(call) => CallBacked(c, call, credit);
    case Indicate(ind, inCallback) =>
      if ind.ConnectActiveInd? && Takes(c, ind) {
        ActiveIndBacked(c, ind, inCallback, credit);
      } else {
        IndicateBacked(c, ind, inCallback, credit);
      }
    case _ => CreditShort(credit, Next(c, input).1);
  }

  lemma IndicateBacked(c: Chan, ind: Indication, inCallback: seq<AppCall>, credit: bool)
    requires Fits(c) && Conforms(c, Indicate(ind, inCallback)) && Backed(credit, c)
    requires !(ind.ConnectActiveInd? && Takes(c, ind))
    ensures var (c', log) := DoIndicate(c, ind, inCallback);
            Disciplined(credit, log) && Backed(Credit(credit, log), c')
  {
    CreditShort(credit, DoIndicate(c, ind, inCallback).1);
  }

  /** Over every conforming run CONNECT_B3_REQ is sent at most once for an outgoing call and never for an
      incoming one, even when the application calls back from within CONNECT_ACTIVE_IND. */
  lemma {:induction false} RunDisciplined(c: Chan, inputs: seq<Input>, credit: bool)
    requires Fits(c) && AllConform(c, inputs) && Backed(credit, c)
    ensures Disciplined(credit, Run(c, inputs).1) && Backed(Credit(credit, Run(c, inputs).1), Run(c, inputs).0)
    decreases |inputs|
  {
    if inputs != [] {
      var (c1, e1) := Next(c, inputs[0]);
      NextBacked(c, inputs[0], credit);
      NextFits(c, inputs[0]);
      RunDisciplined(c1, inputs[1..], Credit(credit, e1));
      CreditAppend(credit, e1, Run(c1, inputs[1..]).1);
    }
  }

  // ---- the log of a channel ------------------------------------------------------------------

  /** What the log since the channel was new says, and how the channel stands. */
  ghost predicate InOrder(c: Chan, log: seq<Event>) {
    && Fits(c)
    && (forall a: Account :: if a.OfConnect? then Open(a, log) >= Waiting(c, a) else Open(a, log) == 0)
    && (forall plci: nat :: Owed(0, log, plci) == Pending(c, plci))
    && Disciplined(false, log) && Backed(Credit(false, log), c)
  }

  lemma OpenStays(c: Chan, log: seq<Event>, inputs: seq<Input>, a: Account)
    requires InOrder(c, log)
    ensures var (c', es) := Run(c, inputs);
            if a.OfConnect? then Open(a, log + es) >= Waiting(c', a) else Open(a, log + es) == 0
  {
    RunBooked(c, inputs, a);
    OpenAppend(a, log, Run(c, inputs).1);
  }

  lemma OwedStays(c: Chan, log: seq<Event>, inputs: seq<Input>, plci: nat)
    requires InOrder(c, log) && AllConform(c, inputs)
    ensures Owed(0, log + Run(c, inputs).1, plci) == Pending(Run(c, inputs).0, plci)
  {
    RunOwes(c, inputs, plci);
    OwedAppend(0, log, Run(c, inputs).1, plci);
  }

  /** A conforming run keeps the whole log in order, whatever came before. */
  lemma StaysInOrder(c: Chan, log: seq<Event>, inputs: seq<Input>)
    requires InOrder(c, log) && AllConform(c, inputs)
    ensures InOrder(Run(c, inputs).0, log + Run(c, inputs).1)
  {
    var (c', es) := Run(c, inputs);
    RunFits(c, inputs);
    forall a: Account
      ensures if a.OfConnect? then Open(a, log + es) >= Waiting(c', a) else Open(a, log + es) == 0
    {
      OpenStays(c, log, inputs, a);
    }
    forall plci: nat ensures Owed(0, log + es, plci) == Pending(c', plci) {
      OwedStays(c, log, inputs, plci);
    }
    RunDisciplined(c, inputs, Credit(false, log));
    CreditAppend(false, log, es);
  }
}
