/** What the application is told: the callbacks of a call in their order, and the blocks it has put. */
module CapiTold {
  import opened Options
  import opened CapiChan
  import opened CapiLedger
  import opened CapiWire
  import opened CapiB3Wire
  import opened CapiTimer

  /** What the application knows of its call by the callbacks, its own CONNECT_REQ and its answers. */
  datatype Told = Alone | Dialling | Confirmed | Offered | Answered | Active | Talking | Broken

  /** proper: no callback came that does not follow on what was told before. */
  datatype Report = Report(proper: bool, told: Told)

  const NewReport := Report(true, Alone)

  function Tell(a: Report, proper: bool, told: Told): Report {
    Report(a.proper && proper, told)
  }

  function Notice(a: Report, e: Event): Report {
    match e
    case Sent(ConnectReq(_)) => Tell(a, a.told == Alone, Dialling)
    case Sent(ConnectResp(_, true)) => Tell(a, a.told == Told.Offered, Answered)
    case Call(OnConnectConf) => Tell(a, a.told == Dialling, Confirmed)
    case Call(OnConnect) => Tell(a, a.told == Alone, Told.Offered)
    case Call(OnConnectActive) => Tell(a, a.told == Confirmed || a.told == Answered, Active)
    case Call(OnConnectB3Active) => Tell(a, a.told == Active, Talking)
    case Call(OnDisconnectB3) => Tell(a, HasConnection(a.told), Broken)
    case Call(OnDisconnect) => Tell(a, true, Alone)
    case Call(OnRelease) => Tell(a, a.told == Alone, Alone)
    case RELEASE => Tell(a, true, Alone)
    case _ => a
  }

  predicate HasConnection(told: Told) {
    told == Active || told == Talking || told == Broken
  }

  function NoticeAll(a: Report, log: seq<Event>): Report
    decreases |log|
  {
    if log == [] then a else NoticeAll(Notice(a, log[0]), log[1..])
  }

  /** A call that the application has refused itself is over. */
  function Since(a: Report, input: Input, log: seq<Event>): Report {
    if input == App(AnswerConnect(false)) && log != [] then a.(told := Alone) else NoticeAll(a, log)
  }

  function RunSince(c: Chan, a: Report, inputs: seq<Input>): Report
    decreases |inputs|
  {
    if inputs == [] then a
    else
      var (c1, e1) := Next(c, inputs[0]);
      RunSince(c1, Since(a, inputs[0], e1), inputs[1..])
  }

  /** What the application has been told in each state. */
  predicate Knows(c: Chan, a: Report) {
    a.proper &&
    match c.state
    case D_ConnectRequest => a.told == Dialling
    case D_ConnectIndication => a.told == Told.Offered
    case D_ConnectPending => a.told == Confirmed || a.told == Answered
    case D_Connected => a.told == Active
    case ProtocolPending => a.told == Active
    case B_ConnectPending => a.told == Active
    case Connected => a.told == Talking
    case B_DisconnectPending => a.told == Active || a.told == Talking
    case B_DisconnectRespPending => a.told == Broken
    case D_DisconnectRespPending => a.told == Broken
    case D_DisconnectPending => a.told != Alone && (c.ncci != 0 ==> HasConnection(a.told))
    case _ => a.told == Alone
  }

  lemma {:induction false} NoticeAppend(a: Report, x: seq<Event>, y: seq<Event>)
    ensures NoticeAll(a, x + y) == NoticeAll(NoticeAll(a, x), y)
    decreases |x|
  {
    if x == [] {
      assert x + y == y;
    } else {
      assert (x + y)[1..] == x[1..] + y;
      NoticeAppend(Notice(a, x[0]), x[1..], y);
    }
  }

  lemma NoticeShort(a: Report, log: seq<Event>)
    ensures log == [] ==> NoticeAll(a, log) == a
    ensures |log| == 1 ==> NoticeAll(a, log) == Notice(a, log[0])
    ensures |log| == 2 ==> NoticeAll(a, log) == Notice(Notice(a, log[0]), log[1])
    ensures |log| == 3 ==> NoticeAll(a, log) == Notice(Notice(Notice(a, log[0]), log[1]), log[2])
    decreases |log|
  {
    if log != [] {
      NoticeShort(Notice(a, log[0]), log[1..]);
    }
  }

  lemma CallKnows(c: Chan, call: AppCall, a: Report)
    requires Fits(c) && Knows(c, a)
    ensures Knows(DoCall(c, call).0, Since(a, App(call), DoCall(c, call).1))
  {
    match call
    case Disconnect(fast) => DisconnectKnows(c, fast, a);
    case AnswerConnect(accept) => AnswerKnows(c, accept, a);
    case AcceptIncomingCall(_) =>
      DisconnectKnows(c, false, a);
      assert NoticeAll(a, []) == a;
    case Release => ReleaseKnows(c, a);
    case AnswerDisconnectB3 => AnswerB3Knows(c, a);
    case _ => NoticeShort(a, DoCall(c, call).1);
  }

  lemma AnswerB3Knows(c: Chan, a: Report)
    requires Fits(c) && Knows(c, a)
    ensures Knows(DoAnswerDisconnectB3(c).0, NoticeAll(a, DoAnswerDisconnectB3(c).1))
  {
    NoticeShort(a, DoAnswerDisconnectB3(c).1);
  }

  lemma ReleaseKnows(c: Chan, a: Report)
    requires Fits(c) && Knows(c, a)
    ensures Knows(DoRelease(c).0, NoticeAll(a, DoRelease(c).1))
  {
    NoticeShort(a, DoRelease(c).1);
  }

  lemma AnswerKnows(c: Chan, accept: bool, a: Report)
    requires Fits(c) && Knows(c, a)
    ensures Knows(DoAnswerConnect(c, accept).0, Since(a, App(AnswerConnect(accept)), DoAnswerConnect(c, accept).1))
  {
    NoticeShort(a, DoAnswerConnect(c, accept).1);
  }

  lemma DisconnectKnows(c: Chan, fast: bool, a: Report)
    requires Fits(c) && Knows(c, a)
    ensures Knows(DoDisconnect(c, fast).0, NoticeAll(a, DoDisconnect(c, fast).1))
  {
    NoticeShort(a, DoDisconnect(c, fast).1);
  }

  lemma NestedKnows(c: Chan, call: AppCall, a: Report)
    requires Fits(c) && FromConnected(c.state) && Knows(c, a)
    ensures FromConnected(DoCall(c, call).0.state)
    ensures Knows(DoCall(c, call).0, NoticeAll(a, DoCall(c, call).1))
  {
    NoticeShort(a, DoCall(c, call).1);
  }

  lemma {:induction false} AllNestedKnow(c: Chan, calls: seq<AppCall>, a: Report)
    requires Fits(c) && FromConnected(c.state) && Knows(c, a)
    ensures FromConnected(DoCalls(c, calls).0.state)
    ensures Knows(DoCalls(c, calls).0, NoticeAll(a, DoCalls(c, calls).1))
    decreases |calls|
  {
    if calls != [] {
      var (c1, e1) := DoCall(c, calls[0]);
      NestedKnows(c, calls[0], a);
      CallFits(c, calls[0]);
      AllNestedKnow(c1, calls[1..], NoticeAll(a, e1));
      NoticeAppend(a, e1, DoCalls(c1, calls[1..]).1);
    }
  }

  lemma ActiveIndKnows(c: Chan, ind: Indication, inCallback: seq<AppCall>, a: Report)
    requires Fits(c) && Knows(c, a) && ind.ConnectActiveInd? && Takes(c, ind)
    ensures Knows(DoIndicate(c, ind, inCallback).0, NoticeAll(a, DoIndicate(c, ind, inCallback).1))
  {
    var c0 := Armed(c.(state := D_Connected), ForBChannel);
    var (c1, es) := DoCalls(c0, inCallback);
    var tail := Outgoing(c1);
    var head := [Got(ind), Sent(ConnectActiveResp(ind.plci)), Call(OnConnectActive)];
    ActiveIndLog(c, ind, inCallback, head, es, tail);
    var a0 := NoticeAll(a, head);
    NoticeShort(a, head);
    AllNestedKnow(c0, inCallback, a0);
    NoticeShort(NoticeAll(a0, es), tail);
    NoticeAppend(a0, es, tail);
    NoticeAppend(a, head, es + tail);
  }

  lemma TakenKnows(c: Chan, ind: Indication, inCallback: seq<AppCall>, a: Report)
    requires Fits(c) && Knows(c, a) && Conforms(c, Indicate(ind, inCallback))
    requires Takes(c, ind) && !ind.ConnectActiveInd?
    ensures Knows(DoIndicate(c, ind, inCallback).0, NoticeAll(a, DoIndicate(c, ind, inCallback).1))
  {
    NoticeShort(a, DoIndicate(c, ind, inCallback).1);
  }

  lemma RefusedKnows(c: Chan, ind: Indication, inCallback: seq<AppCall>, a: Report)
    requires Knows(c, a) && !Takes(c, ind)
    ensures Knows(DoIndicate(c, ind, inCallback).0, NoticeAll(a, DoIndicate(c, ind, inCallback).1))
  {
    NoticeShort(a, DoIndicate(c, ind, inCallback).1);
  }

  lemma ConfirmKnows(c: Chan, input: Input, w: Wire, p: nat, a: Report)
    requires Fits(c) && Knows(c, a) && Agrees(c, w, p) && Conforms(c, input) && Allows(w, input, p)
    requires !input.App? && !input.Indicate?
    ensures Knows(Next(c, input).0, NoticeAll(a, Next(c, input).1))
  {
    if input.TimerExpires? {
      DisconnectKnows(c.(timer := None), false, a);
    }
    NoticeShort(a, Next(c, input).1);
  }

  lemma NextKnows(c: Chan, input: Input, w: Wire, p: nat, a: Report)
    requires Fits(c) && Knows(c, a) && Agrees(c, w, p) && Conforms(c, input) && Allows(w, input, p)
    ensures Knows(Next(c, input).0, Since(a, input, Next(c, input).1))
  {
    match input
    case App(call) => CallKnows(c, call, a);
    case Indicate(ind, inCallback) =>
      if !Takes(c, ind) {
        RefusedKnows(c, ind, inCallback, a);
      } else if ind.ConnectActiveInd? {
        ActiveIndKnows(c, ind, inCallback, a);
      } else {
        TakenKnows(c, ind, inCallback, a);
      }
    case _ => ConfirmKnows(c, input, w, p, a);
  }

  /** Over every run in which the CAPI keeps to the diagram: the callbacks of a call come in their order, each in
      the state it belongs to, and a call that is over has been reported as over, unless the application has refused
      it or asked for the release itself. */
  lemma {:induction false} RunKnows(c: Chan, w: Wire, inputs: seq<Input>, p: nat, a: Report)
    requires Fits(c) && Knows(c, a) && Agrees(c, w, p) && p != 0 && AllAllowed(c, w, inputs, p)
    ensures Knows(Run(c, inputs).0, RunSince(c, a, inputs))
    decreases |inputs|
  {
    if inputs != [] {
      var (c1, e1) := Next(c, inputs[0]);
      NextKnows(c, inputs[0], w, p, a);
      NextAgrees(c, inputs[0], w, p);
      NextFits(c, inputs[0]);
      RunKnows(c1, After(w, inputs[0], e1, p), inputs[1..], p, Since(a, inputs[0], e1));
    }
  }

  /** All of it for a new channel, every PLCI and every NCCI. */
  lemma NewChannel(inputs: seq<Input>, p: nat, n: nat)
    requires p != 0 && ValidPlci(PlciOf(n))
    requires AllAllowed(NewChan, NewWire, inputs, p) && AllAllowedB3(NewChan, NewB3, inputs, n)
    ensures var c := Run(NewChan, inputs).0;
            && Fits(c) && Watched(c)
            && Agrees(c, RunAfter(NewChan, NewWire, inputs, p), p)
            && AgreesB3(c, RunAfterB3(NewChan, NewB3, inputs, n), n)
            && Knows(c, RunSince(NewChan, NewReport, inputs))
    ensures Asks(Run(NewChan, inputs).1, p) == Due(NewChan, NewWire, inputs, p)
  {
    AllowedConform(NewChan, NewWire, inputs, p);
    RunFits(NewChan, inputs);
    RunWatched(NewChan, NewWire, inputs, p);
    RunAgrees(NewChan, NewWire, inputs, p);
    RunAsks(NewChan, NewWire, inputs, p);
    RunAgreesB3(NewChan, NewB3, inputs, n);
    RunKnows(NewChan, NewWire, inputs, p, NewReport);
  }
}
