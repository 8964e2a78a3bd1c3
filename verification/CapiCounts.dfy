/** Data in both directions, and what else a step gives at most once: as many as there should be. */
module CapiCounts {
  import opened CapiChan
  import opened CapiLedger
  import opened CapiWire

  function Count(log: seq<Event>, e: Event): nat {
    if log == [] then 0 else (if log[0] == e then 1 else 0) + Count(log[1..], e)
  }

  lemma {:induction false} CountAppend(x: seq<Event>, y: seq<Event>, e: Event)
    ensures Count(x + y, e) == Count(x, e) + Count(y, e)
  {
    if x == [] {
      assert x + y == y;
    } else {
      assert (x + y)[1..] == x[1..] + y;
      CountAppend(x[1..], y, e);
    }
  }

  lemma {:induction false} CountShort(log: seq<Event>, e: Event)
    ensures |log| == 1 ==> Count(log, e) == if log[0] == e then 1 else 0
    ensures e !in log ==> Count(log, e) == 0
  {
    if log != [] {
      CountShort(log[1..], e);
      assert log[0] in log && forall x | x in log[1..] :: x in log;
    }
  }

  function Puts(calls: seq<AppCall>, handle: nat): nat {
    if calls == [] then 0 else (if calls[0] == Data(handle) then 1 else 0) + Puts(calls[1..], handle)
  }

  predicate IsCounted(e: Event) {
    match e
    case Sent(DataB3Req(_, _)) => true
    case Sent(DataB3Resp(_, _)) => true
    case Call(OnDataB3Conf(_)) => true
    case Call(OnDataB3) => true
    case Sent(AlertReq(_)) => true
    case Sent(InfoResp(_)) => true
    case Call(OnInfo) => true
    case Call(OnRegister) => true
    case REGISTER => true
    case _ => false
  }

  /** How often a step has to give such an event.  A block that is put goes to the line while the connection stands and
      is confirmed at once while it does not; a confirmation from the line and data from it are handed on; the
      application's answer goes out while the connection stands, and data of another connection is answered at once.
      An alert goes out while a call waits for its answer, information is answered and handed on, and a registration
      begins only from a released channel and is reported unless a release is pending. */
  function Emits(c: Chan, input: Input, e: Event): nat
    requires IsCounted(e)
  {
    match e
    case Sent(DataB3Req(n, h)) => if input == App(Data(h)) && c.state == Connected && c.ncci == n then 1 else 0
    case Sent(DataB3Resp(n, h)) =>
      if input == App(AnswerData(h)) && c.state == Connected && c.ncci == n then 1
      else if input.Indicate? && input.ind == DataB3Ind(n, h) && c.ncci != n then 1
      else 0
    case Call(OnDataB3Conf(h)) => Confirms(c, input, h)
    case Call(OnDataB3) => if input.Indicate? && input.ind.DataB3Ind? && input.ind.ncci == c.ncci then 1 else 0
    case Sent(AlertReq(p)) => if input == App(Alert) && c.state == D_ConnectIndication && c.plci == p then 1 else 0
    case Sent(InfoResp(a)) =>
      if input.Indicate? && input.ind.InfoInd?
         && a == (if input.ind.addr == c.plci then ControllerOf(c.plci) else input.ind.addr) then 1
      else 0
    case Call(OnInfo) => if input.Indicate? && input.ind == InfoInd(c.plci) then 1 else 0
    case Call(OnRegister) => if input.RegisterComplete? && c.state != Releasing then 1 else 0
    case REGISTER => if input == App(Register) && c.state == Released then 1 else 0
  }

  function Confirms(c: Chan, input: Input, handle: nat): nat {
    match input
    case App(Data(h)) => if h == handle && c.state != Connected then 1 else 0
    case Indicate(ind, inCallback) => if ind.ConnectActiveInd? && Takes(c, ind) then Puts(inCallback, handle) else 0
    case DataB3Conf(n, h) => if n == c.ncci && h == handle then 1 else 0
    case _ => 0
  }

  function AllEmits(c: Chan, inputs: seq<Input>, e: Event): nat
    requires IsCounted(e)
    decreases |inputs|
  {
    if inputs == [] then 0 else Emits(c, inputs[0], e) + AllEmits(Next(c, inputs[0]).0, inputs[1..], e)
  }

  /** Of the calls from within a callback only blocks that are put give such an event. */
  function NestedEmits(calls: seq<AppCall>, e: Event): nat {
    if e.Call? && e.callback.OnDataB3Conf? then Puts(calls, e.callback.handle) else 0
  }

  lemma OneCounts(c: Chan, call: AppCall, e: Event)
    requires IsCounted(e)
    ensures Count(DoCall(c, call).1, e) == Emits(c, App(call), e)
  {
    CountShort(DoCall(c, call).1, e);
  }

  lemma {:induction false} NestedCounts(c: Chan, calls: seq<AppCall>, e: Event)
    requires IsCounted(e) && FromConnected(c.state)
    ensures Count(DoCalls(c, calls).1, e) == NestedEmits(calls, e)
    decreases |calls|
  {
    if calls != [] {
      var (c1, e1) := DoCall(c, calls[0]);
      OneCounts(c, calls[0], e);
      CallFromConnected(c, calls[0], NewWire, 0);
      NestedCounts(c1, calls[1..], e);
      CountAppend(e1, DoCalls(c1, calls[1..]).1, e);
    }
  }

  lemma ActiveIndCounts(c: Chan, ind: Indication, inCallback: seq<AppCall>, e: Event)
    requires IsCounted(e) && ind.ConnectActiveInd? && Takes(c, ind)
    ensures Count(DoIndicate(c, ind, inCallback).1, e) == NestedEmits(inCallback, e)
  {
    var c0 := Armed(c.(state := D_Connected), ForBChannel);
    var (c1, es) := DoCalls(c0, inCallback);
    var tail := Outgoing(c1);
    var head := [Got(ind), Sent(ConnectActiveResp(ind.plci)), Call(OnConnectActive)];
    ActiveIndLog(c, ind, inCallback, head, es, tail);
    NestedCounts(c0, inCallback, e);
    CountShort(head, e);
    CountShort(tail, e);
    CountAppend(es, tail, e);
    CountAppend(head, es + tail, e);
  }

  lemma NextCounts(c: Chan, input: Input, e: Event)
    requires IsCounted(e)
    ensures Count(Next(c, input).1, e) == Emits(c, input, e)
  {
    if input.App? {
      OneCounts(c, input.call, e);
    } else if input.Indicate? && input.ind.ConnectActiveInd? && Takes(c, input.ind) {
      ActiveIndCounts(c, input.ind, input.inCallback, e);
    } else if input.Indicate? {
      IndicateCounts(c, input.ind, input.inCallback, e);
    } else {
      CountShort(Next(c, input).1, e);
    }
  }

  lemma IndicateCounts(c: Chan, ind: Indication, inCallback: seq<AppCall>, e: Event)
    requires IsCounted(e) && !(ind.ConnectActiveInd? && Takes(c, ind))
    ensures Count(DoIndicate(c, ind, inCallback).1, e) == Emits(c, Indicate(ind, inCallback), e)
  {
    match ind
    case DataB3Ind(n, h) =>
      var answer := if n == c.ncci then Call(OnDataB3) else Sent(DataB3Resp(n, h));
      CountTwo(Got(ind), answer, e);
      assert DoIndicate(c, ind, inCallback).1 == [Got(ind), answer];
    case InfoInd(addr) => InfoCounts(c, addr, inCallback, e);
    case _ => CountShort(DoIndicate(c, ind, inCallback).1, e);
  }

  lemma InfoCounts(c: Chan, addr: nat, inCallback: seq<AppCall>, e: Event)
    requires IsCounted(e)
    ensures Count(DoIndicate(c, InfoInd(addr), inCallback).1, e) == Emits(c, Indicate(InfoInd(addr), inCallback), e)
  {
    var resp := Sent(InfoResp(if addr == c.plci then ControllerOf(addr) else addr));
    var rest := if addr == c.plci then [Call(OnInfo)] else [];
    CountTwo(Got(InfoInd(addr)), resp, e);
    CountShort(rest, e);
    CountAppend([Got(InfoInd(addr)), resp], rest, e);
    assert DoIndicate(c, InfoInd(addr), inCallback).1 == [Got(InfoInd(addr)), resp] + rest;
  }

  lemma CountTwo(x: Event, y: Event, e: Event)
    ensures Count([x, y], e) == (if x == e then 1 else 0) + (if y == e then 1 else 0)
  {
    assert [x, y] == [x] + [y];
    CountShort([x], e);
    CountShort([y], e);
    CountAppend([x], [y], e);
  }

  /** Over every run, for every connection and handle: as many messages and callbacks as there should be. */
  lemma {:induction false} RunCounts(c: Chan, inputs: seq<Input>, e: Event)
    requires IsCounted(e)
    ensures Count(Run(c, inputs).1, e) == AllEmits(c, inputs, e)
    decreases |inputs|
  {
    if inputs != [] {
      var (c1, e1) := Next(c, inputs[0]);
      NextCounts(c, inputs[0], e);
      RunCounts(c1, inputs[1..], e);
      CountAppend(e1, Run(c1, inputs[1..]).1, e);
    }
  }
}
