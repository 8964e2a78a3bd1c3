/** The CAPI channel: every call, confirmation, indication and timer expiry as one step, with the
    messages sent and the callbacks made. */
module CapiChan {
  import opened Options

  datatype CapiState =
    | Released | Releasing | Registering | RegisterDelayed | Registered
    | D_DisconnectRespPending | D_DisconnectPending | CallDeflecting
    | D_ConnectRequest | D_ConnectIndication | ResumePending | D_ConnectPending | SuspendPending
    | Holded | HoldPending | RetrievePending | ProtocolPending | D_Connected
    | B_DisconnectRespPending | B_DisconnectPending | B_ConnectPending | Connected

  datatype TimerKind = ForRinging | ForBChannel | ForDisconnect

  /** Controller, PLCI and NCCI are zero when there is none. */
  datatype Chan = Chan(
    state: CapiState, controller: nat, plci: nat, ncci: nat, initiator: bool,
    ringing: nat, timer: Option<TimerKind>)

  datatype Message =
    | ConnectReq(controller: nat) | ConnectResp(plci: nat, accept: bool) | ConnectActiveResp(plci: nat)
    | ConnectB3Req(plci: nat) | ConnectB3Resp(ncci: nat, accept: bool) | ConnectB3ActiveResp(ncci: nat)
    | DataB3Req(ncci: nat, handle: nat) | DataB3Resp(ncci: nat, handle: nat)
    | DisconnectB3Req(ncci: nat) | DisconnectB3Resp(ncci: nat)
    | DisconnectReq(plci: nat) | DisconnectResp(plci: nat)
    | AlertReq(plci: nat) | SelectBProtocolReq(plci: nat) | InfoResp(addr: nat)

  datatype Indication =
    | ConnectInd(plci: nat) | ConnectActiveInd(plci: nat) | ConnectB3Ind(ncci: nat)
    | ConnectB3ActiveInd(ncci: nat) | DataB3Ind(ncci: nat, handle: nat)
    | DisconnectB3Ind(ncci: nat) | DisconnectInd(plci: nat) | InfoInd(addr: nat)

  datatype Callback =
    | OnRegister | OnRelease | OnConnectConf | OnDataB3Conf(handle: nat) | OnSelectBProtocolConf
    | OnConnect | OnConnectActive | OnConnectB3Active | OnDataB3 | OnDisconnectB3 | OnDisconnect | OnInfo

  /** What the log records: an indication received, a message sent, a callback, and the calls of the
      message layer that register and release the application. */
  datatype Event =
    | Got(ind: Indication) | Sent(msg: Message) | Call(callback: Callback) | REGISTER | RELEASE

  type Step = (Chan, seq<Event>)

  /** Calls of the application. */
  datatype AppCall =
    | Register | Release | Connect(controller: nat) | Data(handle: nat) | Disconnect(fast: bool)
    | AnswerConnect(accept: bool) | AnswerData(handle: nat) | AnswerDisconnectB3 | Alert
    | SelectBProtocol | AcceptIncomingCall(plciFree: bool)

  datatype Registration = Succeeded | Delayed | Failed

  datatype Input =
    | App(call: AppCall)
    | RegisterComplete(result: Registration) | ReleaseComplete
    | ConnectConf(plci: nat, ok: bool) | ConnectB3Conf(ncci: nat, ok: bool)
    | DataB3Conf(ncci: nat, handle: nat) | DisconnectB3Conf(ncci: nat, ok: bool)
    | DisconnectConf(plci: nat, ok: bool) | SelectBProtocolConf(plci: nat)
    | Indicate(ind: Indication, inCallback: seq<AppCall>)
    | TimerExpires

  const NewChan := Chan(Released, 0, 0, 0, false, 0, None)

  function PlciOf(ncci: nat): nat {
    ncci % 0x1_0000
  }

  function ControllerOf(plci: nat): nat {
    plci % 0x80
  }

  function ResetValues(c: Chan): Chan {
    c.(plci := 0, ncci := 0, controller := 0, initiator := false)
  }

  function Armed(c: Chan, kind: TimerKind): Chan {
    c.(timer := Some(kind))
  }

  // ---- calls of the application --------------------------------------------------------------

  function DoRelease(c: Chan): Step {
    match c.state
    case Released => (c, [Call(OnRelease)])
    case Releasing => (c, [])
    case Registering => (ResetValues(c.(state := Releasing)), [])
    case _ => (ResetValues(c.(state := Releasing)), [RELEASE])
  }

  function DoDisconnect(c: Chan, fast: bool): Step {
    match c.state
    case D_ConnectRequest => (Armed(c.(state := D_DisconnectPending), ForDisconnect), [])
    case D_ConnectIndication =>
      (Armed(c.(state := D_DisconnectPending), ForDisconnect), [Sent(ConnectResp(c.plci, false))])
    case D_DisconnectRespPending => (c, [])
    case D_DisconnectPending => (c, [])
    case B_DisconnectRespPending => if fast then DropConnection(c) else (c, [])
    case B_DisconnectPending => if fast then DropConnection(c) else (c, [])
    case B_ConnectPending => if fast then DropConnection(c) else DropBChannel(c)
    case Connected => if fast then DropConnection(c) else DropBChannel(c)
    case Released => (c, [Call(OnDisconnect)])
    case Releasing => (c, [Call(OnDisconnect)])
    case Registering => (c, [Call(OnDisconnect)])
    case RegisterDelayed => (c, [Call(OnDisconnect)])
    case Registered => (c, [Call(OnDisconnect)])
    case _ => DropConnection(c)
  }

  function DropBChannel(c: Chan): Step {
    (c.(state := B_DisconnectPending), [Sent(DisconnectB3Req(c.ncci))])
  }

  function DropConnection(c: Chan): Step {
    (Armed(c.(state := D_DisconnectPending), ForDisconnect), [Sent(DisconnectReq(c.plci))])
  }

  function DoAnswerConnect(c: Chan, accept: bool): Step {
    if c.state != D_ConnectIndication then (c, [])
    else if accept then (c.(state := D_ConnectPending), [Sent(ConnectResp(c.plci, true))])
    else (ResetValues(c.(state := Registered)), [Sent(ConnectResp(c.plci, false))])
  }

  /** After the B channel's end the D channel is given up too. */
  function DoAnswerDisconnectB3(c: Chan): Step {
    match c.state
    case B_DisconnectRespPending =>
      (Armed(c.(state := D_DisconnectPending, ncci := 0), ForDisconnect),
       [Sent(DisconnectB3Resp(c.ncci)), Sent(DisconnectReq(c.plci))])
    case D_DisconnectRespPending =>
      (ResetValues(c.(state := Registered, timer := None)),
       [Sent(DisconnectB3Resp(c.ncci)), Sent(DisconnectResp(c.plci)), Call(OnDisconnect)])
    case _ => (c, [])
  }

  function DoCall(c: Chan, call: AppCall): Step {
    match call
    case Register => if c.state == Released then (c.(state := Registering), [REGISTER]) else (c, [])
    case Release => DoRelease(c)
    case Connect(controller) =>
      if c.state == Registered then
        (c.(state := D_ConnectRequest, controller := controller, initiator := true), [Sent(ConnectReq(controller))])
      else (c, [])
    case Data(handle) =>
      (c, [if c.state == Connected then Sent(DataB3Req(c.ncci, handle)) else Call(OnDataB3Conf(handle))])
    case Disconnect(fast) => DoDisconnect(c, fast)
    case AnswerConnect(accept) => DoAnswerConnect(c, accept)
    case AnswerData(handle) => (c, if c.state == Connected then [Sent(DataB3Resp(c.ncci, handle))] else [])
    case AnswerDisconnectB3 => DoAnswerDisconnectB3(c)
    case Alert => (c, if c.state == D_ConnectIndication then [Sent(AlertReq(c.plci))] else [])
    case SelectBProtocol =>
      if c.state == D_Connected then (c.(state := ProtocolPending), [Sent(SelectBProtocolReq(c.plci))])
      else (c, [Call(OnSelectBProtocolConf)])
    case AcceptIncomingCall(plciFree) =>
      if c.state != D_ConnectIndication || plciFree then (c, []) else DoDisconnect(c, false)
  }

  function DoCalls(c: Chan, calls: seq<AppCall>): Step
    decreases |calls|
  {
    if calls == [] then (c, [])
    else
      var (c1, e1) := DoCall(c, calls[0]);
      var (c2, e2) := DoCalls(c1, calls[1..]);
      (c2, e1 + e2)
  }

  // ---- confirmations -------------------------------------------------------------------------

  function DoRegisterComplete(c: Chan, result: Registration): Step {
    if c.state == Releasing then
      (ResetValues(c), [if result == Failed then Call(OnRelease) else RELEASE])
    else
      (c.(state := match result case Succeeded => Registered case Delayed => RegisterDelayed case Failed => Released),
       [Call(OnRegister)])
  }

  function DoReleaseComplete(c: Chan): Step {
    (ResetValues(c).(state := Released, timer := None),
     (match c.state
      case Released => []
      case RegisterDelayed => []
      case Releasing => []
      case Registered => []
      case Registering => []
      case _ => [Call(OnDisconnect)]) + [Call(OnRelease)])
  }

  function DoConnectConf(c: Chan, plci: nat, ok: bool): Step {
    if ok then
      if c.state == D_ConnectRequest then
        var c1 := c.(state := D_ConnectPending, plci := plci);
        (if c.ringing > 0 then Armed(c1, ForRinging) else c1, [Call(OnConnectConf)])
      else
        (if c.state == D_DisconnectPending then Armed(c.(plci := plci), ForDisconnect) else c,
         [Sent(DisconnectReq(plci))])
    else
      var state := if c.state == D_ConnectRequest || c.state == D_DisconnectPending then Registered else c.state;
      (c.(state := state, controller := 0, initiator := false), [Call(OnDisconnect)])
  }

  function DoConnectB3Conf(c: Chan, ncci: nat, ok: bool): Step {
    if ok && PlciOf(ncci) == c.plci && c.state == D_Connected then
      (c.(state := B_ConnectPending, ncci := ncci), [])
    else (c, [Sent(DisconnectReq(PlciOf(ncci)))])
  }

  function DoDisconnectConf(c: Chan, plci: nat, ok: bool): Step {
    if plci == c.plci && !ok then DoRelease(c.(timer := None)) else (c, [])
  }

  /** The confirmation does not lead back to the connected state. */
  function DoSelectBProtocolConf(c: Chan, plci: nat): Step {
    if plci == c.plci && c.state == D_Connected then (c.(state := ProtocolPending), [Call(OnSelectBProtocolConf)])
    else (c, [])
  }

  // ---- indications ---------------------------------------------------------------------------

  /** The base class's answer to an indication that the channel refuses. */
  function DefaultAnswer(ind: Indication): seq<Event> {
    match ind
    case ConnectInd(plci) => [Sent(ConnectResp(plci, false))]
    case ConnectActiveInd(plci) => [Sent(ConnectActiveResp(plci)), Sent(DisconnectReq(plci))]
    case ConnectB3Ind(ncci) => [Sent(ConnectB3Resp(ncci, false))]
    case ConnectB3ActiveInd(ncci) => [Sent(ConnectB3ActiveResp(ncci)), Sent(DisconnectB3Req(ncci))]
    case DataB3Ind(ncci, handle) => [Sent(DataB3Resp(ncci, handle))]
    case DisconnectB3Ind(ncci) => [Sent(DisconnectB3Resp(ncci))]
    case DisconnectInd(plci) => [Sent(DisconnectResp(plci))]
    case InfoInd(addr) => [Sent(InfoResp(addr))]
  }

  /** Whether the channel's own handler takes the indication. */
  predicate Takes(c: Chan, ind: Indication) {
    match ind
    case ConnectInd(plci) => c.state == Registered
    case ConnectActiveInd(plci) => plci == c.plci && c.state == D_ConnectPending
    case ConnectB3Ind(ncci) => PlciOf(ncci) == c.plci && c.state == D_Connected
    case ConnectB3ActiveInd(ncci) => ncci == c.ncci && c.state == B_ConnectPending
    case DataB3Ind(ncci, _) => ncci == c.ncci
    case DisconnectB3Ind(ncci) => ncci == c.ncci
    case DisconnectInd(plci) => plci == c.plci
    case InfoInd(addr) => addr == c.plci
  }

  /** The caller's side asks for the B channel, unless the application has left the connected state. */
  function Outgoing(c: Chan): seq<Event> {
    if c.state == D_Connected && c.initiator then [Sent(ConnectB3Req(c.plci))] else []
  }

  /** The channel's handler.  `inCallback` are the calls that the application makes from within the
      callback of CONNECT_ACTIVE_IND, the only callback after which a handler goes on. */
  function Handle(c: Chan, ind: Indication, inCallback: seq<AppCall>): Step
    requires Takes(c, ind)
  {
    match ind
    case ConnectInd(plci) =>
      (c.(state := D_ConnectIndication, plci := plci, controller := ControllerOf(plci)), [Call(OnConnect)])
    case ConnectActiveInd(plci) =>
      var (c1, es) := DoCalls(Armed(c.(state := D_Connected), ForBChannel), inCallback);
      (c1.(initiator := false),
       [Sent(ConnectActiveResp(plci))] + [Call(OnConnectActive)] + es + Outgoing(c1))
    case ConnectB3Ind(ncci) =>
      (c.(state := B_ConnectPending, ncci := ncci), [Sent(ConnectB3Resp(ncci, true))])
    case ConnectB3ActiveInd(ncci) =>
      (c.(state := Connected, timer := None), [Sent(ConnectB3ActiveResp(ncci)), Call(OnConnectB3Active)])
    case DataB3Ind(_, _) => (c, [Call(OnDataB3)])
    case DisconnectB3Ind(_) =>
      (if c.state == D_DisconnectPending then c else c.(state := B_DisconnectRespPending), [Call(OnDisconnectB3)])
    case DisconnectInd(plci) =>
      if c.state == B_DisconnectRespPending then (c.(state := D_DisconnectRespPending, timer := None), [])
      else
        (ResetValues(c.(timer := None)).(state := Registered), [Sent(DisconnectResp(plci)), Call(OnDisconnect)])
    case InfoInd(addr) => (c, [Sent(InfoResp(ControllerOf(addr))), Call(OnInfo)])
  }

  /** HandleGetMessage for an indication. */
  function DoIndicate(c: Chan, ind: Indication, inCallback: seq<AppCall>): Step {
    var (c1, es) := if Takes(c, ind) then Handle(c, ind, inCallback) else (c, DefaultAnswer(ind));
    (c1, [Got(ind)] + es)
  }

  // ---- the timer, and one step of any kind ---------------------------------------------------

  function DoTimer(c: Chan): Step {
    var c1 := c.(timer := None);
    match c.state
    case B_ConnectPending => if c.timer == Some(ForRinging) then (c1, []) else DoDisconnect(c1, false)
    case D_Connected => if c.timer == Some(ForRinging) then (c1, []) else DoDisconnect(c1, false)
    case D_ConnectPending => DoDisconnect(c1, false)
    case D_ConnectRequest => DoDisconnect(c1, false)
    case D_DisconnectPending => DoRelease(c1)
    case _ => (c1, [])
  }

  function Next(c: Chan, input: Input): Step {
    match input
    case App(call) => DoCall(c, call)
    case RegisterComplete(result) => DoRegisterComplete(c, result)
    case ReleaseComplete => DoReleaseComplete(c)
    case ConnectConf(plci, ok) => DoConnectConf(c, plci, ok)
    case ConnectB3Conf(ncci, ok) => DoConnectB3Conf(c, ncci, ok)
    case DataB3Conf(ncci, handle) =>
      (c, [if ncci == c.ncci then Call(OnDataB3Conf(handle)) else Sent(DisconnectB3Req(ncci))])
    case DisconnectB3Conf(ncci, ok) => (c, if ncci == c.ncci && ok then [] else [Sent(DisconnectReq(PlciOf(ncci)))])
    case DisconnectConf(plci, ok) => DoDisconnectConf(c, plci, ok)
    case SelectBProtocolConf(plci) => DoSelectBProtocolConf(c, plci)
    case Indicate(ind, inCallback) => DoIndicate(c, ind, inCallback)
    case TimerExpires => DoTimer(c)
  }
}
