/** CCAPI20_Channel: the handlers as they change the channel's fields, against the steps of CapiChan. */
module CapiChannel {
  import opened Options
  import opened CapiChan
  import opened CapiLedger

  lemma RegroupFive<T>(a: seq<T>, b: seq<T>, c: seq<T>, d: seq<T>, e: seq<T>)
    ensures a + b + c + d + e == a + (b + c + d + e)
  {
  }

  lemma CallsFirst(c: Chan, calls: seq<AppCall>, before: seq<Event>)
    ensures calls == [] ==> DoCalls(c, calls) == (c, []) && before + [] == before
    ensures calls != [] ==>
              var (c1, e1) := DoCall(c, calls[0]);
              && DoCalls(c, calls).0 == DoCalls(c1, calls[1..]).0
              && before + DoCalls(c, calls).1 == before + e1 + DoCalls(c1, calls[1..]).1
  {
    if calls != [] {
      var (c1, e1) := DoCall(c, calls[0]);
      var e2 := DoCalls(c1, calls[1..]).1;
      assert before + e1 + e2 == before + (e1 + e2);
    }
  }

  lemma InputsFirst(c: Chan, inputs: seq<Input>, before: seq<Event>)
    ensures inputs == [] ==> Run(c, inputs) == (c, []) && before + [] == before
    ensures inputs != [] ==>
              var (c1, e1) := Next(c, inputs[0]);
              && Run(c, inputs).0 == Run(c1, inputs[1..]).0
              && before + Run(c, inputs).1 == before + e1 + Run(c1, inputs[1..]).1
  {
    if inputs != [] {
      var (c1, e1) := Next(c, inputs[0]);
      var e2 := Run(c1, inputs[1..]).1;
      assert before + e1 + e2 == before + (e1 + e2);
    }
  }

  class Channel {
    var curState: CapiState
    var controller: nat
    var plci: nat
    var ncci: nat
    var initiator: bool
    var ringingTimeout: nat
    var timer: Option<TimerKind>
    ghost var log: seq<Event>

    ghost function Here(): Chan
      reads this
    {
      Chan(curState, controller, plci, ncci, initiator, ringingTimeout, timer)
    }

    /** The channel is where a step leads, and the log has grown by what the step reports. */
    ghost predicate Did(step: Step, before: seq<Event>)
      reads this
    {
      Here() == step.0 && log == before + step.1
    }

    constructor ()
      ensures Here() == NewChan && log == [] && InOrder(Here(), log)
    {
      curState, controller, plci, ncci, initiator := Released, 0, 0, 0, false;
      ringingTimeout, timer, log := 0, None, [];
    }

    /** Test and set, under the channel's lock. */
    method SetState(newState: CapiState, oldState: CapiState) returns (done: bool)
      modifies this`curState
      ensures done == (old(curState) == oldState)
      ensures curState == if done then newState else old(curState)
    {
      done := curState == oldState;
      if done {
        curState := newState;
      }
    }

    ghost method Note(es: seq<Event>)
      modifies this`log
      ensures log == old(log) + es
    {
      log := log + es;
    }

    method ResetValues()
      modifies this`plci, this`ncci, this`controller, this`initiator
      ensures Here() == CapiChan.ResetValues(old(Here()))
    {
      plci, ncci, controller, initiator := 0, 0, 0, false;
    }

    // ---- calls -------------------------------------------------------------------------------

    method Register()
      modifies this
      ensures Did(DoCall(old(Here()), AppCall.Register), old(log))
    {
      var ok := SetState(Registering, Released);
      if ok {
        Note([REGISTER]);
      }
    }

    method Release()
      modifies this
      ensures Did(DoRelease(old(Here())), old(log))
    {
      match curState
      case Released => Note([Call(OnRelease)]);
      case Releasing =>
      case Registering =>
        curState := Releasing;
        ResetValues();
      case _ =>
        curState := Releasing;
        ResetValues();
        Note([RELEASE]);
    }

    method ConnectReq(target: nat) returns (ok: bool)
      modifies this
      ensures ok == (old(curState) == Registered)
      ensures Did(DoCall(old(Here()), Connect(target)), old(log))
    {
      ok := SetState(D_ConnectRequest, Registered);
      if ok {
        controller := target;
        initiator := true;
        Note([Sent(Message.ConnectReq(target))]);
      }
    }

    method DisconnectReq(fastDisconnect: bool)
      modifies this
      ensures Did(DoDisconnect(old(Here()), fastDisconnect), old(log))
    {
      match curState
      case D_ConnectRequest =>
        curState, timer := D_DisconnectPending, Some(ForDisconnect);
      case D_ConnectIndication =>
        curState, timer := D_DisconnectPending, Some(ForDisconnect);
        Note([Sent(Message.ConnectResp(plci, false))]);
      case D_DisconnectRespPending =>
      case D_DisconnectPending =>
      case B_DisconnectRespPending =>
        if fastDisconnect {
          DropD();
        }
      case B_DisconnectPending =>
        if fastDisconnect {
          DropD();
        }
      case B_ConnectPending => DropB(fastDisconnect);
      case Connected => DropB(fastDisconnect);
      case Released => Note([Call(OnDisconnect)]);
      case Releasing => Note([Call(OnDisconnect)]);
      case Registering => Note([Call(OnDisconnect)]);
      case RegisterDelayed => Note([Call(OnDisconnect)]);
      case Registered => Note([Call(OnDisconnect)]);
      case _ => DropD();
    }

    method DropD()
      modifies this
      ensures Did(DropConnection(old(Here())), old(log))
    {
      curState, timer := D_DisconnectPending, Some(ForDisconnect);
      Note([Sent(Message.DisconnectReq(plci))]);
    }

    method DropB(fast: bool)
      modifies this
      ensures Did(if fast then DropConnection(old(Here())) else DropBChannel(old(Here())), old(log))
    {
      if fast {
        DropD();
      } else {
        curState := B_DisconnectPending;
        Note([Sent(DisconnectB3Req(ncci))]);
      }
    }

    method ConnectResp(accept: bool)
      modifies this
      ensures Did(DoAnswerConnect(old(Here()), accept), old(log))
    {
      if accept {
        var ok := SetState(D_ConnectPending, D_ConnectIndication);
        if ok {
          Note([Sent(Message.ConnectResp(plci, true))]);
        }
      } else {
        var ok := SetState(D_DisconnectPending, D_ConnectIndication);
        if ok {
          Note([Sent(Message.ConnectResp(plci, false))]);
          ResetValues();
          ok := SetState(Registered, D_DisconnectPending);
        }
      }
    }

    method DisconnectB3Resp()
      modifies this
      ensures Did(DoAnswerDisconnectB3(old(Here())), old(log))
    {
      var ok := SetState(D_Connected, B_DisconnectRespPending);
      if ok {
        Note([Sent(Message.DisconnectB3Resp(ncci))]);
        ncci := 0;
        ok := SetState(D_DisconnectPending, D_Connected);
        if ok {
          timer := Some(ForDisconnect);
          Note([Sent(Message.DisconnectReq(plci))]);
        }
        return;
      }
      EndConnection();
    }

    /** The answer that DISCONNECT_IND has waited for. */
    method EndConnection()
      requires curState != B_DisconnectRespPending
      modifies this
      ensures Did(DoAnswerDisconnectB3(old(Here())), old(log))
    {
      var ok := SetState(Registered, D_DisconnectRespPending);
      if ok {
        timer := None;
        Note([Sent(Message.DisconnectB3Resp(ncci))]);
        ncci := 0;
        Note([Sent(DisconnectResp(plci))]);
        ResetValues();
        Note([Call(OnDisconnect)]);
      }
    }

    method SelectBProtocolReq()
      modifies this
      ensures Did(DoCall(old(Here()), SelectBProtocol), old(log))
    {
      var ok := SetState(ProtocolPending, D_Connected);
      Note([if ok then Sent(Message.SelectBProtocolReq(plci)) else Call(OnSelectBProtocolConf)]);
    }

    method DataB3Req(handle: nat)
      modifies this
      ensures Did(DoCall(old(Here()), Data(handle)), old(log))
    {
      Note([if curState == Connected then Sent(Message.DataB3Req(ncci, handle)) else Call(OnDataB3Conf(handle))]);
    }

    /** The application's calls, as it may make them from a callback. */
    method Perform(calls: seq<AppCall>)
      modifies this
      ensures Did(DoCalls(old(Here()), calls), old(log))
      decreases |calls|
    {
      ghost var c, before := Here(), log;
      CallsFirst(c, calls, before);
      if calls != [] {
        PerformOne(calls[0]);
        Perform(calls[1..]);
      }
    }

    method PerformOne(call: AppCall)
      modifies this
      ensures Did(DoCall(old(Here()), call), old(log))
    {
      match call
      case Register => Register();
      case Release => Release();
      case Connect(target) => var ok := ConnectReq(target);
      case Data(handle) => DataB3Req(handle);
      case Disconnect(fast) => DisconnectReq(fast);
      case AnswerConnect(accept) => ConnectResp(accept);
      case AnswerData(handle) =>
        if curState == Connected {
          Note([Sent(DataB3Resp(ncci, handle))]);
        }
      case AnswerDisconnectB3 => DisconnectB3Resp();
      case Alert =>
        if curState == D_ConnectIndication {
          Note([Sent(AlertReq(plci))]);
        }
      case SelectBProtocol => SelectBProtocolReq();
      case AcceptIncomingCall(plciFree) =>
        if curState == D_ConnectIndication && !plciFree {
          DisconnectReq(false);
        }
    }

    // ---- confirmations -----------------------------------------------------------------------

    method REGISTER_COMPLETE(result: Registration)
      modifies this
      ensures Did(DoRegisterComplete(old(Here()), result), old(log))
    {
      if curState == Releasing {
        ResetValues();
        Note([if result == Failed then Call(OnRelease) else RELEASE]);
        return;
      }
      match result {
        case Succeeded => curState := Registered;
        case Delayed => curState := RegisterDelayed;
        case Failed => curState := Released;
      }
      Note([Call(OnRegister)]);
    }

    method RELEASE_COMPLETE()
      modifies this
      ensures Did(DoReleaseComplete(old(Here())), old(log))
    {
      ResetValues();
      timer := None;
      var oldState := curState;
      curState := Released;
      match oldState {
        case Released =>
        case RegisterDelayed =>
        case Releasing =>
        case Registered =>
        case Registering =>
        case _ => Note([Call(OnDisconnect)]);
      }
      Note([Call(OnRelease)]);
    }

    method CONNECT_CONF(confPlci: nat, ok: bool)
      modifies this
      ensures Did(DoConnectConf(old(Here()), confPlci, ok), old(log))
    {
      if ok {
        var done := SetState(D_ConnectPending, D_ConnectRequest);
        if done {
          plci := confPlci;
          if ringingTimeout > 0 {
            timer := Some(ForRinging);
          }
          Note([Call(OnConnectConf)]);
        } else {
          if curState == D_DisconnectPending {
            plci := confPlci;
            timer := Some(ForDisconnect);
          }
          Note([Sent(Message.DisconnectReq(confPlci))]);
        }
      } else {
        controller := 0;
        initiator := false;
        var done := SetState(Registered, D_ConnectRequest);
        if !done {
          done := SetState(Registered, D_DisconnectPending);
        }
        Note([Call(OnDisconnect)]);
      }
    }

    method CONNECT_B3_CONF(confNcci: nat, ok: bool)
      modifies this
      ensures Did(DoConnectB3Conf(old(Here()), confNcci, ok), old(log))
    {
      if ok && PlciOf(confNcci) == plci {
        var done := SetState(B_ConnectPending, D_Connected);
        if done {
          ncci := confNcci;
          return;
        }
      }
      Note([Sent(Message.DisconnectReq(PlciOf(confNcci)))]);
    }

    method DATA_B3_CONF(confNcci: nat, handle: nat)
      modifies this
      ensures Did(Next(old(Here()), Input.DataB3Conf(confNcci, handle)), old(log))
    {
      if confNcci == ncci {
        Note([Call(OnDataB3Conf(handle))]);
      } else {
        Note([Sent(DisconnectB3Req(confNcci))]);
      }
    }

    method DISCONNECT_B3_CONF(confNcci: nat, ok: bool)
      modifies this
      ensures Did(Next(old(Here()), Input.DisconnectB3Conf(confNcci, ok)), old(log))
    {
      if confNcci != ncci || !ok {
        Note([Sent(Message.DisconnectReq(PlciOf(confNcci)))]);
      }
    }

    method DISCONNECT_CONF(confPlci: nat, ok: bool)
      modifies this
      ensures Did(DoDisconnectConf(old(Here()), confPlci, ok), old(log))
    {
      if confPlci == plci && !ok {
        timer := None;
        Release();
      }
    }

    method SELECT_B_PROTOCOL_CONF(confPlci: nat)
      modifies this
      ensures Did(DoSelectBProtocolConf(old(Here()), confPlci), old(log))
    {
      if confPlci == plci {
        var done := SetState(ProtocolPending, D_Connected);
        if done {
          // The state is ProtocolPending now, so that the connected branch after the callback is never taken.
          Note([Call(OnSelectBProtocolConf)]);
        }
      }
    }

    // ---- indications -------------------------------------------------------------------------

    /** HandleGetMessage: the channel's handler first, the base class's answer if it refuses. */
    method HandleIndication(ind: Indication, inCallback: seq<AppCall>)
      modifies this
      ensures Did(DoIndicate(old(Here()), ind, inCallback), old(log))
    {
      Note([Got(ind)]);
      var taken;
      match ind {
        case ConnectInd(p) => taken := CONNECT_IND(p);
        case ConnectActiveInd(p) => taken := CONNECT_ACTIVE_IND(p, inCallback);
        case ConnectB3Ind(n) => taken := CONNECT_B3_IND(n);
        case ConnectB3ActiveInd(n) => taken := CONNECT_B3_ACTIVE_IND(n);
        case DataB3Ind(n, handle) => taken := DATA_B3_IND(n, handle);
        case DisconnectB3Ind(n) => taken := DISCONNECT_B3_IND(n);
        case DisconnectInd(p) => taken := DISCONNECT_IND(p);
        case InfoInd(addr) => taken := INFO_IND(addr);
      }
      if !taken {
        Note(DefaultAnswer(ind));
      }
    }

    method DATA_B3_IND(indNcci: nat, handle: nat) returns (taken: bool)
      modifies this
      ensures Handled(old(Here()), DataB3Ind(indNcci, handle), [], taken, old(log))
    {
      taken := indNcci == ncci;
      if taken {
        Note([Call(OnDataB3)]);
      }
    }

    method INFO_IND(addr: nat) returns (taken: bool)
      modifies this
      ensures Handled(old(Here()), InfoInd(addr), [], taken, old(log))
    {
      taken := addr == plci;
      if taken {
        Note([Sent(InfoResp(ControllerOf(addr))), Call(OnInfo)]);
      }
    }

    method CONNECT_IND(indPlci: nat) returns (taken: bool)
      modifies this
      ensures Handled(old(Here()), ConnectInd(indPlci), [], taken, old(log))
    {
      taken := SetState(D_ConnectIndication, Registered);
      if taken {
        plci := indPlci;
        controller := ControllerOf(indPlci);
        Note([Call(OnConnect)]);
      }
    }

    method CONNECT_ACTIVE_IND(indPlci: nat, inCallback: seq<AppCall>) returns (taken: bool)
      modifies this
      ensures Handled(old(Here()), ConnectActiveInd(indPlci), inCallback, taken, old(log))
    {
      if indPlci != plci {
        return false;
      }
      taken := SetState(D_Connected, D_ConnectPending);
      if !taken {
        return;
      }
      ghost var before := log;
      Note([Sent(ConnectActiveResp(indPlci))]);
      timer := Some(ForBChannel);
      Note([Call(OnConnectActive)]);
      ghost var c := Here();
      Perform(inCallback);
      ghost var c1, es := DoCalls(c, inCallback).0, DoCalls(c, inCallback).1;
      GoOn();
      RegroupFive(before, [Sent(ConnectActiveResp(indPlci))], [Call(OnConnectActive)], es, Outgoing(c1));
    }

    /** After the callback of CONNECT_ACTIVE_IND. */
    method GoOn()
      modifies this
      ensures Did((old(Here()).(initiator := false), Outgoing(old(Here()))), old(log))
    {
      if curState != D_Connected {
        initiator := false;
      } else if initiator {
        initiator := false;
        Note([Sent(ConnectB3Req(plci))]);
      }
    }

    method CONNECT_B3_IND(indNcci: nat) returns (taken: bool)
      modifies this
      ensures Handled(old(Here()), ConnectB3Ind(indNcci), [], taken, old(log))
    {
      if PlciOf(indNcci) != plci {
        return false;
      }
      taken := SetState(B_ConnectPending, D_Connected);
      if taken {
        ncci := indNcci;
        Note([Sent(ConnectB3Resp(ncci, true))]);
      }
    }

    method CONNECT_B3_ACTIVE_IND(indNcci: nat) returns (taken: bool)
      modifies this
      ensures Handled(old(Here()), ConnectB3ActiveInd(indNcci), [], taken, old(log))
    {
      if indNcci != ncci {
        return false;
      }
      taken := SetState(Connected, B_ConnectPending);
      if taken {
        Note([Sent(ConnectB3ActiveResp(indNcci))]);
        timer := None;
        Note([Call(OnConnectB3Active)]);
      }
    }

    method DISCONNECT_B3_IND(indNcci: nat) returns (taken: bool)
      modifies this
      ensures Handled(old(Here()), DisconnectB3Ind(indNcci), [], taken, old(log))
    {
      if indNcci != ncci {
        return false;
      }
      if curState != D_DisconnectPending {
        curState := B_DisconnectRespPending;
      }
      Note([Call(OnDisconnectB3)]);
      taken := true;
    }

    method DISCONNECT_IND(indPlci: nat) returns (taken: bool)
      modifies this
      ensures Handled(old(Here()), DisconnectInd(indPlci), [], taken, old(log))
    {
      if indPlci != plci {
        return false;
      }
      timer := None;
      var waiting := SetState(D_DisconnectRespPending, B_DisconnectRespPending);
      if !waiting {
        Note([Sent(DisconnectResp(indPlci))]);
        ResetValues();
        curState := Registered;
        Note([Call(OnDisconnect)]);
      }
      taken := true;
    }

    /** A handler takes what it should, and then does its step; otherwise it does nothing. */
    ghost predicate Handled(c: Chan, ind: Indication, inCallback: seq<AppCall>, taken: bool, before: seq<Event>)
      reads this
    {
      && taken == Takes(c, ind)
      && if taken then Did(Handle(c, ind, inCallback), before) else Here() == c && log == before
    }

    method StateChangeTimer()
      modifies this
      ensures Did(DoTimer(old(Here())), old(log))
    {
      var kind := timer;
      timer := None;
      match curState
      case B_ConnectPending =>
        if kind != Some(ForRinging) {
          DisconnectReq(false);
        }
      case D_Connected =>
        if kind != Some(ForRinging) {
          DisconnectReq(false);
        }
      case D_ConnectPending => DisconnectReq(false);
      case D_ConnectRequest => DisconnectReq(false);
      case D_DisconnectPending => Release();
      case _ =>
    }

    // ---- runs --------------------------------------------------------------------------------

    /** A call, a message or the timer. */
    method Take(input: Input)
      modifies this
      ensures Did(Next(old(Here()), input), old(log))
    {
      match input
      case App(call) => PerformOne(call);
      case RegisterComplete(result) => REGISTER_COMPLETE(result);
      case ReleaseComplete => RELEASE_COMPLETE();
      case ConnectConf(p, ok) => CONNECT_CONF(p, ok);
      case ConnectB3Conf(n, ok) => CONNECT_B3_CONF(n, ok);
      case DataB3Conf(n, handle) => DATA_B3_CONF(n, handle);
      case DisconnectB3Conf(n, ok) => DISCONNECT_B3_CONF(n, ok);
      case DisconnectConf(p, ok) => DISCONNECT_CONF(p, ok);
      case SelectBProtocolConf(p) => SELECT_B_PROTOCOL_CONF(p);
      case Indicate(ind, inCallback) => HandleIndication(ind, inCallback);
      case TimerExpires => StateChangeTimer();
    }

    method TakeInTurn(inputs: seq<Input>)
      modifies this
      ensures Did(Run(old(Here()), inputs), old(log))
      decreases |inputs|
    {
      ghost var c, before := Here(), log;
      InputsFirst(c, inputs, before);
      if inputs != [] {
        Take(inputs[0]);
        TakeInTurn(inputs[1..]);
      }
    }

    /** Any inputs in turn.  If the channel's log is in order, and the inputs are those of a conforming CAPI,
        it stays so: every indication answered, DISCONNECT_RESP owed exactly when the state says so, and
        CONNECT_B3_REQ sent once for a call of our own. */
    method TakeAll(inputs: seq<Input>)
      modifies this
      ensures Did(Run(old(Here()), inputs), old(log))
      ensures old(InOrder(Here(), log)) && AllConform(old(Here()), inputs) ==> InOrder(Here(), log)
    {
      ghost var c, before := Here(), log;
      TakeInTurn(inputs);
      if InOrder(c, before) && AllConform(c, inputs) {
        StaysInOrder(c, before, inputs);
      }
    }
  }
}
