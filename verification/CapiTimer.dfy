/** The timer that watches over a call: in which states it runs, and a run in which it outlives its call. */
module CapiTimer {
  import opened Options
  import opened CapiChan
  import opened CapiLedger
  import opened CapiWire

  /** Nothing waits for the line unwatched: while a connection is being given up, while the B channel comes up, and
      while a call of our own rings, if there is a limit for that. */
  predicate Watched(c: Chan) {
    match c.state
    case D_DisconnectPending => c.timer == Some(ForDisconnect)
    case D_Connected => c.timer == Some(ForBChannel)
    case B_ConnectPending => c.timer == Some(ForBChannel)
    case D_ConnectPending => c.initiator && c.ringing > 0 ==> c.timer == Some(ForRinging)
    case Connected => c.timer == None
    case D_DisconnectRespPending => c.timer == None
    case Released => c.timer == None
    case Registering => c.timer == None
    case RegisterDelayed => c.timer == None
    case _ => true
  }

  lemma CallWatched(c: Chan, call: AppCall)
    requires Fits(c) && Watched(c)
    ensures Watched(DoCall(c, call).0)
  {
  }

  lemma {:induction false} CallsWatched(c: Chan, calls: seq<AppCall>)
    requires Fits(c) && Watched(c) && FromConnected(c.state)
    ensures Watched(DoCalls(c, calls).0.(initiator := false))
    decreases |calls|
  {
    if calls != [] {
      CallWatched(c, calls[0]);
      CallFits(c, calls[0]);
      CallFromConnected(c, calls[0], NewWire, 0);
      CallsWatched(DoCall(c, calls[0]).0, calls[1..]);
    }
  }

  lemma NextWatched(c: Chan, input: Input, w: Wire, p: nat)
    requires Fits(c) && Watched(c) && Agrees(c, w, p) && Conforms(c, input) && Allows(w, input, p)
    ensures Watched(Next(c, input).0)
  {
    if input.App? {
      CallWatched(c, input.call);
    } else if input.Indicate? && input.ind.ConnectActiveInd? && Takes(c, input.ind) {
      CallsWatched(Armed(c.(state := D_Connected), ForBChannel), input.inCallback);
    }
  }

  /** Over every run in which the CAPI keeps to the diagram the timer runs where it should. */
  lemma {:induction false} RunWatched(c: Chan, w: Wire, inputs: seq<Input>, p: nat)
    requires Fits(c) && Watched(c) && Agrees(c, w, p) && p != 0 && AllAllowed(c, w, inputs, p)
    ensures Watched(Run(c, inputs).0)
    decreases |inputs|
  {
    if inputs != [] {
      var (c1, e1) := Next(c, inputs[0]);
      NextWatched(c, inputs[0], w, p);
      NextAgrees(c, inputs[0], w, p);
      NextFits(c, inputs[0]);
      RunWatched(c1, After(w, inputs[0], e1, p), inputs[1..], p);
    }
  }

  /** When it expires a call that waits is given up, and one that was given up already is released. */
  lemma Expires(c: Chan)
    requires Fits(c) && Watched(c) && c.timer.Some?
    ensures var d := Next(c, TimerExpires).0;
            && d.timer == (if d.state == D_DisconnectPending then Some(ForDisconnect) else None)
            && (c.state == D_DisconnectPending ==> d.state == Releasing)
            && (c.state == D_ConnectRequest || c.state == D_ConnectPending || c.state == D_Connected ==>
                  d.state == D_DisconnectPending)
            && (c.state == B_ConnectPending ==> d.state == B_DisconnectPending)
  {
  }

  // ---- the timer that outlives its call ------------------------------------------------------

  predicate InCall(state: CapiState) {
    match state
    case Released => false
    case Releasing => false
    case Registering => false
    case RegisterDelayed => false
    case Registered => false
    case _ => true
  }

  /** The step that ends a call stops the timer, unless it is a failed CONNECT_CONF or the application's refusal: then
      a timer that runs stays, and after a call that was given up before it was confirmed there is one. */
  lemma EndStopsTimer(c: Chan, input: Input)
    requires Fits(c) && Watched(c) && Conforms(c, input)
    requires InCall(c.state) && Next(c, input).0.state == Registered
    ensures Next(c, input).0.timer.Some? <==>
            c.timer.Some? && (input.ConnectConf? || input == App(AnswerConnect(false)))
    ensures input.ConnectConf? && c.state == D_DisconnectPending ==> Next(c, input).0.timer == Some(ForDisconnect)
  {
    if input.Indicate? && input.ind.ConnectActiveInd? && Takes(c, input.ind) {
      CallsFromConnected(Armed(c.(state := D_Connected), ForBChannel), input.inCallback, NewWire, 0);
    }
  }

  /** A call that is given up before its CONNECT_CONF, which fails, and another call. */
  lemma LeftoverSteps(c: Chan, w: Wire, p: nat, fast: bool, plci: nat, controller: nat)
    requires Fits(c) && Agrees(c, w, p) && p != 0 && c.state == D_ConnectRequest
    ensures var (c1, e1) := Next(c, App(Disconnect(fast)));
            var w1 := After(w, App(Disconnect(fast)), e1, p);
            && c1 == c.(state := D_DisconnectPending, timer := Some(ForDisconnect))
            && Conforms(c1, ConnectConf(plci, false)) && Allows(w1, ConnectConf(plci, false), p)
            && var c2 := Next(c1, ConnectConf(plci, false)).0;
               && c2.state == Registered && c2.timer == Some(ForDisconnect)
               && var c3 := Next(c2, App(Connect(controller))).0;
                  && c3.state == D_ConnectRequest && c3.controller == controller
                  && Next(c3, TimerExpires).0.state == D_DisconnectPending
  {
    NextAgrees(c, App(Disconnect(fast)), w, p);
  }

  /** Over such a run the timer of the first call expires and hangs up the second, which the application did not ask
      for. */
  lemma TimerOutlivesCall(c: Chan, w: Wire, p: nat, fast: bool, plci: nat, controller: nat)
    requires Fits(c) && Agrees(c, w, p) && p != 0 && c.state == D_ConnectRequest
    ensures var run := [App(Disconnect(fast)), ConnectConf(plci, false), App(Connect(controller)), TimerExpires];
            && AllAllowed(c, w, run, p)
            && Run(c, run[..3]).0.state == D_ConnectRequest && Run(c, run[..3]).0.controller == controller
            && Run(c, run).0.state == D_DisconnectPending
  {
    var a, b, d := App(Disconnect(fast)), ConnectConf(plci, false), App(Connect(controller));
    var run := [a, b, d, TimerExpires];
    assert run[1..] == [b, d, TimerExpires] && run[2..] == [d, TimerExpires] && run[3..] == [TimerExpires];
    assert run[..3] == [a, b, d] && [a, b, d][1..] == [b, d] && [b, d][1..] == [d];
    LeftoverSteps(c, w, p, fast, plci, controller);
    var (c1, e1) := Next(c, a);
    var (c2, e2) := Next(c1, b);
    var (c3, e3) := Next(c2, d);
    var w1 := After(w, a, e1, p);
    var w2 := After(w1, b, e2, p);
    var w3 := After(w2, d, e3, p);
    OneStep(c3, w3, run[3..], p);
    OneStep(c2, w2, run[2..], p);
    OneStep(c1, w1, run[1..], p);
    OneStep(c, w, run, p);
    OneStep(c2, w2, [d], p);
    OneStep(c1, w1, [b, d], p);
    OneStep(c, w, [a, b, d], p);
  }
}
