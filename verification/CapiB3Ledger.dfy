/** The ledger of DISCONNECT_B3_RESP: what is owed, and which steps lose an answer. */
module CapiB3Ledger {
  import opened CapiChan
  import opened CapiLedger

  function B3Weight(n: nat, e: Event): int {
    match e
    case Got(DisconnectB3Ind(m)) => if m == n then 1 else 0
    case Sent(DisconnectB3Resp(m)) => if m == n then -1 else 0
    case _ => 0
  }

  /** DISCONNECT_B3_INDs received for an NCCI less DISCONNECT_B3_RESPs sent. */
  function Unanswered(n: nat, log: seq<Event>): int {
    if log == [] then 0 else B3Weight(n, log[0]) + Unanswered(n, log[1..])
  }

  lemma {:induction false} UnansweredAppend(n: nat, x: seq<Event>, y: seq<Event>)
    ensures Unanswered(n, x + y) == Unanswered(n, x) + Unanswered(n, y)
  {
    if x == [] {
      assert x + y == y;
    } else {
      assert (x + y)[1..] == x[1..] + y;
      UnansweredAppend(n, x[1..], y);
    }
  }

  lemma UnansweredShort(n: nat, log: seq<Event>)
    ensures |log| == 1 ==> Unanswered(n, log) == B3Weight(n, log[0])
    ensures |log| == 2 ==> Unanswered(n, log) == B3Weight(n, log[0]) + B3Weight(n, log[1])
    ensures |log| == 3 ==> Unanswered(n, log) == B3Weight(n, log[0]) + B3Weight(n, log[1]) + B3Weight(n, log[2])
  {
    if |log| == 3 {
      assert log[1..][1..] == [log[2]];
    }
  }

  /** The answer that the application still has to give, and will be passed on. */
  function B3Owed(c: Chan, n: nat): nat {
    if (c.state == B_DisconnectRespPending || c.state == D_DisconnectRespPending) && c.ncci == n then 1 else 0
  }

  predicate GivesUp(c: Chan, input: Input) {
    || input == App(Release) || input == ReleaseComplete
    || (input.DisconnectConf? && input.plci == c.plci && !input.ok)
    || (input == App(Disconnect(true)) && c.state == B_DisconnectRespPending)
  }

  /** The steps that lose an answer: the indication is taken while the connection is already being given up,
      or an answer is owed when the connection is given up fast, or the application is released. */
  predicate Loses(c: Chan, input: Input, n: nat) {
    || (input.Indicate? && input.ind == DisconnectB3Ind(n) && n == c.ncci && c.state == D_DisconnectPending)
    || (B3Owed(c, n) == 1 && GivesUp(c, input))
  }

  function Losses(c: Chan, inputs: seq<Input>, n: nat): nat
    decreases |inputs|
  {
    if inputs == [] then 0
    else (if Loses(c, inputs[0], n) then 1 else 0) + Losses(Next(c, inputs[0]).0, inputs[1..], n)
  }

  predicate B3Booked(c: Chan, step: Step, n: nat, lost: nat) {
    Unanswered(n, step.1) == B3Owed(step.0, n) - B3Owed(c, n) + lost
  }

  lemma CallB3(c: Chan, call: AppCall, n: nat)
    requires Fits(c)
    ensures B3Booked(c, DoCall(c, call), n, if Loses(c, App(call), n) then 1 else 0)
  {
    UnansweredShort(n, DoCall(c, call).1);
  }

  predicate NoB3(c: Chan) {
    c.state != B_DisconnectRespPending && c.state != D_DisconnectRespPending
  }

  /** Calls from within CONNECT_ACTIVE_IND have no B channel to give up. */
  lemma {:induction false} CallsB3(c: Chan, calls: seq<AppCall>, n: nat)
    requires Fits(c) && NoB3(c)
    ensures NoB3(DoCalls(c, calls).0) && Unanswered(n, DoCalls(c, calls).1) == 0
    decreases |calls|
  {
    if calls != [] {
      var (c1, e1) := DoCall(c, calls[0]);
      CallB3(c, calls[0], n);
      CallFits(c, calls[0]);
      CallsB3(c1, calls[1..], n);
      UnansweredAppend(n, e1, DoCalls(c1, calls[1..]).1);
    }
  }

  lemma ActiveIndB3(c: Chan, ind: Indication, inCallback: seq<AppCall>, n: nat)
    requires Fits(c) && ind.ConnectActiveInd? && Takes(c, ind)
    ensures B3Booked(c, DoIndicate(c, ind, inCallback), n, 0)
  {
    var c0 := Armed(c.(state := D_Connected), ForBChannel);
    var (c1, es) := DoCalls(c0, inCallback);
    var tail := Outgoing(c1);
    var head := [Got(ind), Sent(ConnectActiveResp(ind.plci)), Call(OnConnectActive)];
    ActiveIndLog(c, ind, inCallback, head, es, tail);
    CallsB3(c0, inCallback, n);
    UnansweredShort(n, head);
    UnansweredShort(n, tail);
    UnansweredAppend(n, es, tail);
    UnansweredAppend(n, head, es + tail);
  }

  lemma IndicateB3(c: Chan, ind: Indication, inCallback: seq<AppCall>, n: nat)
    requires Fits(c) && Conforms(c, Indicate(ind, inCallback)) && !(ind.ConnectActiveInd? && Takes(c, ind))
    ensures B3Booked(c, DoIndicate(c, ind, inCallback), n, if Loses(c, Indicate(ind, inCallback), n) then 1 else 0)
  {
    UnansweredShort(n, DoIndicate(c, ind, inCallback).1);
  }

  lemma ConfirmB3(c: Chan, input: Input, n: nat)
    requires Fits(c) && Conforms(c, input) && !input.App? && !input.Indicate?
    ensures B3Booked(c, Next(c, input), n, if Loses(c, input, n) then 1 else 0)
  {
    UnansweredShort(n, Next(c, input).1);
  }

  lemma NextB3(c: Chan, input: Input, n: nat)
    requires Fits(c) && Conforms(c, input)
    ensures B3Booked(c, Next(c, input), n, if Loses(c, input, n) then 1 else 0)
  {
    match input
    case App(call) => CallB3(c, call, n);
    case Indicate(ind, inCallback) =>
      if ind.ConnectActiveInd? && Takes(c, ind) {
        ActiveIndB3(c, ind, inCallback, n);
      } else {
        IndicateB3(c, ind, inCallback, n);
      }
    case _ => ConfirmB3(c, input, n);
  }

  /** Over every conforming run, whenever the application answers: of the DISCONNECT_B3_INDs of an NCCI those are
      unanswered that are owed in B_ or D_DisconnectRespPending, and those that a losing step has lost; so none
      but the owed ones is unanswered if and only if there was no such step. */
  lemma {:induction false} RunB3(c: Chan, inputs: seq<Input>, n: nat)
    requires Fits(c) && AllConform(c, inputs)
    ensures B3Booked(c, Run(c, inputs), n, Losses(c, inputs, n))
    decreases |inputs|
  {
    if inputs != [] {
      var (c1, e1) := Next(c, inputs[0]);
      NextB3(c, inputs[0], n);
      NextFits(c, inputs[0]);
      RunB3(c1, inputs[1..], n);
      UnansweredAppend(n, e1, Run(c1, inputs[1..]).1);
    }
  }

  /** From any state that owes nothing, as a new channel: every indication is answered but the one that is owed,
      if and only if no step of the run loses an answer. */
  lemma AnsweredUnlessLost(c: Chan, inputs: seq<Input>, n: nat)
    requires Fits(c) && AllConform(c, inputs) && B3Owed(c, n) == 0
    ensures Unanswered(n, Run(c, inputs).1) == B3Owed(Run(c, inputs).0, n) <==> Losses(c, inputs, n) == 0
  {
    RunB3(c, inputs, n);
  }

  // ---- a run for each loss -------------------------------------------------------------------

  /** A conforming run of three inputs after which the answer to the one DISCONNECT_B3_IND in it has not been sent
      and is owed no more, although the application gave it. */
  predicate LosesAnswer(c: Chan, a: Input, b: Input, d: Input, n: nat) {
    && Conforms(c, a)
    && var (c1, e1) := Next(c, a);
       Conforms(c1, b)
       && var (c2, e2) := Next(c1, b);
          Conforms(c2, d)
          && var (c3, e3) := Next(c2, d);
             Unanswered(n, e1 + (e2 + e3)) == 1 && B3Owed(c3, n) == 0
  }

  lemma ThreeSteps(c: Chan, a: Input, b: Input, d: Input, n: nat)
    ensures AllConform(c, [a, b, d]) && Unanswered(n, Run(c, [a, b, d]).1) == 1 && B3Owed(Run(c, [a, b, d]).0, n) == 0
            <==> LosesAnswer(c, a, b, d, n)
  {
    assert [a, b, d][1..] == [b, d] && [b, d][1..] == [d] && [d][1..] == [];
    var (c1, e1) := Next(c, a);
    var (c2, e2) := Next(c1, b);
    var (c3, e3) := Next(c2, d);
    assert Run(c2, [d]) == (c3, e3 + []) && e3 + [] == e3;
    assert Run(c1, [b, d]) == (c3, e2 + e3);
    assert AllConform(c2, [d]) <==> Conforms(c2, d);
    assert AllConform(c1, [b, d]) <==> Conforms(c1, b) && Conforms(c2, d);
  }

  lemma LossCounts(n: nat, e1: seq<Event>, e2: seq<Event>, e3: seq<Event>)
    requires |e1| <= 3 && |e2| <= 3 && |e3| <= 3
    ensures Unanswered(n, e1 + (e2 + e3)) == Unanswered(n, e1) + Unanswered(n, e2) + Unanswered(n, e3)
  {
    UnansweredAppend(n, e2, e3);
    UnansweredAppend(n, e1, e2 + e3);
  }

  /** The first loss: the indication comes while the connection is being given up. */
  lemma LostInDisconnect(c: Chan)
    requires Fits(c) && c.state == Connected
    ensures var run := [App(Disconnect(true)), Indicate(DisconnectB3Ind(c.ncci), []), App(AnswerDisconnectB3)];
            AllConform(c, run) && Unanswered(c.ncci, Run(c, run).1) == 1 && B3Owed(Run(c, run).0, c.ncci) == 0
  {
    var a, b, d := App(Disconnect(true)), Indicate(DisconnectB3Ind(c.ncci), []), App(AnswerDisconnectB3);
    LossOf(c, a, b, d);
  }

  /** The second: a fast disconnect before the answer. */
  lemma LostByFastDisconnect(c: Chan)
    requires Fits(c) && c.state == Connected
    ensures var run := [Indicate(DisconnectB3Ind(c.ncci), []), App(Disconnect(true)), App(AnswerDisconnectB3)];
            AllConform(c, run) && Unanswered(c.ncci, Run(c, run).1) == 1 && B3Owed(Run(c, run).0, c.ncci) == 0
  {
    var a, b, d := Indicate(DisconnectB3Ind(c.ncci), []), App(Disconnect(true)), App(AnswerDisconnectB3);
    LossOf(c, a, b, d);
  }

  /** The third: a release before the answer. */
  lemma LostByRelease(c: Chan)
    requires Fits(c) && c.state == Connected
    ensures var run := [Indicate(DisconnectB3Ind(c.ncci), []), App(Release), App(AnswerDisconnectB3)];
            AllConform(c, run) && Unanswered(c.ncci, Run(c, run).1) == 1 && B3Owed(Run(c, run).0, c.ncci) == 0
  {
    var a, b, d := Indicate(DisconnectB3Ind(c.ncci), []), App(Release), App(AnswerDisconnectB3);
    LossOf(c, a, b, d);
  }

  lemma LossOf(c: Chan, a: Input, b: Input, d: Input)
    requires Fits(c) && c.state == Connected && d == App(AnswerDisconnectB3)
    requires || (a == App(Disconnect(true)) && b == Indicate(DisconnectB3Ind(c.ncci), []))
             || (a == Indicate(DisconnectB3Ind(c.ncci), []) && (b == App(Disconnect(true)) || b == App(Release)))
    ensures AllConform(c, [a, b, d]) && Unanswered(c.ncci, Run(c, [a, b, d]).1) == 1
            && B3Owed(Run(c, [a, b, d]).0, c.ncci) == 0
  {
    StepsLose(c, a, b, d);
    ThreeSteps(c, a, b, d, c.ncci);
  }

  lemma StepsLose(c: Chan, a: Input, b: Input, d: Input)
    requires Fits(c) && c.state == Connected && d == App(AnswerDisconnectB3)
    requires || (a == App(Disconnect(true)) && b == Indicate(DisconnectB3Ind(c.ncci), []))
             || (a == Indicate(DisconnectB3Ind(c.ncci), []) && (b == App(Disconnect(true)) || b == App(Release)))
    ensures LosesAnswer(c, a, b, d, c.ncci)
  {
    var (c1, e1) := Next(c, a);
    var (c2, e2) := Next(c1, b);
    var (c3, e3) := Next(c2, d);
    UnansweredShort(c.ncci, e1);
    UnansweredShort(c.ncci, e2);
    UnansweredShort(c.ncci, e3);
    LossCounts(c.ncci, e1, e2, e3);
  }

  /** A conforming run from a new channel to Connected, for any controller and any call. */
  lemma CallConnects(controller: nat, ncci: nat)
    requires ValidPlci(PlciOf(ncci))
    ensures var run := ConnectingRun(controller, ncci);
            AllConform(NewChan, run) && Run(NewChan, run).0.state == Connected && Run(NewChan, run).0.ncci == ncci
  {
    var plci := PlciOf(ncci);
    var run := ConnectingRun(controller, ncci);
    var c1 := Next(NewChan, run[0]).0;
    var c2 := Next(c1, run[1]).0;
    var c3 := Next(c2, run[2]).0;
    var c4 := Next(c3, run[3]).0;
    var c5 := Next(c4, run[4]).0;
    var c6 := Next(c5, run[5]).0;
    var c7 := Next(c6, run[6]).0;
    RunsOn(c7, []);
    RunsOn(c6, run[6..]);
    RunsOn(c5, run[5..]);
    RunsOn(c4, run[4..]);
    RunsOn(c3, run[3..]);
    RunsOn(c2, run[2..]);
    RunsOn(c1, run[1..]);
    RunsOn(NewChan, run);
  }

  function ConnectingRun(controller: nat, ncci: nat): (run: seq<Input>)
    ensures |run| == 7
  {
    [App(Register), RegisterComplete(Succeeded), App(Connect(controller)), ConnectConf(PlciOf(ncci), true),
     Indicate(ConnectActiveInd(PlciOf(ncci)), []), ConnectB3Conf(ncci, true), Indicate(ConnectB3ActiveInd(ncci), [])]
  }

  lemma RunsOn(c: Chan, inputs: seq<Input>)
    ensures inputs != [] ==> Run(c, inputs).0 == Run(Next(c, inputs[0]).0, inputs[1..]).0
    ensures inputs != [] ==> (AllConform(c, inputs) <==>
                              Conforms(c, inputs[0]) && AllConform(Next(c, inputs[0]).0, inputs[1..]))
    ensures inputs == [] ==> Run(c, inputs).0 == c && AllConform(c, inputs)
  {
  }
}
