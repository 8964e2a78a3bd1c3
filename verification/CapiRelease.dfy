/** The release of the application: a registration that fails while it is pending is never told of its end. */
module CapiRelease {
  import opened CapiChan
  import opened CapiLedger

  /** A conforming run to a failed registration while the release is pending. */
  lemma FailsWhileReleasing()
    ensures var run := [App(Register), App(Release), RegisterComplete(Failed)];
            && AllConform(NewChan, run)
            && Run(NewChan, run) == (NewChan.(state := Releasing), [REGISTER, Call(OnRelease)])
  {
    var a, b, d := App(Register), App(Release), RegisterComplete(Failed);
    assert [a, b, d][1..] == [b, d] && [b, d][1..] == [d] && [d][1..] == [];
    var c1, c2 := NewChan.(state := Registering), NewChan.(state := Releasing);
    assert Next(NewChan, a) == (c1, [REGISTER]) && Next(c1, b) == (c2, []);
    assert Run(c2, [d]) == (c2, [Call(OnRelease)] + []);
    assert Run(c1, [b, d]) == (c2, [] + ([Call(OnRelease)] + []));
    assert [REGISTER] + ([] + ([Call(OnRelease)] + [])) == [REGISTER, Call(OnRelease)];
  }

  /** The release that is pending begins if and only if the registration did not fail. */
  lemma ReleaseBeginsUnlessFailed(c: Chan, result: Registration)
    requires c.state == Releasing
    ensures Next(c, RegisterComplete(result)).0.state == Releasing
    ensures RELEASE in Next(c, RegisterComplete(result)).1 <==> result != Failed
  {
  }

  predicate NoReleaseComplete(inputs: seq<Input>) {
    forall k :: 0 <= k < |inputs| ==> inputs[k] != ReleaseComplete
  }

  predicate NoRegisterComplete(inputs: seq<Input>) {
    forall k :: 0 <= k < |inputs| ==> !inputs[k].RegisterComplete?
  }

  lemma OneStaysReleasing(c: Chan, input: Input)
    requires Fits(c) && c.state == Releasing && Conforms(c, input) && input != ReleaseComplete
    ensures Next(c, input).0.state == Releasing
    ensures RELEASE in Next(c, input).1 ==> input.RegisterComplete?
  {
  }

  /** Nothing but the end of a release leaves Releasing, and without a further result of a registration no release
      is asked for that could end: after the failed one the channel stays there. */
  lemma {:induction false} StaysReleasing(c: Chan, inputs: seq<Input>)
    requires Fits(c) && c.state == Releasing && AllConform(c, inputs) && NoReleaseComplete(inputs)
    ensures Run(c, inputs).0.state == Releasing
    ensures NoRegisterComplete(inputs) ==> RELEASE !in Run(c, inputs).1
    decreases |inputs|
  {
    if inputs != [] {
      OneStaysReleasing(c, inputs[0]);
      NextFits(c, inputs[0]);
      StaysReleasing(Next(c, inputs[0]).0, inputs[1..]);
    }
  }
}
