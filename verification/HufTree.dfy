/** Huffman code trees stored as node arrays, and what the converter needs of them. */
module HufTree {
  const EOL := 9999
  const TCLIM := 64

  datatype INode = INode(token: int, zero: nat, one: nat)

  type Tree = seq<INode>

  /** The white and the black code tree; bit strings for a run alternate between them. */
  datatype Trees = Trees(white: Tree, black: Tree) {
    function Of(isWhite: bool): Tree {
      if isWhite then white else black
    }
  }

  /** The zero bits at the end of a path from the root: the whole path, or those after its last one bit. */
  datatype Trail = OnlyZeros(n: nat) | AfterOne(n: nat)

  function Longer(z: Trail): Trail {
    match z
    case OnlyZeros(n) => OnlyZeros(n + 1)
    case AfterOne(n) => AfterOne(n + 1)
  }

  /** Node `i` against the trails `trail` of it and its children.  A code word ends in at most three
      zeros and starts with at most seven; eleven zeros from the root, and nothing else, reach EOL. */
  predicate NodeOk(t: Tree, trail: seq<Trail>, i: nat)
    requires |trail| == |t| && i < |t|
  {
    var nd := t[i];
    var z := trail[i];
    if nd.token == EOL then z == OnlyZeros(11)
    else if nd.token >= 0 then z.AfterOne? && z.n <= 3
    else
      && z.n <= 10
      && i < nd.zero < |t| && trail[nd.zero] == Longer(z)
      && if z.OnlyZeros? && z.n > 7 then nd.one == 0
         else i < nd.one < |t| && trail[nd.one] == AfterOne(0)
  }

  ghost predicate Labels(t: Tree, trail: seq<Trail>) {
    && |trail| == |t| > 0
    && trail[0] == OnlyZeros(0)
    && forall i :: 0 <= i < |t| ==> NodeOk(t, trail, i)
  }

  ghost predicate WellFormed(t: Tree) {
    exists trail :: Labels(t, trail)
  }

  ghost predicate BothWellFormed(ts: Trees) {
    WellFormed(ts.white) && WellFormed(ts.black)
  }

  ghost function TrailsOf(t: Tree): (trail: seq<Trail>)
    requires WellFormed(t)
    ensures Labels(t, trail)
  {
    var trail :| Labels(t, trail); trail
  }

  function Child(nd: INode, bit: bool): nat {
    if bit then nd.one else nd.zero
  }

  /** A bit string that leads from inner node `i` to the leaf of a run length. */
  predicate IsCode(t: Tree, i: nat, w: seq<bool>)
    decreases |w|
  {
    && i < |t| && |w| > 0
    && var c := Child(t[i], w[0]);
       && 0 < c < |t|
       && if |w| == 1 then t[c].token >= 0 && t[c].token != EOL
          else t[c].token < 0 && IsCode(t, c, w[1..])
  }

  /** The run length that a code word stands for. */
  function RunLength(t: Tree, i: nat, w: seq<bool>): (run: nat)
    requires IsCode(t, i, w)
    decreases |w|
  {
    var c := Child(t[i], w[0]);
    if |w| == 1 then t[c].token else RunLength(t, c, w[1..])
  }

  /** No proper prefix of a code word is a code word. */
  lemma {:induction false} CodesArePrefixFree(t: Tree, i: nat, w: seq<bool>, k: nat)
    requires IsCode(t, i, w) && k < |w|
    ensures !IsCode(t, i, w[..k])
    decreases |w|
  {
    if k > 1 {
      assert w[..k][1..] == w[1..][..k - 1];
      CodesArePrefixFree(t, Child(t[i], w[0]), w[1..], k - 1);
    }
  }

  /** A node that starts a code word after zeros only lies at most seven zeros below the root. */
  lemma {:induction false} AtMostSevenLeadingZeros(t: Tree, trail: seq<Trail>, i: nat, w: seq<bool>)
    requires Labels(t, trail) && IsCode(t, i, w) && t[i].token < 0 && trail[i].OnlyZeros?
    ensures trail[i].n <= 7
    decreases |w|
  {
    assert NodeOk(t, trail, i);
    var c := Child(t[i], w[0]);
    assert NodeOk(t, trail, c);
    if trail[i].n > 7 && |w| > 1 {
      AtMostSevenLeadingZeros(t, trail, c, w[1..]);
    }
  }
}
