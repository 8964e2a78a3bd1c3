/** What code words a node array holds, read off from labels of its nodes. */
module HufCodes {
  import opened HufTree
  import opened T4

  /** The bits that lead to a node, as the digits of a number, and the node before it. */
  datatype Label = Label(word: nat, parent: nat)

  function Digit(bit: bool): nat {
    if bit then 1 else 0
  }

  /** The label of a node says how its parent leads to it, and those of its children that it leads to them. */
  predicate LabelOk(t: Tree, labels: seq<Label>, i: nat)
    requires |labels| == |t| && i < |t|
  {
    && labels[i].word > 0
    && (if i == 0 then labels[i].word == 1 else LedTo(t, labels, i))
    && (t[i].token < 0 ==> LeadsTo(t, labels, i, false) && LeadsTo(t, labels, i, true))
  }

  predicate LedTo(t: Tree, labels: seq<Label>, i: nat)
    requires |labels| == |t| && i < |t|
  {
    var l := labels[i];
    && l.parent < |t| && t[l.parent].token < 0
    && (l.word == 10 * labels[l.parent].word || l.word == 10 * labels[l.parent].word + 1)
    && Child(t[l.parent], l.word % 10 == 1) == i
  }

  predicate LeadsTo(t: Tree, labels: seq<Label>, i: nat, bit: bool)
    requires |labels| == |t| && i < |t|
  {
    var c := Child(t[i], bit);
    c == 0 || (c < |t| && labels[c] == Label(10 * labels[i].word + Digit(bit), i))
  }

  ghost predicate Labelled(t: Tree, labels: seq<Label>) {
    |labels| == |t| > 0 && forall i :: 0 <= i < |t| ==> LabelOk(t, labels, i)
  }

  /** The leaf that a code word leads to. */
  function Leaf(t: Tree, i: nat, w: seq<bool>): (c: nat)
    requires IsCode(t, i, w)
    ensures 0 < c < |t| && t[c].token >= 0 && t[c].token != EOL && RunLength(t, i, w) == t[c].token
    decreases |w|
  {
    var c := Child(t[i], w[0]);
    if |w| == 1 then c else Leaf(t, c, w[1..])
  }

  lemma DigitsOfChild(word: nat, bit: bool)
    requires word > 0
    ensures Digits(10 * word + Digit(bit)) == Digits(word) + [bit]
  {
    var n := 10 * word + Digit(bit);
    assert n / 10 == word && n % 10 == Digit(bit);
  }

  /** The label of the leaf holds the bits that led to it. */
  lemma {:induction false} LeafLabel(t: Tree, labels: seq<Label>, i: nat, w: seq<bool>)
    requires Labelled(t, labels) && IsCode(t, i, w) && t[i].token < 0
    ensures Digits(labels[Leaf(t, i, w)].word) == Digits(labels[i].word) + w
    decreases |w|
  {
    var c := Child(t[i], w[0]);
    assert LabelOk(t, labels, i) && LeadsTo(t, labels, i, w[0]);
    DigitsOfChild(labels[i].word, w[0]);
    assert [w[0]] + w[1..] == w;
    if |w| > 1 {
      LeafLabel(t, labels, c, w[1..]);
      assert Digits(labels[i].word) + [w[0]] + w[1..] == Digits(labels[i].word) + w;
    }
  }

  /** The bits of a label lead from the root to its node. */
  lemma {:induction false} LabelLeads(t: Tree, labels: seq<Label>, i: nat, w: seq<bool>)
    requires Labelled(t, labels) && i < |t| && t[i].token < 0 && IsCode(t, i, w)
    ensures IsCode(t, 0, Digits(labels[i].word) + w)
    ensures Leaf(t, 0, Digits(labels[i].word) + w) == Leaf(t, i, w)
    decreases labels[i].word
  {
    assert LabelOk(t, labels, i);
    if i == 0 {
      assert Digits(labels[i].word) + w == w;
    } else {
      var p := labels[i].parent;
      var bit := labels[i].word % 10 == 1;
      assert LabelOk(t, labels, p);
      DigitsOfChild(labels[p].word, bit);
      var up := [bit] + w;
      assert up[1..] == w;
      LabelLeads(t, labels, p, up);
      assert Digits(labels[p].word) + up == Digits(labels[i].word) + w;
    }
  }

  lemma LeafLeads(t: Tree, labels: seq<Label>, c: nat)
    requires Labelled(t, labels) && 0 < c < |t| && t[c].token >= 0 && t[c].token != EOL
    ensures IsCode(t, 0, Digits(labels[c].word)) && RunLength(t, 0, Digits(labels[c].word)) == t[c].token
  {
    assert LabelOk(t, labels, c);
    var p := labels[c].parent;
    var bit := labels[c].word % 10 == 1;
    assert LabelOk(t, labels, p);
    DigitsOfChild(labels[p].word, bit);
    LabelLeads(t, labels, p, [bit]);
  }
}
