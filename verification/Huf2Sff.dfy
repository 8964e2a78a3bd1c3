/** CSFilter_Huf2Sff: the converter with its line buffer and its ring of bytes written. */
module Huf2Sff {
  import opened Bits
  import opened HufTree
  import opened HufTables
  import opened SffStream
  import opened HufMachine
  import opened DataQueue

  class Filter {
    const trees: Trees
    const queue: Queue
    const auxBuff: array<byte>
    var numBytes: nat
    var outByte: byte
    var outBits: nat
    var curNode: Tree
    var curInd: nat
    var white: bool
    var eolFound: bool
    var eolCount0: nat
    var run0: int
    var run1: int
    var emptyLine: bool
    var lineValid: bool
    var eop: bool
    var defaultVRes: nat

    ghost predicate InBounds()
      reads this, queue
    {
      auxBuff.Length == AUXSIZE && numBytes <= AUXSIZE && queue.qdata != auxBuff && queue.Valid()
    }

    ghost function State(): Machine
      reads this, queue, auxBuff
      requires InBounds()
    {
      Machine(lineValid, eop, defaultVRes, curInd, white, eolFound, eolCount0, run0, run1, emptyLine,
              auxBuff[..numBytes], outByte, outBits)
    }

    /** The bytes waiting in the ring. */
    ghost function Contents(): seq<byte>
      reads this, queue, queue.qdata
      requires InBounds()
    {
      queue.Contents()
    }

    ghost predicate Valid()
      reads this, queue, auxBuff
    {
      && InBounds()
      && BothWellFormed(trees)
      && curNode == trees.Of(white)
      && Ok(trees, State())
    }

    constructor ()
      ensures InBounds() && trees == HufTrees && BothWellFormed(trees)
      ensures fresh(queue) && fresh(queue.qdata) && fresh(auxBuff)
    {
      trees := HufTrees;
      queue := new Queue();
      auxBuff := new byte[AUXSIZE](_ => 0);
      numBytes, outByte, outBits := 0, 0, 0;
      curNode, curInd, white, eolFound, eolCount0 := [], 0, true, false, 0;
      run0, run1, emptyLine, lineValid, eop, defaultVRes := 0, 0, false, false, false, 0;
      TablesWellFormed();
    }

    method Open(vRes: nat)
      requires InBounds() && BothWellFormed(trees)
      modifies this, queue, queue.qdata
      ensures Valid() && State() == Opened(vRes) && Contents() == FILEHEADER
    {
      queue.Clear();
      lineValid, eop, emptyLine, defaultVRes := false, false, false, vRes;
      HufmanInit();
      RootReached(trees.white, 0);
      assert State() == Opened(vRes);
      var n := queue.Enq(FILEHEADER);
      assert Contents() == [] + FILEHEADER;
    }

    method HufmanInit()
      requires InBounds()
      modifies this
      ensures InBounds() && State() == HufMachine.HufmanInit(old(State())) && curNode == trees.white
    {
      ghost var m := State();
      curInd, numBytes, run0, run1 := 0, 0, 0, 0;
      eolFound, eolCount0 := false, 0;
      outByte, outBits := 0, 0;
      curNode := trees.white;
      white := true;
      assert auxBuff[..0] == [];
      assert State() == HufMachine.HufmanInit(m);
    }

    method SetVRes(vRes: nat)
      requires Valid()
      modifies this`defaultVRes
      ensures Valid() && State() == old(State()).(vres := vRes)
    {
      defaultVRes := vRes;
    }

    method PutPageHeader(lastPage: bool)
      requires InBounds()
      modifies queue`qwrite, queue.qdata
      ensures InBounds()
      ensures Contents()
           == Offer(old(Contents()), Encode(if lastPage then DocumentEnd else PageStart(defaultVRes % 256)))
    {
      ghost var was := Contents();
      var second: byte := if lastPage then 0 else 16;
      var n := queue.Enq1(254);
      n := queue.Enq1(second);
      OfferAppend(was, [254], [second]);
      assert [254] + [second] == [254, second];
      if lastPage {
        return;
      }
      n := queue.Enq(PageHeader(defaultVRes % 256));
      OfferAppend(was, [254, 16], PageHeader(defaultVRes % 256));
    }

    /** Write the recorded line with its length. */
    method PutLine()
      requires InBounds()
      modifies queue`qwrite, queue.qdata
      ensures InBounds() && Contents() == Offer(old(Contents()), Encode(Line(auxBuff[..numBytes])))
    {
      ghost var was := Contents();
      var len := numBytes;
      var n;
      if len > 216 {
        var lo, hi := len % 256, len / 256 % 256;
        n := queue.Enq1(0);
        n := queue.Enq1(lo);
        n := queue.Enq1(hi);
        OfferAppend(was, [0], [lo]);
        OfferAppend(was, [0] + [lo], [hi]);
        assert [0] + [lo] + [hi] == LinePrefix(len);
      } else {
        n := queue.Enq1(len);
      }
      n := queue.Enq(auxBuff[..len]);
      OfferAppend(was, LinePrefix(len), auxBuff[..len]);
    }

    /** Shift one bit in, storing the byte when it is full. */
    method RecordBit(bit: bool)
      requires InBounds() && outBits < 8 && |HufMachine.RecordBit(State(), bit).aux| <= AUXSIZE
      modifies this`outByte, this`outBits, this`numBytes, auxBuff
      ensures InBounds() && State() == HufMachine.RecordBit(old(State()), bit)
    {
      outByte := ShiftIn(outByte, bit);
      outBits := outBits + 1;
      if outBits >= 8 {
        auxBuff[numBytes] := outByte;
        numBytes := numBytes + 1;
        outByte, outBits := 0, 0;
        assert auxBuff[..numBytes] == old(auxBuff[..numBytes]) + [ShiftIn(old(outByte), bit)];
      }
    }

    /** Follow a bit in the code tree. */
    method WalkBit(bit: bool)
      requires InBounds() && Inside(trees, State()) && curNode == trees.Of(white)
      requires Child(curNode[curInd], bit) < |curNode|
      modifies this, queue`qwrite, queue.qdata
      ensures InBounds() && State() == HufMachine.WalkBit(trees, old(State()), bit).0
      ensures curNode == trees.Of(white)
      ensures Contents()
           == Offer(old(Contents()), EncodeAll(HufMachine.WalkBit(trees, old(State()), bit).1))
    {
      curInd := Child(curNode[curInd], bit);
      var huf := curNode[curInd].token;
      if huf >= 0 {
        if huf == EOL {
          eolFound := true;
          PutLine();
          EncodeOne(Line(auxBuff[..numBytes]));
        } else {
          AddRun(huf);
        }
      }
    }

    /** Take a run length; a terminating code changes the colour. */
    method AddRun(huf: int)
      requires InBounds()
      modifies this
      ensures InBounds() && State() == HufMachine.AddRun(old(State()), huf)
      ensures curNode == trees.Of(white)
    {
      run1 := run1 + huf;
      if !white && huf != 0 {
        emptyLine := false;
      }
      if huf < TCLIM {
        white := !white;
        run0 := run1;
      }
      curNode := if white then trees.white else trees.black;
      curInd := 0;
    }

    /** Count a bit for end-of-line detection. */
    method CountBit(bit: bool)
      requires InBounds() && curNode == trees.Of(white)
      modifies this, queue`qwrite, queue.qdata
      ensures InBounds() && State() == HufMachine.CountBit(old(State()), bit).0
      ensures curNode == trees.Of(white)
      ensures Contents() == Offer(old(Contents()), EncodeAll(HufMachine.CountBit(old(State()), bit).1))
    {
      if bit {
        if eolCount0 >= 11 {
          if !lineValid {
            lineValid := true;
            eop := false;
            PutPageHeader(false);
            EncodeOne(PageStart(defaultVRes % 256));
          }
          HufmanInit();
        }
        eolCount0 := 0;
      } else {
        eolCount0 := eolCount0 + 1;
      }
    }

    /** HUFtstBit; the caller must leave room in the line buffer. */
    method HufTstBit(bit: bool)
      requires Valid()
      requires Recording(State()) ==> |HufMachine.RecordBit(State(), bit).aux| <= AUXSIZE
      modifies this, queue`qwrite, queue.qdata, auxBuff
      ensures Valid()
      ensures State() == Step(trees, old(State()), bit).0
      ensures Contents() == Offer(old(Contents()), EncodeAll(Step(trees, old(State()), bit).1))
    {
      ghost var was, m := Contents(), State();
      StepKeeps(trees, m, bit);
      ghost var rs: seq<SffRecord> := [];
      if !eolFound && lineValid {
        ChildReached(trees.Of(white), curInd, bit, Recorded(m));
        RecordBit(bit);
        rs := HufMachine.WalkBit(trees, State(), bit).1;
        WalkBit(bit);
      }
      ghost var m1 := State();
      CountBit(bit);
      OfferAppend(was, EncodeAll(rs), EncodeAll(HufMachine.CountBit(m1, bit).1));
      EncodeAllAppend(rs, HufMachine.CountBit(m1, bit).1);
    }

    /** PutChar: the bits of a byte, lowest first (the source spells the eight calls out). */
    method PutChar(ch: byte)
      requires Valid() && LinesFit(trees, State(), BitsOf(ch, 8))
      modifies this, queue`qwrite, queue.qdata, auxBuff
      ensures Valid()
      ensures State() == Run(trees, old(State()), BitsOf(ch, 8)).0
      ensures Contents() == Offer(old(Contents()), EncodeAll(Run(trees, old(State()), BitsOf(ch, 8)).1))
    {
      var bits := BitsOf(ch, 8);
      ghost var was, m := Contents(), State();
      var k := 0;
      while k < 8
        invariant 0 <= k <= 8 && Valid()
        invariant State() == Run(trees, m, bits[..k]).0
        invariant Contents() == Offer(was, EncodeAll(Run(trees, m, bits[..k]).1))
      {
        ghost var m1, rs := State(), Run(trees, m, bits[..k]).1;
        RunSnoc(trees, m, bits, k);
        HufTstBit(bits[k]);
        OfferAppend(was, EncodeAll(rs), EncodeAll(Step(trees, m1, bits[k]).1));
        EncodeAllAppend(rs, Step(trees, m1, bits[k]).1);
        k := k + 1;
      }
      assert bits[..8] == bits;
    }
  }

  lemma EncodeOne(r: SffRecord)
    ensures EncodeAll([r]) == Encode(r)
  {
    assert [r][1..] == [] && Encode(r) + [] == Encode(r);
  }

  /** One bit more of a run, with room for it in the line buffer. */
  lemma RunSnoc(ts: Trees, m: Machine, bits: seq<bool>, k: nat)
    requires BothWellFormed(ts) && Ok(ts, m) && LinesFit(ts, m, bits) && k < |bits|
    ensures var m1 := Run(ts, m, bits[..k]).0;
            && Ok(ts, m1)
            && (Recording(m1) ==> |HufMachine.RecordBit(m1, bits[k]).aux| <= AUXSIZE)
            && Run(ts, m, bits[..k + 1]).0 == Step(ts, m1, bits[k]).0
            && Run(ts, m, bits[..k + 1]).1 == Run(ts, m, bits[..k]).1 + Step(ts, m1, bits[k]).1
  {
    assert bits[..k] + bits[k..] == bits && bits[..k] + [bits[k]] == bits[..k + 1];
    LinesFitSplit(ts, m, bits[..k], bits[k..]);
    RunAppend(ts, m, bits[..k], [bits[k]]);
    RunOne(ts, Run(ts, m, bits[..k]).0, bits[k]);
  }

  lemma RunOne(ts: Trees, m: Machine, bit: bool)
    requires BothWellFormed(ts) && Ok(ts, m)
    ensures Run(ts, m, [bit]) == Step(ts, m, bit)
  {
    StepKeeps(ts, m, bit);
    var (m1, rs1) := Step(ts, m, bit);
    assert [bit][1..] == [] && Run(ts, m1, []) == (m1, []) && rs1 + [] == rs1;
  }
}
