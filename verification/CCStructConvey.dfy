/** What a reader gets of what a writer wrote: null pointers, strings, lists and repetitions included. */
module CCStructConvey {
  import opened Bits
  import opened Options
  import opened CCStruct
  import opened CCStructSize
  import opened CCStructParse

  // ---- lists and repetitions -----------------------------------------------------------------

  /** Instead of an ARRAY its structs one behind the other, and instead of a MULTIPLY as many pointers to its struct. */
  function Unrolled(s: CStruct): CStruct
    decreases s, 0
  {
    match s.body
    case Const(_, _) => s
    case Fields(fs) => CStruct(s.prefix, Fields(UnrolledFields(fs)), s.len)
  }

  function UnrolledFields(fs: seq<Field>): seq<Field>
    decreases fs, 0
  {
    if fs == [] then [] else UnrolledField(fs[0]) + UnrolledFields(fs[1..])
  }

  function UnrolledField(f: Field): seq<Field>
    decreases f, 0
  {
    match f
    case Struct(child) => [Struct(UnrolledChild(child))]
    case Array(items) => UnrolledItems(items)
    case Multiply(count, item) => Copies(Struct(UnrolledChild(item)), count)
    case _ => [f]
  }

  function UnrolledItems(items: seq<Child>): seq<Field>
    decreases items, 0
  {
    if items == [] then [] else [Struct(UnrolledChild(items[0]))] + UnrolledItems(items[1..])
  }

  function UnrolledChild(child: Child): Child
    decreases child, 0
  {
    if child.Null? then Null else At(Unrolled(child.target))
  }

  function Copies(f: Field, n: nat): seq<Field> {
    if n == 0 then [] else [f] + Copies(f, n - 1)
  }

  lemma {:induction false} FillAppend(fs: seq<Field>, gs: seq<Field>)
    requires AllSound(fs) && AllSound(gs)
    ensures AllSound(fs + gs) && FillFields(fs + gs) == Join(FillFields(fs), FillFields(gs))
    ensures ExactFields(fs) && ExactFields(gs) ==> ExactFields(fs + gs)
    decreases |fs|
  {
    if fs == [] {
      assert fs + gs == gs;
      if FillFields(gs).Some? {
        assert [] + FillFields(gs).value == FillFields(gs).value;
      }
    } else {
      var all := fs + gs;
      assert all[0] == fs[0] && all[1..] == fs[1..] + gs;
      FillAppend(fs[1..], gs);
      JoinThree(FillField(fs[0]), FillFields(fs[1..]), FillFields(gs));
    }
  }

  lemma JoinThree(a: Option<seq<byte>>, b: Option<seq<byte>>, c: Option<seq<byte>>)
    ensures Join(Join(a, b), c) == Join(a, Join(b, c))
  {
    if a.Some? && b.Some? && c.Some? {
      assert a.value + b.value + c.value == a.value + (b.value + c.value);
    }
  }

  lemma FillOne(f: Field)
    requires FieldSound(f)
    ensures AllSound([f]) && FillFields([f]) == FillField(f) && (ExactField(f) ==> ExactFields([f]))
  {
    assert [f][1..] == [];
    if FillField(f).Some? {
      assert FillField(f).value + [] == FillField(f).value;
    }
  }

  lemma {:induction false} FillCopies(f: Field, n: nat)
    requires FieldSound(f)
    ensures AllSound(Copies(f, n)) && FillFields(Copies(f, n)) == Repeat(FillField(f), n)
    ensures ExactField(f) ==> ExactFields(Copies(f, n))
    decreases n
  {
    if n > 0 {
      FillCopies(f, n - 1);
      assert Copies(f, n)[0] == f && Copies(f, n)[1..] == Copies(f, n - 1);
    }
  }

  /** Nothing else is written, as long as no MULTIPLY repeats a null pointer. */
  lemma {:induction false} UnrolledWrites(s: CStruct)
    requires Sound(s) && FillBuffer(s).Some?
    ensures Sound(Unrolled(s)) && FillData(Unrolled(s)) == FillData(s) && FillBuffer(Unrolled(s)) == FillBuffer(s)
    ensures Exact(s) ==> Exact(Unrolled(s))
    decreases s, 0
  {
    match s.body
    case Const(_, _) =>
    case Fields(fs) => UnrolledFieldsWrite(fs);
  }

  lemma {:induction false} UnrolledFieldsWrite(fs: seq<Field>)
    requires AllSound(fs) && FillFields(fs).Some?
    ensures AllSound(UnrolledFields(fs)) && FillFields(UnrolledFields(fs)) == FillFields(fs)
    ensures ExactFields(fs) ==> ExactFields(UnrolledFields(fs))
    decreases fs, 0
  {
    if fs != [] {
      UnrolledFieldWrites(fs[0]);
      UnrolledFieldsWrite(fs[1..]);
      FillAppend(UnrolledField(fs[0]), UnrolledFields(fs[1..]));
    }
  }

  lemma {:induction false} UnrolledFieldWrites(f: Field)
    requires FieldSound(f) && FillField(f).Some?
    ensures AllSound(UnrolledField(f)) && FillFields(UnrolledField(f)) == FillField(f)
    ensures ExactField(f) ==> ExactFields(UnrolledField(f))
    decreases f, 0
  {
    match f
    case Struct(child) =>
      UnrolledChildWrites(child);
      FillOne(Struct(UnrolledChild(child)));
    case Array(items) => UnrolledItemsWrite(items);
    case Multiply(count, item) =>
      if count > 0 {
        UnrolledChildWrites(item);
        FillCopies(Struct(UnrolledChild(item)), count);
      }
    case _ => FillOne(f);
  }

  lemma {:induction false} UnrolledItemsWrite(items: seq<Child>)
    requires ItemsSound(items) && FillItems(items).Some?
    ensures AllSound(UnrolledItems(items)) && FillFields(UnrolledItems(items)) == FillItems(items)
    ensures ExactItems(items) ==> ExactFields(UnrolledItems(items))
    decreases items, 0
  {
    if items != [] {
      var f := Struct(UnrolledChild(items[0]));
      UnrolledChildWrites(items[0]);
      UnrolledItemsWrite(items[1..]);
      assert ([f] + UnrolledItems(items[1..]))[1..] == UnrolledItems(items[1..]);
    }
  }

  lemma {:induction false} UnrolledChildWrites(child: Child)
    requires ChildSound(child) && FillChild(child).Some?
    ensures ChildSound(UnrolledChild(child)) && FillChild(UnrolledChild(child)) == FillChild(child)
    ensures ExactChild(child) ==> ExactChild(UnrolledChild(child))
    decreases child, 0
  {
    if child.At? {
      UnrolledWrites(child.target);
    }
  }

  // ---- writers and readers -------------------------------------------------------------------

  /** Lengths and enumerations fit a word. */
  predicate Sendable(s: CStruct)
    decreases s, 0
  {
    s.len < 0x1_0000 && (s.body.Fields? ==> AllSendable(s.body.fields))
  }

  predicate AllSendable(fs: seq<Field>)
    decreases fs, 0
  {
    fs == [] || (FieldSendable(fs[0]) && AllSendable(fs[1..]))
  }

  predicate FieldSendable(f: Field)
    decreases f, 0
  {
    match f
    case Struct(At(s)) => s.prefix.LenByte? && Sendable(s)
    case Enum(_, value) => 0 <= value < 0x1_0000
    case _ => true
  }

  /** `t` is new, and of a format that fits what `s` writes: raw data takes anything, and a list of fields takes
      field for field.  An absent struct may be read by any; a string or zeros by as many bytes of data. */
  predicate Receives(t: CStruct, s: CStruct)
    requires Parsable(t)
    decreases t, 0
  {
    && t.prefix == s.prefix && t.len == 0
    && match t.body
       case Const(block, maxLen) => block.Some? ==> maxLen <= |block.value|
       case Fields(gs) => s.body.Fields? && AllReceive(gs, s.body.fields)
  }

  function DataOf(f: Field): seq<byte>
    requires f.Raw? || f.Text? || f.Zero?
  {
    match f
    case Raw(data) => data
    case Text(text) => text.GetOr([])
    case Zero(n) => seq(n, _ => 0)
  }

  predicate AllReceive(gs: seq<Field>, fs: seq<Field>)
    requires AllParsable(gs)
    decreases gs, 0
  {
    |gs| == |fs| && (gs == [] || (FieldReceives(gs[0], fs[0]) && AllReceive(gs[1..], fs[1..])))
  }

  predicate FieldReceives(g: Field, f: Field)
    requires FieldParsable(g)
    decreases g, 0
  {
    match g
    case Struct(At(t)) =>
      if f.Struct? && f.child.At? then Receives(t, f.child.target) else (f.Struct? || f.ZStruct?) && t.len == 0
    case ZStruct => f.Struct? || f.ZStruct?
    case Enum(kind, _) => f.Enum? && f.kind == kind
    case Gap(_) => f.Gap?
    case Raw(data) => (f.Raw? || f.Text? || f.Zero?) && |DataOf(f)| == |data|
    case Zero(_) => false
  }

  /** The used part of raw data. */
  function Kept(s: CStruct): seq<byte>
    requires s.body.Const? && Sound(s)
  {
    if s.len == 0 then [] else s.body.block.value[..s.len]
  }

  /** What the reader has got: `r` is what became of `t`. */
  predicate Conveyed(s: CStruct, t: CStruct, r: CStruct)
    requires Parsable(t) && Sound(s)
    decreases t, 0
  {
    && Parsable(r) && Sound(r) && r.prefix == t.prefix && r.len == s.len
    && match t.body
       case Const(_, _) =>
         r.body.Const? && if s.body.Const? then Kept(r) == Kept(s) else FillData(s) == Some(Kept(r))
       case Fields(gs) => s.body.Fields? && r.body.Fields? && AllConveyed(s.body.fields, gs, r.body.fields)
  }

  predicate AllConveyed(fs: seq<Field>, gs: seq<Field>, rs: seq<Field>)
    requires AllParsable(gs) && AllSound(fs)
    decreases gs, 0
  {
    && |fs| == |gs| == |rs|
    && (gs == [] || (FieldConveyed(fs[0], gs[0], rs[0]) && AllConveyed(fs[1..], gs[1..], rs[1..])))
  }

  /** An absent struct leaves its reader cleared. */
  predicate FieldConveyed(f: Field, g: Field, r: Field)
    requires FieldParsable(g) && FieldSound(f)
    decreases g, 0
  {
    match g
    case Struct(At(t)) =>
      if f.Struct? && f.child.At? then
        ChildSound(f.child) && r.Struct? && r.child.At? && r.child.target.prefix.LenByte?
        && Conveyed(f.child.target, t, r.child.target)
      else r == Struct(At(Cleared(t)))
    case Enum(_, _) => r == f
    case Raw(_) => (f.Raw? || f.Text? || f.Zero?) && r == Raw(DataOf(f))
    case _ => r == g
  }

  // ---- reading back --------------------------------------------------------------------------

  /** `b` stands in the buffer at `pos`, inside the part that `left` counts. */
  predicate Holds(buf: seq<byte>, pos: nat, left: nat, b: seq<byte>) {
    pos + |b| <= |buf| && |b| <= left && buf[pos..pos + |b|] == b
  }

  lemma HoldsSplit(buf: seq<byte>, pos: nat, left: nat, a: seq<byte>, b: seq<byte>)
    requires Holds(buf, pos, left, a + b)
    ensures Holds(buf, pos, left, a) && Holds(buf, pos + |a|, left - |a|, b)
  {
    var w := buf[pos..pos + |a| + |b|];
    assert w[..|a|] == a && w[|a|..] == b;
    assert buf[pos..pos + |a|] == w[..|a|] && buf[pos + |a|..pos + |a| + |b|] == w[|a|..];
  }

  lemma WordBack(buf: seq<byte>, pos: nat, left: nat, n: nat)
    requires n < 0x1_0000 && Holds(buf, pos, left, Word(n))
    ensures Get16(buf, pos) == n
  {
    var w := buf[pos..pos + 2];
    assert w[0] == n % 256 && w[1] == n / 256;
  }

  lemma LengthBack(buf: seq<byte>, pos: nat, left: nat, len: nat)
    requires len < 0x1_0000 && Holds(buf, pos, left, PrefixBytes(LenByte, len))
    requires left >= |PrefixBytes(LenByte, len)| + len
    ensures var n := |PrefixBytes(LenByte, len)|;
            left > 0 && ReadLength(buf, pos, left) == Parsed(len, pos + n, left - n)
  {
    if len > 254 {
      HoldsSplit(buf, pos, left, [255], Word(len));
      assert buf[pos..pos + 1][0] == buf[pos];
      WordBack(buf, pos + 1, left - 1, len);
    } else {
      assert buf[pos..pos + 1][0] == buf[pos];
    }
  }

  lemma ParsedCons(gs: seq<Field>, buf: seq<byte>, pos: nat, left: nat, f: Field, rest: Parsed<seq<Field>>)
    requires AllParsable(gs) && gs != [] && rest.Parsed?
    requires var r := ParseField(gs[0], buf, pos, left);
             r.Parsed? && r.value == f && rest == ParseFields(gs[1..], buf, r.pos, r.left)
    ensures ParseFields(gs, buf, pos, left) == Parsed([f] + rest.value, rest.pos, rest.left)
  {
  }

  /** A struct with exact lengths, written to a buffer, is read into any new struct that receives it: every value
      arrives, and exactly the bytes written are consumed. */
  lemma {:induction false} Conveys(s: CStruct, t: CStruct, buf: seq<byte>, pos: nat, left: nat)
    requires Parsable(t) && Sound(s) && Exact(s) && Sendable(s) && Receives(t, s) && s.prefix.LenByte?
    requires FillBuffer(s).Some? && Holds(buf, pos, left, FillBuffer(s).value)
    ensures var r, n := ParseBuffer(t, buf, pos, left), |FillBuffer(s).value|;
            r.Parsed? && r.pos == pos + n && r.left == left - n && Conveyed(s, t, r.value)
    decreases t, 1
  {
    var p := PrefixBytes(LenByte, s.len);
    HoldsSplit(buf, pos, left, p, FillData(s).value);
    LengthBack(buf, pos, left, s.len);
    DataConveyed(s, t, buf, pos + |p|, left - |p|);
  }

  lemma {:induction false} DataConveyed(s: CStruct, t: CStruct, buf: seq<byte>, pos: nat, left: nat)
    requires Parsable(t) && Sound(s) && Exact(s) && Sendable(s) && Receives(t, s)
    requires FillData(s).Some? && Holds(buf, pos, left, FillData(s).value)
    ensures var r := ParseContents(t, buf, pos, left, s.len);
            r.Parsed? && r.pos == pos + s.len && r.left == left - s.len && Conveyed(s, t, r.value)
    decreases t, 0
  {
    match t.body
    case Const(_, _) => RawConveyed(s, t, buf, pos, left);
    case Fields(gs) =>
      if s.len == 0 {
        NothingConveyed(s.body.fields, gs);
      } else {
        FieldsConveyed(s.body.fields, gs, buf, pos, s.len);
      }
  }

  lemma RawConveyed(s: CStruct, t: CStruct, buf: seq<byte>, pos: nat, left: nat)
    requires Parsable(t) && Sound(s) && Exact(s) && Receives(t, s) && t.body.Const?
    requires FillData(s).Some? && Holds(buf, pos, left, FillData(s).value)
    ensures var r := ParseContents(t, buf, pos, left, s.len);
            r.Parsed? && r.pos == pos + s.len && r.left == left - s.len && Conveyed(s, t, r.value)
  {
    var data := buf[pos..pos + s.len];
    assert FillData(s) == Some(data) && |data| == s.len;
    if s.len > 0 {
      assert ParseData(t, buf, pos, s.len) == ReadConst(t, t.body.block, t.body.maxLen, data, pos + s.len);
      var u := ParseContents(t, buf, pos, left, s.len).value;
      assert u.body.block.value[..s.len] == data;
    }
  }

  lemma {:induction false} FieldsConveyed(fs: seq<Field>, gs: seq<Field>, buf: seq<byte>, pos: nat, left: nat)
    requires AllParsable(gs) && AllSound(fs) && ExactFields(fs) && AllSendable(fs) && AllReceive(gs, fs)
    requires FillFields(fs).Some? && Holds(buf, pos, left, FillFields(fs).value)
    ensures var r, n := ParseFields(gs, buf, pos, left), |FillFields(fs).value|;
            && r.Parsed? && r.pos == pos + n && r.left == left - n
            && AllParsable(r.value) && AllSound(r.value) && AllConveyed(fs, gs, r.value)
    decreases gs, 0
  {
    if fs != [] {
      var a, b := FillField(fs[0]).value, FillFields(fs[1..]).value;
      HoldsSplit(buf, pos, left, a, b);
      OneConveyed(fs[0], gs[0], buf, pos, left);
      FieldsConveyed(fs[1..], gs[1..], buf, pos + |a|, left - |a|);
      var f := ParseField(gs[0], buf, pos, left).value;
      var rest := ParseFields(gs[1..], buf, pos + |a|, left - |a|);
      ParsedCons(gs, buf, pos, left, f, rest);
      assert ([f] + rest.value)[1..] == rest.value;
    }
  }

  lemma {:induction false} OneConveyed(f: Field, g: Field, buf: seq<byte>, pos: nat, left: nat)
    requires FieldParsable(g) && FieldSound(f) && ExactField(f) && FieldSendable(f) && FieldReceives(g, f)
    requires FillField(f).Some? && Holds(buf, pos, left, FillField(f).value)
    ensures var r, n := ParseField(g, buf, pos, left), |FillField(f).value|;
            && r.Parsed? && r.pos == pos + n && r.left == left - n
            && FieldParsable(r.value) && FieldSound(r.value) && FieldConveyed(f, g, r.value)
    decreases g, 0
  {
    match g
    case Struct(At(t)) =>
      if f.Struct? && f.child.At? {
        Conveys(f.child.target, t, buf, pos, left);
      } else {
        AbsentConveyed(t, buf, pos, left);
      }
    case ZStruct => StructSkipped(f, buf, pos, left);
    case Enum(_, _) => WordBack(buf, pos, left, f.value);
    case _ =>
  }

  /** A placeholder for a struct skips one that is there. */
  lemma StructSkipped(f: Field, buf: seq<byte>, pos: nat, left: nat)
    requires (f.Struct? || f.ZStruct?) && FieldSound(f) && ExactField(f) && FieldSendable(f)
    requires FillField(f).Some? && Holds(buf, pos, left, FillField(f).value)
    ensures var n := |FillField(f).value|; ParseField(ZStruct, buf, pos, left) == Parsed(ZStruct, pos + n, left - n)
  {
    if f.Struct? && f.child.At? {
      var s := f.child.target;
      assert s.prefix.LenByte? && FillField(f) == FillBuffer(s);
      assert FillBuffer(s).value == PrefixBytes(LenByte, s.len) + FillData(s).value;
      assert Exact(s) && s.len == |FillData(s).value|;
      HoldsSplit(buf, pos, left, PrefixBytes(LenByte, s.len), FillData(s).value);
      LengthBack(buf, pos, left, s.len);
    } else {
      assert PrefixBytes(LenByte, 0) == [0];
      LengthBack(buf, pos, left, 0);
    }
  }

  /** A length byte zero clears the reader. */
  lemma AbsentConveyed(t: CStruct, buf: seq<byte>, pos: nat, left: nat)
    requires Parsable(t) && t.prefix.LenByte? && t.len == 0 && Holds(buf, pos, left, [0])
    ensures ParseBuffer(t, buf, pos, left) == Parsed(Cleared(t), pos + 1, left - 1)
    ensures Parsable(Cleared(t)) && Sound(Cleared(t))
  {
    assert PrefixBytes(LenByte, 0) == [0];
    LengthBack(buf, pos, left, 0);
    ClearedIsSound(t);
  }

  lemma {:induction false} ClearedIsSound(t: CStruct)
    requires Parsable(t)
    ensures Parsable(Cleared(t)) && Sound(Cleared(t)) && Cleared(t).prefix == t.prefix
    decreases t, 0
  {
    if t.body.Fields? {
      ClearedAreSound(t.body.fields);
    }
  }

  lemma {:induction false} ClearedAreSound(gs: seq<Field>)
    requires AllParsable(gs)
    ensures AllParsable(ClearedFields(gs)) && AllSound(ClearedFields(gs))
    decreases gs, 0
  {
    if gs != [] {
      ClearedOneIsSound(gs[0]);
      ClearedAreSound(gs[1..]);
      assert ClearedFields(gs)[1..] == ClearedFields(gs[1..]);
    }
  }

  lemma {:induction false} ClearedOneIsSound(g: Field)
    requires FieldParsable(g)
    ensures FieldParsable(ClearedField(g)) && FieldSound(ClearedField(g))
    decreases g, 0
  {
    match g
    case Struct(At(t)) => ClearedIsSound(t);
    case _ =>
  }

  lemma StructTakesBytes(f: Field)
    requires FieldSound(f) && FieldSendable(f) && (f.Struct? || f.ZStruct?) && FillField(f).Some?
    ensures FillField(f).value != []
  {
    if f.Struct? && f.child.At? {
      var s := f.child.target;
      assert FillField(f) == FillBuffer(s) && s.prefix.LenByte?;
      assert |PrefixBytes(s.prefix, s.len) + FillData(s).value| > 0;
    }
  }

  lemma NoneConveyed(f: Field, g: Field)
    requires FieldParsable(g) && FieldSound(f) && FieldSendable(f) && FieldReceives(g, f) && FillField(f) == Some([])
    ensures var r := ClearedField(g); FieldParsable(r) && FieldSound(r) && FieldConveyed(f, g, r)
  {
    if f.Struct? || f.ZStruct? {
      StructTakesBytes(f);
    }
  }

  /** Of fields of which nothing is written the cleared reader has the values. */
  lemma {:induction false} NothingConveyed(fs: seq<Field>, gs: seq<Field>)
    requires AllParsable(gs) && AllSound(fs) && AllSendable(fs) && AllReceive(gs, fs) && FillFields(fs) == Some([])
    ensures var r := ClearedFields(gs); AllParsable(r) && AllSound(r) && AllConveyed(fs, gs, r)
    decreases |gs|
  {
    if fs != [] {
      var a, b := FillField(fs[0]).value, FillFields(fs[1..]).value;
      assert |a + b| == 0;
      assert a == [] && b == [];
      NoneConveyed(fs[0], gs[0]);
      NothingConveyed(fs[1..], gs[1..]);
      assert ClearedFields(gs)[0] == ClearedField(gs[0]) && ClearedFields(gs)[1..] == ClearedFields(gs[1..]);
    }
  }

  /** A message body has no length of its own: it is read with the count that the caller gives, and bytes that its
      format does not know may follow. */
  lemma MessageConveys(s: CStruct, t: CStruct, buf: seq<byte>, left: nat)
    requires Parsable(t) && Sound(s) && Exact(s) && Sendable(s) && Receives(t, s)
    requires s.prefix.NoLen? && t.body.Fields? && left > 0
    requires FillBuffer(s).Some? && Holds(buf, 0, left, FillBuffer(s).value)
    ensures var r := ParseBuffer(t, buf, 0, left);
            && r.Parsed? && r.pos == |FillBuffer(s).value|
            && Conveyed(s, t, r.value)
  {
    var fs, gs := s.body.fields, t.body.fields;
    var b := FillFields(fs).value;
    assert [] + b == b;
    FieldsConveyed(fs, gs, buf, 0, left);
    var r := ParseFields(gs, buf, 0, left);
    var d := ParseData(t, buf, 0, left);
    assert d == Parsed(CStruct(t.prefix, Fields(r.value), left - r.left), r.pos, 0);
    assert ParseContents(t, buf, 0, left, left) == Parsed(d.value, d.pos, 0);
  }

  /** With lists and repetitions, which their receiver reads as single structs. */
  lemma ListsConvey(s: CStruct, t: CStruct, buf: seq<byte>, pos: nat, left: nat)
    requires Sound(s) && Exact(s) && s.prefix.LenByte? && FillBuffer(s).Some?
    requires Parsable(t) && Sendable(Unrolled(s)) && Receives(t, Unrolled(s))
    requires Holds(buf, pos, left, FillBuffer(s).value)
    ensures var r, n := ParseBuffer(t, buf, pos, left), |FillBuffer(s).value|;
            && r.Parsed? && r.pos == pos + n && r.left == left - n
            && Sound(Unrolled(s)) && Conveyed(Unrolled(s), t, r.value)
  {
    UnrolledWrites(s);
    Conveys(Unrolled(s), t, buf, pos, left);
  }

  /** The length word of a whole message counts the message, itself included. */
  lemma MessageLength(s: CStruct)
    requires Sound(s) && Exact(s) && s.prefix.MsgLen? && s.len + 2 < 0x1_0000 && FillBuffer(s).Some?
    ensures var b := FillBuffer(s).value; |b| >= 2 && Get16(b, 0) == |b|
  {
  }
}
