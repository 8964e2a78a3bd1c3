/** What is written can be read back. */
module CCStructRoundTrip {
  import opened Bits
  import opened CCStruct
  import opened CCStructSize
  import opened CCStructParse
  import opened CCStructConvey

  // ---- formats and values --------------------------------------------------------------------

  /** Nothing that is lost in writing: lengths and enumerations fit a word, and no Z_nn operators. */
  predicate Plain(s: CStruct)
    requires Parsable(s)
    decreases s, 0
  {
    && s.len < 0x1_0000
    && match s.body
       case Const(_, _) => true
       case Fields(fs) => AllPlain(fs)
  }

  predicate AllPlain(fs: seq<Field>)
    requires AllParsable(fs)
    decreases fs, 0
  {
    fs == [] || (FieldPlain(fs[0]) && AllPlain(fs[1..]))
  }

  predicate FieldPlain(f: Field)
    requires FieldParsable(f)
    decreases f, 0
  {
    match f
    case Struct(At(t)) => Plain(t)
    case Enum(_, value) => 0 <= value < 0x1_0000
    case Zero(_) => false
    case _ => true
  }

  /** `t` has the format of `s` and is new: no lengths cached, and owned memory as large as it claims. */
  predicate FreshFor(s: CStruct, t: CStruct)
    requires Parsable(s) && Parsable(t)
    decreases s, 0
  {
    && t.prefix == s.prefix && t.len == 0
    && match (s.body, t.body)
       case (Const(_, _), Const(block, maxLen)) => block.Some? ==> maxLen <= |block.value|
       case (Fields(fs), Fields(gs)) => AllFreshFor(fs, gs)
       case _ => false
  }

  predicate AllFreshFor(fs: seq<Field>, gs: seq<Field>)
    requires AllParsable(fs) && AllParsable(gs)
    decreases fs, 0
  {
    |fs| == |gs| && (fs == [] || (FieldFreshFor(fs[0], gs[0]) && AllFreshFor(fs[1..], gs[1..])))
  }

  predicate FieldFreshFor(f: Field, g: Field)
    requires FieldParsable(f) && FieldParsable(g)
    decreases f, 0
  {
    match (f, g)
    case (Struct(At(s)), Struct(At(t))) => FreshFor(s, t)
    case (Enum(k, _), Enum(l, _)) => k == l
    case (Raw(a), Raw(b)) => |a| == |b|
    case (ZStruct, ZStruct) => true
    case (Gap(m), Gap(n)) => m == n
    case (Zero(m), Zero(n)) => m == n
    case _ => false
  }

  /** Equal contents: of raw data the used part, of gaps nothing. */
  predicate SameValue(s: CStruct, t: CStruct)
    requires Parsable(s) && Parsable(t) && Sound(s) && Sound(t)
    decreases s, 0
  {
    && t.prefix == s.prefix && t.len == s.len
    && match (s.body, t.body)
       case (Const(_, _), Const(_, _)) => Kept(s) == Kept(t)
       case (Fields(fs), Fields(gs)) => AllSame(fs, gs)
       case _ => false
  }

  predicate AllSame(fs: seq<Field>, gs: seq<Field>)
    requires AllParsable(fs) && AllParsable(gs) && AllSound(fs) && AllSound(gs)
    decreases fs, 0
  {
    |fs| == |gs| && (fs == [] || (SameField(fs[0], gs[0]) && AllSame(fs[1..], gs[1..])))
  }

  predicate SameField(f: Field, g: Field)
    requires FieldParsable(f) && FieldParsable(g) && FieldSound(f) && FieldSound(g)
    decreases f, 0
  {
    match (f, g)
    case (Struct(At(s)), Struct(At(t))) => ChildSound(f.child) && ChildSound(g.child) && SameValue(s, t)
    case _ => f == g
  }

  // ---- the round trip ------------------------------------------------------------------------

  /** A new struct of the same format receives what is written. */
  lemma {:induction false} FreshReceives(s: CStruct, t: CStruct)
    requires Parsable(s) && Parsable(t) && Plain(s) && FreshFor(s, t)
    ensures Sendable(s) && Receives(t, s)
    decreases s, 0
  {
    match s.body
    case Const(_, _) =>
    case Fields(fs) => FreshFieldsReceive(fs, t.body.fields);
  }

  lemma {:induction false} FreshFieldsReceive(fs: seq<Field>, gs: seq<Field>)
    requires AllParsable(fs) && AllParsable(gs) && AllPlain(fs) && AllFreshFor(fs, gs)
    ensures AllSendable(fs) && AllReceive(gs, fs)
    decreases fs, 0
  {
    if fs != [] {
      FreshFieldReceives(fs[0], gs[0]);
      FreshFieldsReceive(fs[1..], gs[1..]);
    }
  }

  lemma {:induction false} FreshFieldReceives(f: Field, g: Field)
    requires FieldParsable(f) && FieldParsable(g) && FieldPlain(f) && FieldFreshFor(f, g)
    ensures FieldSendable(f) && FieldReceives(g, f)
    decreases f, 0
  {
    match f
    case Struct(At(s)) => FreshReceives(s, g.child.target);
    case _ =>
  }

  /** And what it has got then are the values. */
  lemma {:induction false} ConveyedIsSame(s: CStruct, t: CStruct, r: CStruct)
    requires Parsable(s) && Parsable(t) && Sound(s) && FreshFor(s, t) && Conveyed(s, t, r)
    ensures SameValue(s, r)
    decreases s, 0
  {
    match s.body
    case Const(_, _) =>
    case Fields(fs) => ConveyedFieldsAreSame(fs, t.body.fields, r.body.fields);
  }

  lemma {:induction false} ConveyedFieldsAreSame(fs: seq<Field>, gs: seq<Field>, rs: seq<Field>)
    requires AllParsable(fs) && AllParsable(gs) && AllParsable(rs) && AllSound(fs) && AllSound(rs)
    requires AllFreshFor(fs, gs) && AllConveyed(fs, gs, rs)
    ensures AllSame(fs, rs)
    decreases fs, 0
  {
    if fs != [] {
      ConveyedFieldIsSame(fs[0], gs[0], rs[0]);
      ConveyedFieldsAreSame(fs[1..], gs[1..], rs[1..]);
    }
  }

  lemma {:induction false} ConveyedFieldIsSame(f: Field, g: Field, r: Field)
    requires FieldParsable(f) && FieldParsable(g) && FieldParsable(r) && FieldSound(f) && FieldSound(r)
    requires FieldFreshFor(f, g) && FieldConveyed(f, g, r)
    ensures SameField(f, r)
    decreases f, 0
  {
    match f
    case Struct(At(s)) => ConveyedIsSame(s, g.child.target, r.child.target);
    case _ =>
  }

  /** A struct with exact lengths, written to a buffer, is read back into a fresh struct of the same
      format: every value is restored, and exactly the bytes written are consumed. */
  lemma RoundTrip(s: CStruct, t: CStruct, buf: seq<byte>, pos: nat, left: nat)
    requires Parsable(s) && Parsable(t) && Sound(s) && Exact(s) && Plain(s) && FreshFor(s, t)
    requires s.prefix.LenByte?
    requires FillBuffer(s).Some? && Holds(buf, pos, left, FillBuffer(s).value)
    ensures var r, n := ParseBuffer(t, buf, pos, left), |FillBuffer(s).value|;
            && r.Parsed? && r.pos == pos + n && r.left == left - n
            && Parsable(r.value) && Sound(r.value) && SameValue(s, r.value)
  {
    FreshReceives(s, t);
    Conveys(s, t, buf, pos, left);
    ConveyedIsSame(s, t, ParseBuffer(t, buf, pos, left).value);
  }

  /** A message body has no length of its own: it is read with the count that the caller gives, and bytes
      that its format does not know may follow. */
  lemma MessageRoundTrip(s: CStruct, t: CStruct, buf: seq<byte>, left: nat)
    requires Parsable(s) && Parsable(t) && Sound(s) && Exact(s) && Plain(s) && FreshFor(s, t)
    requires s.prefix.NoLen? && s.body.Fields? && left > 0
    requires FillBuffer(s).Some? && Holds(buf, 0, left, FillBuffer(s).value)
    ensures var r := ParseBuffer(t, buf, 0, left);
            && r.Parsed? && r.pos == |FillBuffer(s).value|
            && Parsable(r.value) && Sound(r.value) && SameValue(s, r.value)
  {
    FreshReceives(s, t);
    MessageConveys(s, t, buf, left);
    ConveyedIsSame(s, t, ParseBuffer(t, buf, 0, left).value);
  }

  /** From the size pass to the values read back: any tidy struct, sized anew, survives the round trip. */
  lemma SizedRoundTrip(s: CStruct, u: CStruct, t: CStruct)
    requires Sound(s) && Tidy(s) && FillBuffer(s).Some?
    requires CalcStructSize(ResetStructSize(s)).Sized? && u == CalcStructSize(ResetStructSize(s)).value
    requires Parsable(u) && Plain(u) && Parsable(t) && FreshFor(u, t) && u.prefix.LenByte?
    ensures Sound(u) && FillBuffer(u).Some?
    ensures var n := CalcStructSize(ResetStructSize(s)).size;
            var r := ParseBuffer(t, FillBuffer(u).value, 0, n);
            && r.Parsed? && r.pos == n && r.left == 0
            && Parsable(r.value) && Sound(r.value) && SameValue(u, r.value)
  {
    SizePass(s);
    RoundTrip(u, t, FillBuffer(u).value, 0, |FillBuffer(u).value|);
  }

  /** Equal values are written alike, so what was read back can take the place of what was written. */
  lemma {:induction false} SameWrites(s: CStruct, t: CStruct)
    requires Parsable(s) && Parsable(t) && Sound(s) && Sound(t) && SameValue(s, t)
    ensures FillBuffer(s) == FillBuffer(t)
    decreases s, 0
  {
    match s.body
    case Const(_, _) =>
    case Fields(fs) => SameFieldsWrite(fs, t.body.fields);
  }

  lemma {:induction false} SameFieldsWrite(fs: seq<Field>, gs: seq<Field>)
    requires AllParsable(fs) && AllParsable(gs) && AllSound(fs) && AllSound(gs) && AllSame(fs, gs)
    ensures FillFields(fs) == FillFields(gs)
    decreases fs, 0
  {
    if fs != [] {
      SameFieldWrites(fs[0], gs[0]);
      SameFieldsWrite(fs[1..], gs[1..]);
    }
  }

  lemma {:induction false} SameFieldWrites(f: Field, g: Field)
    requires FieldParsable(f) && FieldParsable(g) && FieldSound(f) && FieldSound(g) && SameField(f, g)
    ensures FillField(f) == FillField(g)
    decreases f, 0
  {
    match f
    case Struct(At(s)) => SameWrites(s, g.child.target);
    case _ =>
  }

  // ---- a format of the fax protocol ----------------------------------------------------------

  /** The B3 configuration for fax group 3 (gaps before its two strings) is sized from wrong memory. */
  lemma FaxConfigurationMissized(resolution: seq<byte>, format: seq<byte>, id: Child, head: Child)
    ensures CalcStructSize(CStruct(LenByte, Fields(
              [Gap(0x10), Raw(resolution), Gap(2), Raw(format), Struct(id), Struct(head)]), 0)) == Wild
  {
    var fs := [Gap(0x10), Raw(resolution), Gap(2), Raw(format), Struct(id), Struct(head)];
    assert fs[1..] == [Raw(resolution), Gap(2), Raw(format), Struct(id), Struct(head)];
    assert fs[1..][1..] == [Gap(2), Raw(format), Struct(id), Struct(head)];
    assert fs[1..][1..][1..] == [Raw(format), Struct(id), Struct(head)];
    assert fs[1..][1..][1..][1..] == [Struct(id), Struct(head)];
    assert CalcFields([Struct(id), Struct(head)], 18) == Wild;
    assert CalcFields(fs[1..][1..][1..], 18) == Wild;
    assert CalcFields(fs[1..][1..], 16) == Wild;
    assert CalcFields(fs[1..], 16) == Wild;
  }
}
