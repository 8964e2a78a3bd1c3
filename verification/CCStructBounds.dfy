/** Where the buffer pointer stands after a parse, and which formats can be parsed with no access outside
    the memory given, whatever the input. */
module CCStructBounds {
  import opened Bits
  import opened CCStruct
  import opened CCStructParse
  import opened CCStructConvey
  import opened Options

  // ---- the pointer ---------------------------------------------------------------------------

  /** How far a parse leads the pointer astray: a Z_nn operator steps over bytes that it does not take
      from the count, and a nested struct goes as far astray as its own operators do. */
  function Astray(s: CStruct, buf: seq<byte>, pos: nat, left: nat): nat
    requires Parsable(s)
    decreases s, 1
  {
    if s.body.Const? || left == 0 then 0
    else if s.prefix.NoLen? then AstrayFields(s.body.fields, buf, pos, left)
    else
      var len := ReadLength(buf, pos, left);
      if len.Parsed? && len.value > 0 then AstrayFields(s.body.fields, buf, len.pos, len.value) else 0
  }

  function AstrayFields(fs: seq<Field>, buf: seq<byte>, pos: nat, len: nat): nat
    requires AllParsable(fs)
    decreases fs, 0
  {
    if fs == [] then 0
    else
      var r := ParseField(fs[0], buf, pos, len);
      AstrayField(fs[0], buf, pos, len) + if r.Parsed? then AstrayFields(fs[1..], buf, r.pos, r.left) else 0
  }

  function AstrayField(f: Field, buf: seq<byte>, pos: nat, len: nat): nat
    requires FieldParsable(f)
    decreases f, 0
  {
    match f
    case Zero(n) => n
    case Struct(At(t)) => Astray(t, buf, pos, len)
    case _ => 0
  }

  /** A successful parse of a struct with a length leaves the count reduced by prefix and declared length,
      and the pointer behind them by as much as the parse went astray. */
  lemma {:induction false} PointerLaw(s: CStruct, buf: seq<byte>, pos: nat, left: nat)
    requires Parsable(s) && s.prefix.LenByte? && ParseBuffer(s, buf, pos, left).Parsed?
    ensures var r, len := ParseBuffer(s, buf, pos, left), ReadLength(buf, pos, left);
            && len.Parsed?
            && r.left == len.left - len.value
            && r.pos == len.pos + len.value + Astray(s, buf, pos, left)
    decreases s, 1
  {
    var len := ReadLength(buf, pos, left);
    assert ParseContents(s, buf, len.pos, len.left, len.value).Parsed?;
    if len.value > 0 {
      var d := ParseData(s, buf, len.pos, len.value);
      assert d.Parsed?;
      if s.body.Fields? {
        var r := ParseFields(s.body.fields, buf, len.pos, len.value);
        assert r.Parsed? && d.pos == r.pos + r.left;
        FieldsPointerLaw(s.body.fields, buf, len.pos, len.value);
      }
    }
  }

  lemma {:induction false} FieldsPointerLaw(fs: seq<Field>, buf: seq<byte>, pos: nat, len: nat)
    requires AllParsable(fs) && ParseFields(fs, buf, pos, len).Parsed?
    ensures var r := ParseFields(fs, buf, pos, len);
            r.pos + r.left == pos + len + AstrayFields(fs, buf, pos, len)
    decreases fs, 0
  {
    if fs != [] {
      FieldPointerLaw(fs[0], buf, pos, len);
      var r := ParseField(fs[0], buf, pos, len);
      FieldsPointerLaw(fs[1..], buf, r.pos, r.left);
    }
  }

  lemma {:induction false} FieldPointerLaw(f: Field, buf: seq<byte>, pos: nat, len: nat)
    requires FieldParsable(f) && ParseField(f, buf, pos, len).Parsed?
    ensures var r := ParseField(f, buf, pos, len);
            r.pos + r.left == pos + len + AstrayField(f, buf, pos, len)
    decreases f, 0
  {
    match f
    case Struct(At(t)) => PointerLaw(t, buf, pos, len);
    case _ =>
  }

  /** How many bytes raw data without a length prefix takes: those it is preset to, or all there are. */
  function Taken(s: CStruct, left: nat): nat {
    if s.body.Const? && s.len != 0 && s.body.block.Some? then s.len else left
  }

  /** A message body of fields takes the whole count, and the pointer stands behind what its operators have
      counted, by as much as the parse went astray; raw data takes what it is preset to, or the whole count. */
  lemma MessagePointerLaw(s: CStruct, buf: seq<byte>, pos: nat, left: nat)
    requires Parsable(s) && s.prefix.NoLen? && ParseBuffer(s, buf, pos, left).Parsed?
    ensures var r := ParseBuffer(s, buf, pos, left);
            && r.left == left - Taken(s, left)
            && if s.body.Const? then r.pos == pos + Taken(s, left)
               else r.value.len <= left && r.pos == pos + r.value.len + Astray(s, buf, pos, left)
  {
    assert ParseContents(s, buf, pos, left, Taken(s, left)).Parsed?;
    assert ParseData(s, buf, pos, Taken(s, left)).Parsed?;
    if s.body.Fields? {
      var r := ParseFields(s.body.fields, buf, pos, left);
      assert r.Parsed?;
      FieldsPointerLaw(s.body.fields, buf, pos, left);
    }
  }

  // ---- formats that stay inside --------------------------------------------------------------

  /** Operators that read from the buffer. */
  predicate Reads(f: Field) {
    f.Struct? || f.Enum? || f.ZStruct? || f.Raw?
  }

  predicate ReadsSome(fs: seq<Field>) {
    fs != [] && (Reads(fs[0]) || ReadsSome(fs[1..]))
  }

  /** A Z_nn operator stands in the field or at any depth below it. */
  predicate Drifts(f: Field)
    requires FieldParsable(f)
    decreases f, 0
  {
    match f
    case Zero(n) => n > 0
    case Struct(At(t)) => DriftsWithin(t)
    case _ => false
  }

  predicate DriftsWithin(s: CStruct)
    requires Parsable(s)
    decreases s, 0
  {
    s.body.Fields? && DriftsSome(s.body.fields)
  }

  predicate DriftsSome(fs: seq<Field>)
    requires AllParsable(fs)
    decreases fs, 0
  {
    fs != [] && (Drifts(fs[0]) || DriftsSome(fs[1..]))
  }

  /** In the struct and in every struct below it, nothing is read behind a field that drifts, and no raw data
      has a length preset (but that of one byte where nothing declares a length). */
  predicate Safe(s: CStruct)
    requires Parsable(s)
    decreases s, 0
  {
    match s.body
    case Const(_, _) => s.len <= if s.prefix.LenByte? then 0 else 1
    case Fields(fs) => SafeFields(fs)
  }

  predicate SafeFields(fs: seq<Field>)
    requires AllParsable(fs)
    decreases fs, 0
  {
    fs == [] ||
    (&& SafeField(fs[0])
     && (Drifts(fs[0]) ==> !ReadsSome(fs[1..]))
     && SafeFields(fs[1..]))
  }

  predicate SafeField(f: Field)
    requires FieldParsable(f)
    decreases f, 0
  {
    match f
    case Struct(At(t)) => Safe(t)
    case _ => true
  }

  /** Raw data owns the memory that it claims, for its present length too.  A list of fields has no length yet,
      unless it may have been parsed before. */
  predicate Built(s: CStruct, used: bool)
    requires Parsable(s)
    decreases s, 0
  {
    match s.body
    case Const(None, _) => s.len == 0
    case Const(Some(mem), maxLen) => maxLen <= |mem| && s.len <= |mem|
    case Fields(fs) => (used || s.len == 0) && AllBuilt(fs, used)
  }

  predicate AllBuilt(fs: seq<Field>, used: bool)
    requires AllParsable(fs)
    decreases fs, 0
  {
    fs == [] || (FieldBuilt(fs[0], used) && AllBuilt(fs[1..], used))
  }

  predicate FieldBuilt(f: Field, used: bool)
    requires FieldParsable(f)
    decreases f, 0
  {
    match f
    case Struct(At(t)) => Built(t, used)
    case _ => true
  }

  /** Zeros and first read: how many bytes the fields step over and read up to the first read's end. */
  function Ahead(fs: seq<Field>): nat {
    if fs == [] then 0
    else
      match fs[0]
      case Zero(n) => n + Ahead(fs[1..])
      case Enum(_, _) => 2
      case Struct(_) => 1
      case ZStruct => 1
      case Raw(data) => |data|
      case _ => Ahead(fs[1..])
  }

  /** Fields that read nothing never stray; given enough bytes they step over their zeros. */
  lemma {:induction false} NothingRead(fs: seq<Field>, buf: seq<byte>, pos: nat, len: nat)
    requires AllParsable(fs) && !ReadsSome(fs)
    ensures !ParseFields(fs, buf, pos, len).Stray? && SafeFields(fs)
    ensures len >= Ahead(fs) ==> ParseFields(fs, buf, pos, len).Parsed?
    decreases fs
  {
    if fs != [] {
      NothingRead(fs[1..], buf, if fs[0].Zero? then pos + fs[0].n else pos, len);
    }
  }

  lemma {:induction false} NoDrift(f: Field, buf: seq<byte>, pos: nat, len: nat)
    requires FieldParsable(f) && !Drifts(f)
    ensures AstrayField(f, buf, pos, len) == 0
    decreases f, 0
  {
    match f
    case Struct(At(t)) =>
      if t.body.Fields? && len > 0 {
        var n := ReadLength(buf, pos, len);
        if n.Parsed? {
          NoDrifts(t.body.fields, buf, n.pos, n.value);
        }
      }
    case _ =>
  }

  lemma {:induction false} NoDrifts(fs: seq<Field>, buf: seq<byte>, pos: nat, len: nat)
    requires AllParsable(fs) && !DriftsSome(fs)
    ensures AstrayFields(fs, buf, pos, len) == 0
    decreases fs, 0
  {
    if fs != [] {
      NoDrift(fs[0], buf, pos, len);
      var r := ParseField(fs[0], buf, pos, len);
      if r.Parsed? {
        NoDrifts(fs[1..], buf, r.pos, r.left);
      }
    }
  }

  /** A struct of a safe format, whether new or parsed before, is parsed with no access outside the bytes given. */
  lemma {:induction false} StaysInside(s: CStruct, used: bool, buf: seq<byte>, pos: nat, left: nat)
    requires Parsable(s) && Built(s, used) && Safe(s) && pos + left <= |buf|
    ensures !ParseBuffer(s, buf, pos, left).Stray?
    decreases s, 1
  {
    if left > 0 {
      if s.prefix.NoLen? {
        ContentsStayInside(s, used, buf, pos, left, Taken(s, left));
      } else {
        var len := ReadLength(buf, pos, left);
        if len.Parsed? {
          ContentsStayInside(s, used, buf, len.pos, len.left, len.value);
        }
      }
    }
  }

  lemma {:induction false} ContentsStayInside(s: CStruct, used: bool, buf: seq<byte>, pos: nat, left: nat, len: nat)
    requires Parsable(s) && Built(s, used) && Safe(s) && len <= left && pos + left <= |buf|
    requires s.body.Const? && s.len > 0 ==> len == s.len
    ensures !ParseContents(s, buf, pos, left, len).Stray?
    decreases s, 0
  {
    if len > 0 {
      if s.body.Fields? {
        FieldsStayInside(s.body.fields, used, buf, pos, len);
      }
      assert !ParseData(s, buf, pos, len).Stray?;
    }
  }

  lemma {:induction false} FieldsStayInside(fs: seq<Field>, used: bool, buf: seq<byte>, pos: nat, len: nat)
    requires AllParsable(fs) && AllBuilt(fs, used) && SafeFields(fs) && pos + len <= |buf|
    ensures !ParseFields(fs, buf, pos, len).Stray?
    decreases fs, 0
  {
    if fs != [] {
      FieldStaysInside(fs[0], used, buf, pos, len);
      var r := ParseField(fs[0], buf, pos, len);
      if r.Parsed? {
        if Drifts(fs[0]) {
          NothingRead(fs[1..], buf, r.pos, r.left);
        } else {
          NoDrift(fs[0], buf, pos, len);
          FieldPointerLaw(fs[0], buf, pos, len);
          FieldsStayInside(fs[1..], used, buf, r.pos, r.left);
        }
      }
    }
  }

  lemma {:induction false} FieldStaysInside(f: Field, used: bool, buf: seq<byte>, pos: nat, len: nat)
    requires FieldParsable(f) && FieldBuilt(f, used) && SafeField(f) && pos + len <= |buf|
    ensures !ParseField(f, buf, pos, len).Stray?
    decreases f, 0
  {
    match f
    case Struct(At(t)) => StaysInside(t, used, buf, pos, len);
    case _ =>
  }

  // ---- an input that strays for every other format -------------------------------------------

  function Zeros(n: nat): (z: seq<byte>)
    ensures |z| == n && forall k :: 0 <= k < n ==> z[k] == 0
  {
    seq(n, _ => 0)
  }

  /** The most bytes that the fields can be written with. */
  function Extent(fs: seq<Field>): nat
    requires AllParsable(fs)
    decreases fs, 0
  {
    if fs == [] then 0 else ExtentOf(fs[0]) + Extent(fs[1..])
  }

  function ExtentOf(f: Field): nat
    requires FieldParsable(f)
    decreases f, 0
  {
    match f
    case Struct(At(t)) => 3 + ExtentWithin(t)
    case Enum(_, _) => 2
    case Zero(n) => n
    case ZStruct => 1
    case Raw(data) => |data|
    case _ => 0
  }

  function ExtentWithin(s: CStruct): nat
    requires Parsable(s)
    decreases s, 0
  {
    match s.body
    case Const(block, _) =>
      if s.len == 0 then 0 else if s.prefix.LenByte? then |block.GetOr([])| + 1 else s.len
    case Fields(fs) => Extent(fs)
  }

  /** Bytes for a safe field that does not drift: structs are declared empty. */
  function Blank(f: Field): (b: seq<byte>)
    requires FieldParsable(f)
    ensures |b| <= ExtentOf(f)
  {
    match f
    case Struct(_) => [0]
    case Enum(_, _) => [0, 0]
    case ZStruct => [0]
    case Raw(data) => Zeros(|data|)
    case _ => []
  }

  /** Contents behind their length. */
  function Declared(b: seq<byte>): seq<byte> {
    PrefixBytes(LenByte, |b|) + b
  }

  /** Bytes with which the fields are parsed and drift. */
  function DriftInput(fs: seq<Field>): (b: seq<byte>)
    requires AllParsable(fs) && DriftsSome(fs) && SafeFields(fs)
    ensures 0 < |b| <= Extent(fs)
    decreases fs, 0
  {
    if Drifts(fs[0]) then
      AheadExtent(fs[1..]);
      DriftOf(fs[0]) + Zeros(Ahead(fs[1..]) + if fs[0].Zero? then fs[0].n else 0)
    else Blank(fs[0]) + DriftInput(fs[1..])
  }

  function DriftOf(f: Field): (b: seq<byte>)
    requires FieldParsable(f) && Drifts(f) && SafeField(f)
    ensures |b| + (if f.Zero? then f.n else 0) <= ExtentOf(f)
    decreases f, 0
  {
    match f
    case Struct(At(t)) => Declared(DriftWithin(t))
    case _ => []
  }

  function DriftWithin(s: CStruct): (b: seq<byte>)
    requires Parsable(s) && DriftsWithin(s) && Safe(s)
    ensures 0 < |b| <= ExtentWithin(s)
    decreases s, 0
  {
    DriftInput(s.body.fields)
  }

  lemma {:induction false} AheadExtent(fs: seq<Field>)
    requires AllParsable(fs)
    ensures Ahead(fs) <= Extent(fs) && (ReadsSome(fs) ==> Ahead(fs) > 0)
    decreases fs
  {
    if fs != [] {
      AheadExtent(fs[1..]);
    }
  }

  /** Bytes with which the parse strays: the first drifting field behind which something is read drifts, and the
      count is the smallest that lets the read begin; or raw data is declared longer than its memory. */
  function StrayInput(fs: seq<Field>): (b: seq<byte>)
    requires AllParsable(fs) && !SafeFields(fs)
    ensures 0 < |b| <= Extent(fs)
    decreases fs, 0
  {
    if !SafeField(fs[0]) then StrayOf(fs[0])
    else if Drifts(fs[0]) && ReadsSome(fs[1..]) then
      AheadExtent(fs[1..]);
      DriftOf(fs[0]) + Zeros(Ahead(fs[1..]) + if fs[0].Zero? then fs[0].n - 1 else 0)
    else Blank(fs[0]) + StrayInput(fs[1..])
  }

  function StrayOf(f: Field): (b: seq<byte>)
    requires FieldParsable(f) && !SafeField(f)
    ensures |b| <= ExtentOf(f)
    decreases f, 0
  {
    match f
    case Struct(At(t)) => Declared(StrayWithin(t))
  }

  function StrayWithin(s: CStruct): (b: seq<byte>)
    requires Parsable(s) && !Safe(s)
    ensures 0 < |b| <= ExtentWithin(s)
    decreases s, 0
  {
    match s.body
    case Const(block, _) => Zeros(if s.prefix.LenByte? then |block.GetOr([])| + 1 else s.len - 1)
    case Fields(fs) => StrayInput(fs)
  }

  // ---- the proof that it strays --------------------------------------------------------------

  /** A read that would end behind the buffer strays, however many zeros come before it. */
  lemma {:induction false} Overread(fs: seq<Field>, buf: seq<byte>, pos: nat, len: nat)
    requires AllParsable(fs) && ReadsSome(fs) && len >= Ahead(fs) && pos + Ahead(fs) > |buf|
    ensures ParseFields(fs, buf, pos, len).Stray?
    decreases fs
  {
    match fs[0]
    case Struct(At(t)) =>
      assert ReadLength(buf, pos, len).Stray?;
      assert ParseBuffer(t, buf, pos, len).Stray?;
    case Zero(n) => Overread(fs[1..], buf, pos + n, len);
    case Gap(_) => Overread(fs[1..], buf, pos, len);
    case _ =>
  }

  lemma BlankBack(f: Field, buf: seq<byte>, pos: nat, len: nat)
    requires FieldParsable(f) && FieldBuilt(f, false) && SafeField(f) && !Drifts(f)
    requires Holds(buf, pos, len, Blank(f))
    ensures var r := ParseField(f, buf, pos, len);
            r.Parsed? && r.pos == pos + |Blank(f)| && r.left == len - |Blank(f)|
  {
    match f
    case Struct(At(t)) =>
      assert buf[pos..pos + 1][0] == buf[pos] == 0;
      assert ReadLength(buf, pos, len) == Parsed(0, pos + 1, len - 1);
      assert ParseBuffer(t, buf, pos, len) == Parsed(Cleared(t), pos + 1, len - 1);
    case ZStruct =>
      assert buf[pos..pos + 1][0] == buf[pos] == 0;
    case _ =>
  }

  lemma AfterBlank(f: Field, rest: seq<byte>, buf: seq<byte>, pos: nat)
    requires FieldParsable(f) && FieldBuilt(f, false) && SafeField(f) && !Drifts(f)
    requires Holds(buf, pos, |Blank(f) + rest|, Blank(f) + rest)
    ensures var r := ParseField(f, buf, pos, |Blank(f) + rest|);
            r.Parsed? && r.pos == pos + |Blank(f)| && r.left == |rest|
    ensures Holds(buf, pos + |Blank(f)|, |rest|, rest)
  {
    HoldsSplit(buf, pos, |Blank(f) + rest|, Blank(f), rest);
    BlankBack(f, buf, pos, |Blank(f) + rest|);
  }

  lemma DeclaredBack(b: seq<byte>, buf: seq<byte>, pos: nat, len: nat)
    requires |b| < 0x1_0000 && Holds(buf, pos, len, Declared(b))
    ensures var r := ReadLength(buf, pos, len);
            && len > 0 && r.Parsed? && r.value == |b|
            && r.pos + |b| == pos + |Declared(b)| && r.left == len - |Declared(b)| + |b|
            && Holds(buf, r.pos, |b|, b)
  {
    HoldsSplit(buf, pos, len, PrefixBytes(LenByte, |b|), b);
    LengthBack(buf, pos, len, |b|);
  }

  lemma {:induction false} DriftBack(fs: seq<Field>, buf: seq<byte>, pos: nat)
    requires AllParsable(fs) && AllBuilt(fs, false) && DriftsSome(fs) && SafeFields(fs) && Extent(fs) < 0x1_0000
    requires Holds(buf, pos, |DriftInput(fs)|, DriftInput(fs))
    ensures var len := |DriftInput(fs)|;
            ParseFields(fs, buf, pos, len).Parsed? && AstrayFields(fs, buf, pos, len) > 0
    decreases fs, 1
  {
    if Drifts(fs[0]) {
      FirstDrifts(fs, buf, pos);
    } else {
      AfterBlank(fs[0], DriftInput(fs[1..]), buf, pos);
      DriftBack(fs[1..], buf, pos + |Blank(fs[0])|);
    }
  }

  lemma {:induction false} FirstDrifts(fs: seq<Field>, buf: seq<byte>, pos: nat)
    requires AllParsable(fs) && AllBuilt(fs, false) && DriftsSome(fs) && SafeFields(fs) && Extent(fs) < 0x1_0000
    requires Drifts(fs[0]) && Holds(buf, pos, |DriftInput(fs)|, DriftInput(fs))
    ensures var len := |DriftInput(fs)|;
            ParseFields(fs, buf, pos, len).Parsed? && AstrayFields(fs, buf, pos, len) > 0
    decreases fs, 0
  {
    var len := |DriftInput(fs)|;
    var n := Ahead(fs[1..]) + if fs[0].Zero? then fs[0].n else 0;
    HoldsSplit(buf, pos, len, DriftOf(fs[0]), Zeros(n));
    FieldDrifts(fs[0], buf, pos, len);
    var r := ParseField(fs[0], buf, pos, len);
    NothingRead(fs[1..], buf, r.pos, r.left);
  }

  lemma {:induction false} FieldDrifts(f: Field, buf: seq<byte>, pos: nat, len: nat)
    requires FieldParsable(f) && FieldBuilt(f, false) && Drifts(f) && SafeField(f) && ExtentOf(f) < 0x1_0000
    requires Holds(buf, pos, len, DriftOf(f)) && (f.Zero? ==> f.n <= len)
    ensures var r := ParseField(f, buf, pos, len);
            && r.Parsed? && r.left == len - |DriftOf(f)| && AstrayField(f, buf, pos, len) > 0
            && (f.Zero? ==> AstrayField(f, buf, pos, len) == f.n)
    decreases f, 0
  {
    match f
    case Zero(_) =>
    case Struct(At(t)) => DriftsInStruct(t, buf, pos, len);
  }

  lemma {:induction false} DriftsInStruct(s: CStruct, buf: seq<byte>, pos: nat, left: nat)
    requires Parsable(s) && Built(s, false) && DriftsWithin(s) && Safe(s) && ExtentWithin(s) < 0x1_0000
    requires s.prefix.LenByte? && Holds(buf, pos, left, Declared(DriftWithin(s)))
    ensures var r := ParseBuffer(s, buf, pos, left);
            r.Parsed? && r.left == left - |Declared(DriftWithin(s))| && Astray(s, buf, pos, left) > 0
    decreases s, 0
  {
    var b := DriftWithin(s);
    DeclaredBack(b, buf, pos, left);
    var len := ReadLength(buf, pos, left);
    DriftBack(s.body.fields, buf, len.pos);
    assert ParseData(s, buf, len.pos, |b|).Parsed?;
  }

  lemma {:induction false} StraysOn(fs: seq<Field>, buf: seq<byte>, pos: nat)
    requires AllParsable(fs) && AllBuilt(fs, false) && !SafeFields(fs) && Extent(fs) < 0x1_0000
    requires Holds(buf, pos, |StrayInput(fs)|, StrayInput(fs)) && |buf| == pos + |StrayInput(fs)|
    ensures ParseFields(fs, buf, pos, |StrayInput(fs)|).Stray?
    decreases fs, 1
  {
    if !SafeField(fs[0]) {
      FieldStrays(fs[0], buf, pos);
    } else if Drifts(fs[0]) && ReadsSome(fs[1..]) {
      DriftThenRead(fs, buf, pos);
    } else {
      if Drifts(fs[0]) {
        NothingRead(fs[1..], buf, pos, 0);
        assert false;
      }
      BlankThenStray(fs, buf, pos);
    }
  }

  lemma {:induction false} BlankThenStray(fs: seq<Field>, buf: seq<byte>, pos: nat)
    requires AllParsable(fs) && AllBuilt(fs, false) && !SafeFields(fs) && Extent(fs) < 0x1_0000
    requires SafeField(fs[0]) && !Drifts(fs[0])
    requires Holds(buf, pos, |StrayInput(fs)|, StrayInput(fs)) && |buf| == pos + |StrayInput(fs)|
    ensures ParseFields(fs, buf, pos, |StrayInput(fs)|).Stray?
    decreases fs, 0
  {
    AfterBlank(fs[0], StrayInput(fs[1..]), buf, pos);
    StraysOn(fs[1..], buf, pos + |Blank(fs[0])|);
  }

  lemma DriftThenRead(fs: seq<Field>, buf: seq<byte>, pos: nat)
    requires AllParsable(fs) && AllBuilt(fs, false) && !SafeFields(fs) && Extent(fs) < 0x1_0000
    requires SafeField(fs[0]) && Drifts(fs[0]) && ReadsSome(fs[1..])
    requires Holds(buf, pos, |StrayInput(fs)|, StrayInput(fs)) && |buf| == pos + |StrayInput(fs)|
    ensures ParseFields(fs, buf, pos, |StrayInput(fs)|).Stray?
  {
    var len := |StrayInput(fs)|;
    var n := Ahead(fs[1..]) + if fs[0].Zero? then fs[0].n - 1 else 0;
    AheadExtent(fs[1..]);
    HoldsSplit(buf, pos, len, DriftOf(fs[0]), Zeros(n));
    FieldDrifts(fs[0], buf, pos, len);
    FieldPointerLaw(fs[0], buf, pos, len);
    var r := ParseField(fs[0], buf, pos, len);
    Overread(fs[1..], buf, r.pos, r.left);
  }

  lemma {:induction false} FieldStrays(f: Field, buf: seq<byte>, pos: nat)
    requires FieldParsable(f) && FieldBuilt(f, false) && !SafeField(f) && ExtentOf(f) < 0x1_0000
    requires Holds(buf, pos, |StrayOf(f)|, StrayOf(f)) && |buf| == pos + |StrayOf(f)|
    ensures ParseField(f, buf, pos, |StrayOf(f)|).Stray?
    decreases f, 0
  {
    match f
    case Struct(At(t)) => StraysInStruct(t, buf, pos);
  }

  lemma {:induction false} StraysInStruct(s: CStruct, buf: seq<byte>, pos: nat)
    requires Parsable(s) && Built(s, false) && !Safe(s) && ExtentWithin(s) < 0x1_0000 && s.prefix.LenByte?
    requires var b := Declared(StrayWithin(s)); Holds(buf, pos, |b|, b) && |buf| == pos + |b|
    ensures ParseBuffer(s, buf, pos, |Declared(StrayWithin(s))|).Stray?
    decreases s, 0
  {
    var b := StrayWithin(s);
    DeclaredBack(b, buf, pos, |Declared(b)|);
    var len := ReadLength(buf, pos, |Declared(b)|);
    if s.body.Fields? {
      StraysOn(s.body.fields, buf, len.pos);
    }
    assert ParseData(s, buf, len.pos, |b|).Stray?;
  }

  /** The input for a whole struct or message body. */
  function StrayBytes(s: CStruct): seq<byte>
    requires Parsable(s) && !Safe(s)
  {
    if s.prefix.LenByte? then Declared(StrayWithin(s)) else StrayWithin(s)
  }

  lemma Strays(s: CStruct)
    requires Parsable(s) && Built(s, false) && !Safe(s) && ExtentWithin(s) < 0x1_0000
    ensures var b := StrayBytes(s); ParseBuffer(s, b, 0, |b|).Stray?
  {
    var b := StrayBytes(s);
    if s.prefix.LenByte? {
      StraysInStruct(s, b, 0);
    } else if s.body.Fields? {
      StraysOn(s.body.fields, b, 0);
      assert ParseData(s, b, 0, |b|).Stray?;
    } else {
      RawStraysExactly(s, b, 0, |b|);
    }
  }

  /** Raw data with a preset length, by input: without a length prefix it strays exactly when bytes are there but
      not as many, and with one exactly when more is declared than the memory holds. */
  lemma RawStraysExactly(s: CStruct, buf: seq<byte>, pos: nat, left: nat)
    requires Parsable(s) && Built(s, true) && s.body.Const? && s.len > 0 && pos + left <= |buf|
    ensures var r := ParseBuffer(s, buf, pos, left);
            if s.prefix.NoLen? then r.Stray? <==> 0 < left < s.len
            else
              r.Stray? <==> && left > 0 && ReadLength(buf, pos, left).Parsed?
                            && ReadLength(buf, pos, left).value > |s.body.block.value|
  {
    if left > 0 {
      if s.prefix.NoLen? {
        if left >= s.len {
          assert !ParseData(s, buf, pos, s.len).Stray?;
        }
      } else {
        var len := ReadLength(buf, pos, left);
        if len.Parsed? && len.value >= s.len {
          assert ParseData(s, buf, len.pos, len.value).Stray? <==> len.value > |s.body.block.value|;
        }
      }
    }
  }

  /** A struct whose lists of fields are new is parsed with no access outside the bytes given and its own memory,
      whatever the bytes are, if and only if it is safe. */
  lemma StaysInsideExactly(s: CStruct)
    requires Parsable(s) && Built(s, false) && ExtentWithin(s) < 0x1_0000
    ensures Safe(s) <==>
            forall buf: seq<byte>, pos: nat, left: nat | pos + left <= |buf| ::
              !ParseBuffer(s, buf, pos, left).Stray?
  {
    if Safe(s) {
      forall buf: seq<byte>, pos: nat, left: nat | pos + left <= |buf|
        ensures !ParseBuffer(s, buf, pos, left).Stray?
      {
        StaysInside(s, false, buf, pos, left);
      }
    } else {
      Strays(s);
    }
  }

  // ---- the body of DATA_B3 messages ----------------------------------------------------------

  /** The parameters of DATA_B3 where pointers have 64 bits: Z_04 for the data pointer, then 14 bytes. */
  function DataB3(data: seq<byte>): CStruct {
    CStruct(NoLen, Fields([Zero(4), Raw(data)]), 0)
  }

  lemma DataB3Fields(data: seq<byte>, buf: seq<byte>)
    requires |data| == 14 && AllParsable([Zero(4), Raw(data)])
    ensures var r := ParseFields([Zero(4), Raw(data)], buf, 0, |buf|);
            && (|buf| < 14 ==> r.Err?)
            && (14 <= |buf| < 18 ==> r.Stray?)
            && (|buf| >= 18 ==> r == Parsed([Zero(4), Raw(buf[4..18])], 18, |buf| - 14))
  {
    var fs, last := [Zero(4), Raw(data)], [Raw(data)];
    assert fs[1..] == last && last[1..] == [];
    if |buf| >= 18 {
      var f := Raw(buf[4..18]);
      assert [f] + [] == [f] && [Zero(4)] + [f] == [Zero(4), f];
      assert ParseFields([], buf, 18, |buf| - 14) == Parsed([], 18, |buf| - 14);
      assert ParseField(last[0], buf, 4, |buf|) == Parsed(f, 18, |buf| - 14);
      assert ParseFields(last, buf, 4, |buf|) == Parsed([f] + [], 18, |buf| - 14);
      assert ParseFields(fs, buf, 0, |buf|) == Parsed([Zero(4)] + [f], 18, |buf| - 14);
    } else if |buf| >= 4 {
      assert ParseField(last[0], buf, 4, |buf|) == if |buf| < 14 then Err(LenToSmall) else Stray;
    }
  }

  /** A body of 14 to 17 bytes is not refused but read behind its end; from 18 bytes on the fields are
      found behind the four bytes, although only 14 bytes count as read. */
  lemma DataB3Exactly(data: seq<byte>, buf: seq<byte>)
    requires |data| == 14 && Parsable(DataB3(data))
    ensures var r := ParseBuffer(DataB3(data), buf, 0, |buf|);
            && !Safe(DataB3(data))
            && (r.Err? <==> |buf| < 14)
            && (r.Stray? <==> 14 <= |buf| < 18)
            && (|buf| >= 18 ==> r.Parsed? && r.pos == 18 && r.value == DataB3(buf[4..18]).(len := 14))
  {
    var fs := [Zero(4), Raw(data)];
    assert fs[1..] == [Raw(data)] && fs[1..][1..] == [];
    assert ReadsSome(fs[1..]);
    DataB3Fields(data, buf);
    var r := ParseFields(fs, buf, 0, |buf|);
    assert ParseData(DataB3(data), buf, 0, |buf|).Stray? <==> r.Stray?;
  }

  /** The parameters of DATA_B3 where pointers have 32 bits: ten bytes of the object's memory, preset. */
  function DataB3Raw(mem: seq<byte>): CStruct {
    CStruct(NoLen, Const(Some(mem), 0), 10)
  }

  /** A body of one to nine bytes is read behind its end; of a longer one the first ten bytes are taken. */
  lemma DataB3RawExactly(mem: seq<byte>, buf: seq<byte>)
    requires |mem| == 10
    ensures var r := ParseBuffer(DataB3Raw(mem), buf, 0, |buf|);
            && !Safe(DataB3Raw(mem))
            && (r.Err? <==> buf == [])
            && (r.Stray? <==> 0 < |buf| < 10)
            && (|buf| >= 10 ==> r == Parsed(DataB3Raw(buf[..10]), 10, |buf| - 10))
  {
    var s := DataB3Raw(mem);
    RawStraysExactly(s, buf, 0, |buf|);
    if |buf| >= 10 {
      assert buf[0..10] == buf[..10] && buf[..10] + mem[10..] == buf[..10];
      assert ParseData(s, buf, 0, 10) == Parsed(DataB3Raw(buf[..10]), 10, 0);
    }
  }
}
