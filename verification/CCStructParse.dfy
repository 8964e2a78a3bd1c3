/** Reading structs back from a buffer: the operators that can be both written and read. */
module CCStructParse {
  import opened Bits
  import opened Options
  import opened CCStruct

  datatype ParseError = LenToSmall | WrongLength

  /** A failed parse, a read or copy outside the memory it may touch, or the value read with the new
      buffer position and the length still left in the caller's count. */
  datatype Parsed<T> = Err(error: ParseError) | Stray | Parsed(value: T, pos: nat, left: nat)

  /** The operators in question: two-byte enumerations, fixed data (one byte or more: a format ends with
      a zero), gaps, zeros, placeholders for structs, and pointers to structs that are there. */
  predicate Parsable(s: CStruct)
    decreases s, 0
  {
    && !s.prefix.MsgLen?
    && match s.body
       case Const(_, _) => true
       case Fields(fs) => AllParsable(fs)
  }

  predicate AllParsable(fs: seq<Field>)
    decreases fs, 0
  {
    fs == [] || (FieldParsable(fs[0]) && AllParsable(fs[1..]))
  }

  predicate FieldParsable(f: Field)
    decreases f, 0
  {
    match f
    case Struct(At(t)) => t.prefix.LenByte? && Parsable(t)
    case Enum(_, _) => true
    case Zero(_) => true
    case ZStruct => true
    case Gap(_) => true
    case Raw(data) => data != []
    case _ => false
  }

  // ---- Reset ---------------------------------------------------------------------------------

  function DefaultOf(kind: EnumKind): int {
    if kind == Reject then 1 else 0
  }

  /** The empty value that a struct of length zero stands for. */
  function Cleared(s: CStruct): CStruct
    requires Parsable(s)
    decreases s, 0
  {
    match s.body
    case Const(_, _) => CStruct(s.prefix, s.body, 0)
    case Fields(fs) => CStruct(s.prefix, Fields(ClearedFields(fs)), 0)
  }

  function ClearedFields(fs: seq<Field>): (r: seq<Field>)
    requires AllParsable(fs)
    ensures |r| == |fs|
    decreases fs, 0
  {
    if fs == [] then [] else [ClearedField(fs[0])] + ClearedFields(fs[1..])
  }

  function ClearedField(f: Field): Field
    requires FieldParsable(f)
    decreases f, 0
  {
    match f
    case Struct(At(t)) => Struct(At(Cleared(t)))
    case Enum(kind, _) => Enum(kind, DefaultOf(kind))
    case Raw(data) => Raw(seq(|data|, _ => 0))
    case _ => f
  }

  // ---- parsing -------------------------------------------------------------------------------

  function Get16(buf: seq<byte>, pos: nat): nat
    requires pos + 2 <= |buf|
  {
    buf[pos] as int + 256 * (buf[pos + 1] as int)
  }

  /** ParseBuffer: `left` is the count that the caller holds for the buffer from `pos` on. */
  function ParseBuffer(s: CStruct, buf: seq<byte>, pos: nat, left: nat): (r: Parsed<CStruct>)
    requires Parsable(s)
    ensures r.Parsed? ==> r.left <= left
    decreases s, 1
  {
    if left == 0 then Err(LenToSmall)
    else if s.prefix.NoLen? then
      ParseContents(s, buf, pos, left, if s.body.Const? && s.len != 0 && s.body.block.Some? then s.len else left)
    else
      match ReadLength(buf, pos, left)
      case Err(e) => Err(e)
      case Stray => Stray
      case Parsed(len, pos', left') => ParseContents(s, buf, pos', left', len)
  }

  /** The length byte, or the escape 255 and a word; it must not exceed what is left. */
  function ReadLength(buf: seq<byte>, pos: nat, left: nat): (r: Parsed<nat>)
    requires left > 0
    ensures r.Parsed? ==> r.value <= r.left < left && r.pos + r.left == pos + left
  {
    if pos >= |buf| then Stray
    else
      var b := buf[pos];
      if b <= 254 then if b > left - 1 then Err(WrongLength) else Parsed(b, pos + 1, left - 1)
      else if left - 1 < 2 then Err(WrongLength)
      else if pos + 3 > |buf| then Stray
      else
        var len := Get16(buf, pos + 1);
        if len > left - 3 then Err(WrongLength) else Parsed(len, pos + 3, left - 3)
  }

  function ParseContents(s: CStruct, buf: seq<byte>, pos: nat, left: nat, len: nat): (r: Parsed<CStruct>)
    requires Parsable(s)
    ensures r.Parsed? ==> r.left <= left
    decreases s, 0
  {
    if s.len > len then Err(LenToSmall)
    else if len == 0 then Parsed(Cleared(s), pos, left)
    else if len > left then Stray
    else
      match ParseData(s, buf, pos, len)
      case Err(e) => Err(e)
      case Stray => Stray
      case Parsed(t, pos', _) => Parsed(t, pos', left - len)
  }

  function ParseData(s: CStruct, buf: seq<byte>, pos: nat, len: nat): Parsed<CStruct>
    requires Parsable(s)
    decreases s, 0, 1
  {
    match s.body
    case Const(block, maxLen) =>
      if pos + len > |buf| then Stray
      else ReadConst(s, block, maxLen, buf[pos..pos + len], pos + len)
    case Fields(fs) =>
      match ParseFields(fs, buf, pos, len)
      case Err(e) => Err(e)
      case Stray => Stray
      case Parsed(r, pos', rest) =>
        Parsed(CStruct(s.prefix, Fields(r), len - rest), if s.prefix.NoLen? then pos' else pos' + rest, 0)
  }

  /** Raw data: a null pointer is made to point into the buffer, owned memory is grown and copied to. */
  function ReadConst(s: CStruct, block: Option<seq<byte>>, maxLen: nat, data: seq<byte>, pos: nat): Parsed<CStruct> {
    match block
    case None => Parsed(CStruct(s.prefix, Const(Some(data), maxLen), |data|), pos, 0)
    case Some(mem) =>
      if s.len == 0 && maxLen < |data| then
        Parsed(CStruct(s.prefix, Const(Some(data), |data|), |data|), pos, 0)
      else if |data| > |mem| then Stray
      else
        Parsed(CStruct(s.prefix, Const(Some(data + mem[|data|..]), maxLen), if s.len == 0 then |data| else s.len),
               pos, 0)
  }

  function ParseFields(fs: seq<Field>, buf: seq<byte>, pos: nat, len: nat): (r: Parsed<seq<Field>>)
    requires AllParsable(fs)
    ensures r.Parsed? ==> r.left <= len && |r.value| == |fs|
    decreases fs, 0
  {
    if fs == [] then Parsed([], pos, len)
    else
      match ParseField(fs[0], buf, pos, len)
      case Err(e) => Err(e)
      case Stray => Stray
      case Parsed(f, pos1, len1) =>
        match ParseFields(fs[1..], buf, pos1, len1)
        case Err(e) => Err(e)
        case Stray => Stray
        case Parsed(rest, pos2, len2) => Parsed([f] + rest, pos2, len2)
  }

  function ParseField(f: Field, buf: seq<byte>, pos: nat, len: nat): (r: Parsed<Field>)
    requires FieldParsable(f)
    ensures r.Parsed? ==> r.left <= len
    decreases f, 0
  {
    match f
    case Struct(At(t)) =>
      (match ParseBuffer(t, buf, pos, len)
       case Err(e) => Err(e)
       case Stray => Stray
       case Parsed(t', pos', len') => Parsed(Struct(At(t')), pos', len'))
    case Enum(kind, _) =>
      if len < 2 then Err(LenToSmall)
      else if pos + 2 > |buf| then Stray
      else Parsed(Enum(kind, Get16(buf, pos)), pos + 2, len - 2)
    case Zero(n) => if len < n then Err(LenToSmall) else Parsed(f, pos + n, len)
    case ZStruct =>
      if len < 1 then Err(LenToSmall)
      else
        (match ReadLength(buf, pos, len)
         case Err(e) => Err(e)
         case Stray => Stray
         case Parsed(dlen, pos', len') => Parsed(f, pos' + dlen, len' - dlen))
    case Gap(_) => Parsed(f, pos, len)
    case Raw(data) =>
      if len < |data| then Err(LenToSmall)
      else if pos + |data| > |buf| then Stray
      else Parsed(Raw(buf[pos..pos + |data|]), pos + |data|, len - |data|)
    case _ => assert false; Stray
  }
}
