/** CAPI structs: a format is a list of operators, and each operator stands here with its data cell.
    Sizing, writing and reading back, with the cached length `len` of every struct. */
module CCStruct {
  import opened Bits
  import opened Options

  /** What precedes a struct's contents: nothing, a message length word, or a length byte or escape. */
  datatype Prefix = NoLen | MsgLen | LenByte

  datatype EnumKind = Info | Reject | CipValue | B1Prot | B2Prot | B3Prot | Facility | SupplService

  datatype CStruct = CStruct(prefix: Prefix, body: Body, len: nat)

  /** Raw memory (null, or a block of which `maxLen` bytes are owned), or a list of fields. */
  datatype Body = Const(block: Option<seq<byte>>, maxLen: nat) | Fields(fields: seq<Field>)

  /** A pointer to another struct. */
  datatype Child = Null | At(target: CStruct)

  /** The operators with their cells.  An ARRAY without a list is one with an empty list. */
  datatype Field =
    | Struct(child: Child)
    | Text(text: Option<seq<byte>>)
    | Array(items: seq<Child>)
    | Multiply(count: nat, item: Child)
    | Enum(kind: EnumKind, value: int)
    | Zero(n: nat)
    | ZStruct
    | Gap(n: nat)
    | Raw(data: seq<byte>)

  function Word(n: nat): seq<byte> {
    [n % 256, n / 256 % 256]
  }

  // ---- writing -------------------------------------------------------------------------------

  function PrefixBytes(p: Prefix, len: nat): seq<byte> {
    match p
    case NoLen => []
    case MsgLen => Word(len + 2)
    case LenByte => if len > 254 then [255] + Word(len) else [len]
  }

  /** The bytes that FillBuffer writes.  Nothing is known of a write through the overwritten buffer
      pointer that a null MULTIPLY ends in, so that case is None. */
  function FillBuffer(s: CStruct): Option<seq<byte>>
    requires Sound(s)
    decreases s, 1
  {
    match FillData(s)
    case None => None
    case Some(b) => Some(PrefixBytes(s.prefix, s.len) + b)
  }

  function FillData(s: CStruct): Option<seq<byte>>
    requires Sound(s)
    decreases s, 0
  {
    match s.body
    case Const(block, _) => Some(if s.len == 0 then [] else block.value[..s.len])
    case Fields(fs) => FillFields(fs)
  }

  function FillFields(fs: seq<Field>): Option<seq<byte>>
    requires AllSound(fs)
    decreases fs, 0
  {
    if fs == [] then Some([])
    else Join(FillField(fs[0]), FillFields(fs[1..]))
  }

  function FillField(f: Field): Option<seq<byte>>
    requires FieldSound(f)
    decreases f, 0
  {
    match f
    case Struct(child) => FillChild(child)
    case Text(text) => Some(text.GetOr([]))
    case Array(items) => FillItems(items)
    case Multiply(count, item) =>
      if count == 0 then Some([])
      else if item.Null? then None
      else Repeat(FillChild(item), count)
    case Enum(_, value) => Some(Word(value % 0x1_0000))
    case Zero(n) => Some(seq(n, _ => 0))
    case ZStruct => Some([0])
    case Gap(_) => Some([])
    case Raw(data) => Some(data)
  }

  function FillChild(child: Child): Option<seq<byte>>
    requires ChildSound(child)
    decreases child, 0
  {
    if child.Null? then Some([0]) else FillBuffer(child.target)
  }

  function FillItems(items: seq<Child>): Option<seq<byte>>
    requires ItemsSound(items)
    decreases items, 0
  {
    if items == [] then Some([]) else Join(FillChild(items[0]), FillItems(items[1..]))
  }

  function Join(a: Option<seq<byte>>, b: Option<seq<byte>>): Option<seq<byte>> {
    if a.None? || b.None? then None else Some(a.value + b.value)
  }

  function Repeat(a: Option<seq<byte>>, n: nat): (r: Option<seq<byte>>)
    ensures n > 0 ==> (r.Some? <==> a.Some?)
    ensures r.Some? && n > 0 ==> |r.value| == n * |a.value|
  {
    if n == 0 then Some([]) else Join(a, Repeat(a, n - 1))
  }

  /** The memory of raw data covers the length that is kept for it. */
  predicate Sound(s: CStruct)
    decreases s, 0
  {
    match s.body
    case Const(block, _) => s.len == 0 || (block.Some? && s.len <= |block.value|)
    case Fields(fs) => AllSound(fs)
  }

  predicate AllSound(fs: seq<Field>)
    decreases fs, 0
  {
    fs == [] || (FieldSound(fs[0]) && AllSound(fs[1..]))
  }

  predicate FieldSound(f: Field)
    decreases f, 0
  {
    match f
    case Struct(child) => ChildSound(child)
    case Array(items) => ItemsSound(items)
    case Multiply(_, item) => ChildSound(item)
    case _ => true
  }

  predicate ItemsSound(items: seq<Child>)
    decreases items, 0
  {
    items == [] || (ChildSound(items[0]) && ItemsSound(items[1..]))
  }

  predicate ChildSound(child: Child)
    decreases child, 0
  {
    child.At? ==> Sound(child.target)
  }

  // ---- sizing --------------------------------------------------------------------------------

  function PrefixedSize(p: Prefix, len: nat): nat {
    match p
    case NoLen => len
    case MsgLen => len + 2
    case LenByte => len + if len > 254 then 3 else 1
  }

  /** ResetStructSize: forget the cached lengths, but not that of raw data. */
  function ResetStructSize(s: CStruct): CStruct
    decreases s, 0
  {
    match s.body
    case Const(_, _) => s
    case Fields(fs) => CStruct(s.prefix, Fields(ResetFields(fs)), 0)
  }

  function ResetFields(fs: seq<Field>): (r: seq<Field>)
    ensures |r| == |fs|
    decreases fs, 0
  {
    if fs == [] then [] else [ResetField(fs[0])] + ResetFields(fs[1..])
  }

  function ResetField(f: Field): Field
    decreases f, 0
  {
    match f
    case Struct(child) => Struct(ResetChild(child))
    case Array(items) => Array(ResetItems(items))
    case Multiply(count, item) => Multiply(count, ResetChild(item))
    case _ => f
  }

  function ResetChild(child: Child): Child
    decreases child, 0
  {
    if child.Null? then Null else At(ResetStructSize(child.target))
  }

  function ResetItems(items: seq<Child>): (r: seq<Child>)
    ensures |r| == |items|
    decreases items, 0
  {
    if items == [] then [] else [ResetChild(items[0])] + ResetItems(items[1..])
  }

  /** What sizing yields: the structs with their lengths filled in and the number of bytes, or nothing
      known when a pointer is read from the wrong place. */
  datatype Sized<T> = Wild | Sized(value: T, size: nat)

  function CalcStructSize(s: CStruct): Sized<CStruct>
    decreases s, 1
  {
    if s.len != 0 || s.body.Const? then Sized(s, PrefixedSize(s.prefix, s.len))
    else
      match CalcFields(s.body.fields, 0)
      case Wild => Wild
      case Sized(fs, n) => Sized(CStruct(s.prefix, Fields(fs), n), PrefixedSize(s.prefix, n))
  }

  /** The size pass does not step its data pointer over gaps; `drift` is how far it lags behind. */
  function CalcFields(fs: seq<Field>, drift: nat): Sized<seq<Field>>
    decreases fs, 0
  {
    if fs == [] then Sized([], 0)
    else
      match CalcField(fs[0], drift)
      case Wild => Wild
      case Sized(f, n) =>
        match CalcFields(fs[1..], drift + if fs[0].Gap? then fs[0].n else 0)
        case Wild => Wild
        case Sized(rest, m) => Sized([f] + rest, n + m)
  }

  /** Operators whose cell holds a pointer that the size pass reads. */
  predicate HoldsPointer(f: Field) {
    f.Struct? || f.Text? || f.Array? || f.Multiply?
  }

  function CalcField(f: Field, drift: nat): Sized<Field>
    decreases f, 0
  {
    if HoldsPointer(f) && drift > 0 then Wild
    else
      match f
      case Struct(child) =>
        (match CalcChild(child)
         case Wild => Wild
         case Sized(c, n) => Sized(Struct(c), n))
      case Text(text) => Sized(f, |text.GetOr([])|)
      case Array(items) =>
        (match CalcItems(items)
         case Wild => Wild
         case Sized(r, n) => Sized(Array(r), n))
      case Multiply(count, item) =>
        (match CalcChild(item)
         case Wild => Wild
         case Sized(c, n) => Sized(Multiply(count, c), n * count))
      case Enum(_, _) => Sized(f, 2)
      case Zero(n) => Sized(f, n)
      case ZStruct => Sized(f, 1)
      case Gap(_) => Sized(f, 0)
      case Raw(data) => Sized(f, |data|)
  }

  function CalcChild(child: Child): Sized<Child>
    decreases child, 0
  {
    if child.Null? then Sized(child, 1)
    else
      match CalcStructSize(child.target)
      case Wild => Wild
      case Sized(c, n) => Sized(At(c), n)
  }

  function CalcItems(items: seq<Child>): Sized<seq<Child>>
    decreases items, 0
  {
    if items == [] then Sized([], 0)
    else
      match CalcChild(items[0])
      case Wild => Wild
      case Sized(c, n) =>
        match CalcItems(items[1..])
        case Wild => Wild
        case Sized(rest, m) => Sized([c] + rest, n + m)
  }
}
