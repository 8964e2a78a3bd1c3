/** The marshaller's loops over a buffer in place: a pointer walks over the bytes while the format is
    interpreted. */
module CCStructBuffer {
  import opened Bits
  import opened Options
  import opened CCStruct
  import opened CCStructSize
  import opened CCStructParse
  import opened Memory

  const CAPI_MAX_MESSAGE_SIZE := 4096
  const CAPI_MSG_HEADER_ADDR_SIZE := 12

  lemma JoinMore(done: seq<byte>, a: Option<seq<byte>>, b: Option<seq<byte>>)
    ensures Join(a, b).Some? ==> done + Join(a, b).value == (done + a.value) + b.value
  {}

  lemma FieldsFrom(fs: seq<Field>, i: nat, done: seq<byte>)
    requires i < |fs| && AllSound(fs[i..]) && FillFields(fs[i..]).Some?
    ensures FieldSound(fs[i]) && FillField(fs[i]).Some?
    ensures AllSound(fs[i + 1..]) && FillFields(fs[i + 1..]).Some?
    ensures done + FillFields(fs[i..]).value == done + FillField(fs[i]).value + FillFields(fs[i + 1..]).value
  {
    assert fs[i..][0] == fs[i] && fs[i..][1..] == fs[i + 1..];
    JoinMore(done, FillField(fs[i]), FillFields(fs[i + 1..]));
  }

  class Cursor {
    const mem: array<byte>
    var pos: nat

    constructor (mem: array<byte>, pos: nat)
      ensures this.mem == mem && this.pos == pos
    {
      this.mem, this.pos := mem, pos;
    }

    // ---- writing -----------------------------------------------------------------------------

    method Put(bytes: seq<byte>)
      requires pos + |bytes| <= mem.Length
      modifies this, mem
      ensures pos == old(pos) + |bytes| && mem[..] == Patch(old(mem[..]), old(pos), bytes)
    {
      CopyIn(mem, pos, bytes);
      pos := pos + |bytes|;
    }

    method FillBuffer(s: CStruct)
      requires Sound(s) && CCStruct.FillBuffer(s).Some?
      requires pos + |CCStruct.FillBuffer(s).value| <= mem.Length
      modifies this, mem
      ensures pos == old(pos) + |CCStruct.FillBuffer(s).value|
      ensures mem[..] == Patch(old(mem[..]), old(pos), CCStruct.FillBuffer(s).value)
      decreases s, 2
    {
      ghost var was, at := mem[..], pos;
      match s.prefix {
        case NoLen =>
          PatchNothing(was, at);
        case MsgLen =>
          Put(Word(s.len + 2));
        case LenByte =>
          if s.len > 254 {
            Put([255]);
            Put(Word(s.len));
            PatchTwice(was, at, [255], Word(s.len));
          } else {
            Put([s.len]);
          }
      }
      FillData(s);
      PatchTwice(was, at, PrefixBytes(s.prefix, s.len), CCStruct.FillData(s).value);
    }

    method FillData(s: CStruct)
      requires Sound(s) && CCStruct.FillData(s).Some?
      requires pos + |CCStruct.FillData(s).value| <= mem.Length
      modifies this, mem
      ensures pos == old(pos) + |CCStruct.FillData(s).value|
      ensures mem[..] == Patch(old(mem[..]), old(pos), CCStruct.FillData(s).value)
      decreases s, 1
    {
      match s.body
      case Const(block, _) =>
        Put(if s.len == 0 then [] else block.value[..s.len]);
      case Fields(fs) =>
        FillAll(fs);
    }

    method FillAll(fs: seq<Field>)
      requires AllSound(fs) && FillFields(fs).Some?
      requires pos + |FillFields(fs).value| <= mem.Length
      modifies this, mem
      ensures pos == old(pos) + |FillFields(fs).value|
      ensures mem[..] == Patch(old(mem[..]), old(pos), FillFields(fs).value)
      decreases fs, 1
    {
      ghost var was, at, done: seq<byte> := mem[..], pos, [];
      PatchNothing(was, at);
      assert fs[0..] == fs;
      var i := 0;
      while i < |fs|
        invariant i <= |fs| && AllSound(fs[i..]) && FillFields(fs[i..]).Some?
        invariant done + FillFields(fs[i..]).value == FillFields(fs).value
        invariant pos == at + |done| && mem[..] == Patch(was, at, done)
      {
        ghost var b := CCStruct.FillField(fs[i]).value;
        FieldsFrom(fs, i, done);
        FillField(fs[i]);
        PatchTwice(was, at, done, b);
        done := done + b;
        i := i + 1;
      }
      assert fs[i..] == [] && done + [] == done;
    }

    method FillField(f: Field)
      requires FieldSound(f) && CCStruct.FillField(f).Some?
      requires pos + |CCStruct.FillField(f).value| <= mem.Length
      modifies this, mem
      ensures pos == old(pos) + |CCStruct.FillField(f).value|
      ensures mem[..] == Patch(old(mem[..]), old(pos), CCStruct.FillField(f).value)
      decreases f, 1
    {
      match f
      case Struct(child) => FillChild(child);
      case Text(text) => Put(text.GetOr([]));
      case Array(items) => FillItems(items);
      case Multiply(count, item) =>
        if count > 0 {
          FillRepeated(item, count);
        } else {
          PatchNothing(mem[..], pos);
        }
      case Enum(_, value) => Put(Word(value % 0x1_0000));
      case Zero(n) => Put(seq(n, _ => 0));
      case ZStruct => Put([0]);
      case Gap(_) => PatchNothing(mem[..], pos);
      case Raw(data) => Put(data);
    }

    method FillChild(child: Child)
      requires ChildSound(child) && CCStruct.FillChild(child).Some?
      requires pos + |CCStruct.FillChild(child).value| <= mem.Length
      modifies this, mem
      ensures pos == old(pos) + |CCStruct.FillChild(child).value|
      ensures mem[..] == Patch(old(mem[..]), old(pos), CCStruct.FillChild(child).value)
      decreases child, 1
    {
      match child
      case Null => Put([0]);
      case At(s) => FillBuffer(s);
    }

    method FillItems(items: seq<Child>)
      requires ItemsSound(items) && CCStruct.FillItems(items).Some?
      requires pos + |CCStruct.FillItems(items).value| <= mem.Length
      modifies this, mem
      ensures pos == old(pos) + |CCStruct.FillItems(items).value|
      ensures mem[..] == Patch(old(mem[..]), old(pos), CCStruct.FillItems(items).value)
      decreases items, 1
    {
      ghost var was, at, done: seq<byte> := mem[..], pos, [];
      PatchNothing(was, at);
      assert items[0..] == items;
      var i := 0;
      while i < |items|
        invariant i <= |items| && ItemsSound(items[i..]) && CCStruct.FillItems(items[i..]).Some?
        invariant done + CCStruct.FillItems(items[i..]).value == CCStruct.FillItems(items).value
        invariant pos == at + |done| && mem[..] == Patch(was, at, done)
      {
        ghost var b := CCStruct.FillChild(items[i]).value;
        assert items[i..][0] == items[i] && items[i..][1..] == items[i + 1..];
        JoinMore(done, CCStruct.FillChild(items[i]), CCStruct.FillItems(items[i + 1..]));
        FillChild(items[i]);
        PatchTwice(was, at, done, b);
        done := done + b;
        i := i + 1;
      }
      assert items[i..] == [] && done + [] == done;
    }

    method FillRepeated(item: Child, count: nat)
      requires count > 0 && ChildSound(item) && CCStruct.FillChild(item).Some?
      requires pos + |Repeat(CCStruct.FillChild(item), count).value| <= mem.Length
      modifies this, mem
      ensures pos == old(pos) + |Repeat(CCStruct.FillChild(item), count).value|
      ensures mem[..] == Patch(old(mem[..]), old(pos), Repeat(CCStruct.FillChild(item), count).value)
      decreases item, 2
    {
      ghost var was, at, done: seq<byte> := mem[..], pos, [];
      ghost var b := CCStruct.FillChild(item);
      PatchNothing(was, at);
      var n := count;
      while n > 0
        invariant n <= count && Repeat(b, n).Some?
        invariant done + Repeat(b, n).value == Repeat(b, count).value
        invariant pos == at + |done| && mem[..] == Patch(was, at, done)
      {
        JoinMore(done, b, Repeat(b, n - 1));
        FillChild(item);
        PatchTwice(was, at, done, b.value);
        done := done + b.value;
        n := n - 1;
      }
    }

    /** The parameters of a message: sized first, and written only if the message has room for them.
        Whatever the struct, nothing outside the message buffer is touched. */
    method PutParams(s: CStruct) returns (size: nat, sized: CStruct)
      requires mem.Length == CAPI_MAX_MESSAGE_SIZE && pos == CAPI_MSG_HEADER_ADDR_SIZE
      requires Sound(s) && Ready(s)
      requires CCStruct.FillBuffer(s).Some?
      modifies this, mem
      ensures CalcStructSize(s) == Sized(sized, size) && Sound(sized)
      ensures CCStruct.FillBuffer(sized).Some? && |CCStruct.FillBuffer(sized).value| == size
      ensures mem[..] == if CAPI_MSG_HEADER_ADDR_SIZE + size <= CAPI_MAX_MESSAGE_SIZE
                         then Patch(old(mem[..]), CAPI_MSG_HEADER_ADDR_SIZE, CCStruct.FillBuffer(sized).value)
                         else old(mem[..])
    {
      ReadySize(s);
      var r := CalcStructSize(s);
      size, sized := r.size, r.value;
      if CAPI_MSG_HEADER_ADDR_SIZE + size <= CAPI_MAX_MESSAGE_SIZE {
        FillBuffer(sized);
      }
    }

    // ---- reading -----------------------------------------------------------------------------

    method ParseBuffer(s: CStruct, left: nat) returns (r: Parsed<CStruct>)
      requires Parsable(s)
      modifies this
      ensures r == CCStructParse.ParseBuffer(s, mem[..], old(pos), left)
      ensures r.Parsed? ==> pos == r.pos
      decreases s, 2
    {
      if left == 0 {
        return Err(LenToSmall);
      }
      var len, rest := left, left;
      if s.prefix.NoLen? {
        if s.body.Const? && s.len != 0 && s.body.block.Some? {
          len := s.len;
        }
      } else {
        var l := ReadLength(left);
        match l {
          case Err(e) => return Err(e);
          case Stray => return Stray;
          case Parsed(n, _, k) => len, rest := n, k;
        }
      }
      if s.len > len {
        return Err(LenToSmall);
      }
      if len == 0 {
        return Parsed(Cleared(s), pos, rest);
      }
      if len > rest {
        return Stray;
      }
      r := ParseData(s, len);
      if r.Parsed? {
        r := r.(left := rest - len);
      }
    }

    method ReadLength(left: nat) returns (r: Parsed<nat>)
      requires left > 0
      modifies this
      ensures r == CCStructParse.ReadLength(mem[..], old(pos), left)
      ensures r.Parsed? ==> pos == r.pos
    {
      if pos >= mem.Length {
        return Stray;
      }
      var len: nat := mem[pos];
      pos := pos + 1;
      var rest := left - 1;
      if len > 254 {
        if rest < 2 {
          return Err(WrongLength);
        }
        if pos + 2 > mem.Length {
          return Stray;
        }
        len := Get16(mem[..], pos);
        pos := pos + 2;
        rest := rest - 2;
      }
      if len > rest {
        return Err(WrongLength);
      }
      return Parsed(len, pos, rest);
    }

    method ParseData(s: CStruct, len: nat) returns (r: Parsed<CStruct>)
      requires Parsable(s)
      modifies this
      ensures r == CCStructParse.ParseData(s, mem[..], old(pos), len)
      ensures r.Parsed? ==> pos == r.pos
      decreases s, 1
    {
      match s.body
      case Const(block, maxLen) =>
        if pos + len > mem.Length {
          return Stray;
        }
        r := ReadConst(s, block, maxLen, mem[pos..pos + len], pos + len);
        pos := pos + len;
      case Fields(fs) =>
        ghost var want := CCStructParse.ParseFields(fs, mem[..], pos, len);
        var gs: seq<Field>, rest: nat, i := [], len, 0;
        assert fs[0..] == fs && (want.Parsed? ==> [] + want.value == want.value);
        while i < |fs|
          invariant i <= |fs| == i + |fs[i..]| && |gs| == i && AllParsable(fs[i..]) && rest <= len
          invariant want == After(gs, CCStructParse.ParseFields(fs[i..], mem[..], pos, rest))
        {
          assert fs[i..][1..] == fs[i + 1..] && fs[i..][0] == fs[i];
          ghost var at := pos;
          var f := ParseField(fs[i], rest);
          match f {
            case Err(e) => return Err(e);
            case Stray => return Stray;
            case Parsed(g, _, l) =>
              AfterSnoc(gs, g, CCStructParse.ParseFields(fs[i + 1..], mem[..], pos, l));
              gs, rest := gs + [g], l;
          }
          i := i + 1;
        }
        assert fs[|fs|..] == [] && gs + [] == gs;
        if !s.prefix.NoLen? {
          pos := pos + rest;
        }
        return Parsed(CStruct(s.prefix, Fields(gs), len - rest), pos, 0);
    }

    method ParseField(f: Field, len: nat) returns (r: Parsed<Field>)
      requires FieldParsable(f)
      modifies this
      ensures r == CCStructParse.ParseField(f, mem[..], old(pos), len)
      ensures r.Parsed? ==> pos == r.pos
      decreases f, 1
    {
      match f
      case Struct(At(t)) =>
        var c := ParseBuffer(t, len);
        match c {
          case Err(e) => return Err(e);
          case Stray => return Stray;
          case Parsed(t', _, l) => return Parsed(Struct(At(t')), pos, l);
        }
      case Enum(kind, _) =>
        if len < 2 {
          return Err(LenToSmall);
        }
        if pos + 2 > mem.Length {
          return Stray;
        }
        var value := Get16(mem[..], pos);
        pos := pos + 2;
        return Parsed(Enum(kind, value), pos, len - 2);
      case Zero(n) =>
        if len < n {
          return Err(LenToSmall);
        }
        pos := pos + n;
        return Parsed(f, pos, len);
      case ZStruct =>
        if len < 1 {
          return Err(LenToSmall);
        }
        var l := ReadLength(len);
        match l {
          case Err(e) => return Err(e);
          case Stray => return Stray;
          case Parsed(dlen, _, rest) =>
            pos := pos + dlen;
            return Parsed(f, pos, rest - dlen);
        }
      case Gap(_) =>
        return Parsed(f, pos, len);
      case Raw(data) =>
        if len < |data| {
          return Err(LenToSmall);
        }
        if pos + |data| > mem.Length {
          return Stray;
        }
        var bytes := mem[pos..pos + |data|];
        pos := pos + |data|;
        return Parsed(Raw(bytes), pos, len - |data|);
    }
  }

  /** A parse of the fields behind those already read. */
  ghost function After(gs: seq<Field>, r: Parsed<seq<Field>>): Parsed<seq<Field>> {
    if r.Parsed? then Parsed(gs + r.value, r.pos, r.left) else r
  }

  lemma AfterSnoc(gs: seq<Field>, g: Field, r: Parsed<seq<Field>>)
    ensures r.Parsed? ==> gs + ([g] + r.value) == (gs + [g]) + r.value
  {}
}
