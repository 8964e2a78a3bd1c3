/** The size pass against the bytes written: exact, repeatable, and defined exactly when no operator that
    holds a pointer comes after a gap. */
module CCStructSize {
  import opened Bits
  import opened Options
  import opened CCStruct

  /** No pointer is read after a gap, at any depth. */
  predicate Tidy(s: CStruct)
    decreases s, 0
  {
    match s.body
    case Const(_, _) => true
    case Fields(fs) => TidyFields(fs, 0)
  }

  predicate TidyFields(fs: seq<Field>, drift: nat)
    decreases fs, 0
  {
    fs == [] ||
    (&& (HoldsPointer(fs[0]) ==> drift == 0 && TidyField(fs[0]))
     && TidyFields(fs[1..], drift + if fs[0].Gap? then fs[0].n else 0))
  }

  predicate TidyField(f: Field)
    decreases f, 0
  {
    match f
    case Struct(child) => TidyChild(child)
    case Array(items) => TidyItems(items)
    case Multiply(_, item) => TidyChild(item)
    case _ => true
  }

  predicate TidyChild(child: Child)
    decreases child, 0
  {
    child.At? ==> Tidy(child.target)
  }

  predicate TidyItems(items: seq<Child>)
    decreases items, 0
  {
    items == [] || (TidyChild(items[0]) && TidyItems(items[1..]))
  }

  /** Every cached length, of the struct and of all structs below it, is that of the bytes written. */
  predicate Exact(s: CStruct)
    requires Sound(s)
    decreases s, 0
  {
    && (FillData(s).Some? ==> s.len == |FillData(s).value|)
    && (s.body.Fields? ==> ExactFields(s.body.fields))
  }

  predicate ExactFields(fs: seq<Field>)
    requires AllSound(fs)
    decreases fs, 0
  {
    fs == [] || (ExactField(fs[0]) && ExactFields(fs[1..]))
  }

  predicate ExactField(f: Field)
    requires FieldSound(f)
    decreases f, 0
  {
    match f
    case Struct(child) => ExactChild(child)
    case Array(items) => ExactItems(items)
    case Multiply(_, item) => ExactChild(item)
    case _ => true
  }

  predicate ExactChild(child: Child)
    requires ChildSound(child)
    decreases child, 0
  {
    child.At? ==> Exact(child.target)
  }

  predicate ExactItems(items: seq<Child>)
    requires ItemsSound(items)
    decreases items, 0
  {
    items == [] || (ExactChild(items[0]) && ExactItems(items[1..]))
  }

  predicate Fits(b: Option<seq<byte>>, n: nat) {
    b.Some? ==> |b.value| == n
  }

  // ---- the pass, struct by struct ------------------------------------------------------------

  /** After ResetStructSize, CalcStructSize is defined exactly on tidy structs.  It then returns the
      number of bytes that FillBuffer writes, makes every cached length exact, changes nothing but
      cached lengths, and returns the same again when it is called again. */
  lemma {:induction false} SizePass(s: CStruct)
    requires Sound(s)
    ensures var r := CalcStructSize(ResetStructSize(s));
            && (r.Sized? <==> Tidy(s))
            && (r.Sized? ==>
                  && Sound(r.value) && Exact(r.value) && Fits(FillBuffer(r.value), r.size)
                  && (FillBuffer(r.value).Some? <==> FillBuffer(s).Some?)
                  && ResetStructSize(r.value) == ResetStructSize(s)
                  && CalcStructSize(r.value) == r)
    decreases s, 1
  {
    match s.body
    case Const(_, _) =>
    case Fields(fs) =>
      SizeFields(fs, 0);
      var r := CalcFields(ResetFields(fs), 0);
      if r.Sized? {
        var t := CStruct(s.prefix, Fields(r.value), r.size);
        assert CalcStructSize(ResetStructSize(s)).value == t;
      }
  }

  lemma {:induction false} SizeFields(fs: seq<Field>, drift: nat)
    requires AllSound(fs)
    ensures var r := CalcFields(ResetFields(fs), drift);
            && (r.Sized? <==> TidyFields(fs, drift))
            && (r.Sized? ==>
                  && AllSound(r.value) && ExactFields(r.value) && Fits(FillFields(r.value), r.size)
                  && (FillFields(r.value).Some? <==> FillFields(fs).Some?)
                  && ResetFields(r.value) == ResetFields(fs)
                  && CalcFields(r.value, drift) == r)
    decreases fs, 0
  {
    if fs != [] {
      var f, rest := fs[0], fs[1..];
      var drift' := drift + if f.Gap? then f.n else 0;
      SizeField(f, drift);
      SizeFields(rest, drift');
      ResetFirst(fs, drift);
      var r1, r2 := CalcField(ResetField(f), drift), CalcFields(ResetFields(rest), drift');
      if r1.Sized? && r2.Sized? {
        SizedCons(r1.value, r2.value, drift, r1.size, r2.size);
      }
    }
  }

  lemma ResetFirst(fs: seq<Field>, drift: nat)
    requires fs != []
    ensures ResetFields(fs) == [ResetField(fs[0])] + ResetFields(fs[1..])
    ensures var r := CalcFields(ResetFields(fs), drift);
            var r1 := CalcField(ResetField(fs[0]), drift);
            var r2 := CalcFields(ResetFields(fs[1..]), drift + if fs[0].Gap? then fs[0].n else 0);
            r == if r1.Sized? && r2.Sized? then Sized([r1.value] + r2.value, r1.size + r2.size) else Wild
  {
    var rf := ResetFields(fs);
    assert rf[0] == ResetField(fs[0]) && rf[1..] == ResetFields(fs[1..]);
  }

  lemma SizedCons(f: Field, rest: seq<Field>, drift: nat, n: nat, m: nat)
    requires FieldSound(f) && AllSound(rest) && ExactField(f) && ExactFields(rest)
    requires Fits(FillField(f), n) && Fits(FillFields(rest), m)
    requires CalcField(f, drift) == Sized(f, n)
    requires CalcFields(rest, drift + if f.Gap? then f.n else 0) == Sized(rest, m)
    ensures var t := [f] + rest;
            && AllSound(t) && ExactFields(t) && Fits(FillFields(t), n + m)
            && (FillFields(t).Some? <==> FillField(f).Some? && FillFields(rest).Some?)
            && ResetFields(t) == [ResetField(f)] + ResetFields(rest)
            && CalcFields(t, drift) == Sized(t, n + m)
  {
    var t := [f] + rest;
    assert t[0] == f && t[1..] == rest;
  }

  lemma {:induction false} SizeField(f: Field, drift: nat)
    requires FieldSound(f)
    ensures var r := CalcField(ResetField(f), drift);
            && (r.Sized? <==> (HoldsPointer(f) ==> drift == 0 && TidyField(f)))
            && (r.Sized? ==>
                  && FieldSound(r.value) && ExactField(r.value) && Fits(FillField(r.value), r.size)
                  && (FillField(r.value).Some? <==> FillField(f).Some?)
                  && ResetField(r.value) == ResetField(f)
                  && (r.value.Gap? <==> f.Gap?) && (f.Gap? ==> r.value.n == f.n)
                  && CalcField(r.value, drift) == r)
    decreases f, 0
  {
    match f
    case Struct(child) => SizeChild(child);
    case Array(items) => SizeItems(items);
    case Multiply(_, item) => SizeChild(item);
    case _ =>
  }

  lemma {:induction false} SizeChild(child: Child)
    requires ChildSound(child)
    ensures var r := CalcChild(ResetChild(child));
            && (r.Sized? <==> TidyChild(child))
            && (r.Sized? ==>
                  && ChildSound(r.value) && ExactChild(r.value) && Fits(FillChild(r.value), r.size)
                  && (FillChild(r.value).Some? <==> FillChild(child).Some?)
                  && ResetChild(r.value) == ResetChild(child)
                  && CalcChild(r.value) == r)
    decreases child, 0
  {
    if child.At? {
      SizePass(child.target);
    }
  }

  lemma {:induction false} SizeItems(items: seq<Child>)
    requires ItemsSound(items)
    ensures var r := CalcItems(ResetItems(items));
            && (r.Sized? <==> TidyItems(items))
            && (r.Sized? ==>
                  && ItemsSound(r.value) && ExactItems(r.value) && Fits(FillItems(r.value), r.size)
                  && (FillItems(r.value).Some? <==> FillItems(items).Some?)
                  && ResetItems(r.value) == ResetItems(items)
                  && CalcItems(r.value) == r)
    decreases items, 0
  {
    if items != [] {
      SizeChild(items[0]);
      SizeItems(items[1..]);
      var ri := ResetItems(items);
      assert ri[0] == ResetChild(items[0]) && ri[1..] == ResetItems(items[1..]);
      var r1, r2 := CalcChild(ri[0]), CalcItems(ri[1..]);
      if r1.Sized? && r2.Sized? {
        var t := [r1.value] + r2.value;
        assert t[0] == r1.value && t[1..] == r2.value;
        assert CalcItems(ri) == Sized(t, r1.size + r2.size);
      }
    }
  }

  // ---- structs with lengths cached -----------------------------------------------------------

  /** A cached length, at any depth, is exact; where none is cached, no pointer follows a gap. */
  predicate Ready(s: CStruct)
    requires Sound(s)
    decreases s, 0
  {
    if s.len != 0 || s.body.Const? then Exact(s) else ReadyFields(s.body.fields, 0)
  }

  predicate ReadyFields(fs: seq<Field>, drift: nat)
    requires AllSound(fs)
    decreases fs, 0
  {
    fs == [] ||
    (&& (HoldsPointer(fs[0]) ==> drift == 0 && ReadyField(fs[0]))
     && ReadyFields(fs[1..], drift + if fs[0].Gap? then fs[0].n else 0))
  }

  predicate ReadyField(f: Field)
    requires FieldSound(f)
    decreases f, 0
  {
    match f
    case Struct(child) => ReadyChild(child)
    case Array(items) => ReadyItems(items)
    case Multiply(_, item) => ReadyChild(item)
    case _ => true
  }

  predicate ReadyChild(child: Child)
    requires ChildSound(child)
    decreases child, 0
  {
    child.At? ==> Ready(child.target)
  }

  predicate ReadyItems(items: seq<Child>)
    requires ItemsSound(items)
    decreases items, 0
  {
    items == [] || (ReadyChild(items[0]) && ReadyItems(items[1..]))
  }

  /** Sizing such a struct returns the number of bytes that FillBuffer will write, lengths cached before
      included. */
  lemma {:induction false} ReadySize(s: CStruct)
    requires Sound(s) && Ready(s)
    ensures var r := CalcStructSize(s);
            && r.Sized? && Sound(r.value) && Exact(r.value) && Fits(FillBuffer(r.value), r.size)
            && (FillBuffer(r.value).Some? <==> FillBuffer(s).Some?)
    decreases s, 1
  {
    if s.len == 0 && s.body.Fields? {
      ReadySizeFields(s.body.fields, 0);
    }
  }

  lemma {:induction false} ReadySizeFields(fs: seq<Field>, drift: nat)
    requires AllSound(fs) && ReadyFields(fs, drift)
    ensures var r := CalcFields(fs, drift);
            && r.Sized? && AllSound(r.value) && ExactFields(r.value) && Fits(FillFields(r.value), r.size)
            && (FillFields(r.value).Some? <==> FillFields(fs).Some?)
    decreases fs, 0
  {
    if fs != [] {
      var drift' := drift + if fs[0].Gap? then fs[0].n else 0;
      ReadySizeField(fs[0], drift);
      ReadySizeFields(fs[1..], drift');
      FilledCons(CalcField(fs[0], drift).value, CalcFields(fs[1..], drift').value,
                 CalcField(fs[0], drift).size, CalcFields(fs[1..], drift').size);
    }
  }

  lemma FilledCons(f: Field, rest: seq<Field>, n: nat, m: nat)
    requires FieldSound(f) && AllSound(rest) && ExactField(f) && ExactFields(rest)
    requires Fits(FillField(f), n) && Fits(FillFields(rest), m)
    ensures var t := [f] + rest;
            && AllSound(t) && ExactFields(t) && Fits(FillFields(t), n + m)
            && (FillFields(t).Some? <==> FillField(f).Some? && FillFields(rest).Some?)
  {
    var t := [f] + rest;
    assert t[0] == f && t[1..] == rest;
  }

  lemma {:induction false} ReadySizeField(f: Field, drift: nat)
    requires FieldSound(f) && (HoldsPointer(f) ==> drift == 0 && ReadyField(f))
    ensures var r := CalcField(f, drift);
            && r.Sized? && FieldSound(r.value) && ExactField(r.value) && Fits(FillField(r.value), r.size)
            && (FillField(r.value).Some? <==> FillField(f).Some?)
    decreases f, 0
  {
    match f
    case Struct(child) => ReadySizeChild(child);
    case Array(items) => ReadySizeItems(items);
    case Multiply(_, item) => ReadySizeChild(item);
    case _ =>
  }

  lemma {:induction false} ReadySizeChild(child: Child)
    requires ChildSound(child) && ReadyChild(child)
    ensures var r := CalcChild(child);
            && r.Sized? && ChildSound(r.value) && ExactChild(r.value) && Fits(FillChild(r.value), r.size)
            && (FillChild(r.value).Some? <==> FillChild(child).Some?)
    decreases child, 0
  {
    if child.At? {
      ReadySize(child.target);
    }
  }

  lemma {:induction false} ReadySizeItems(items: seq<Child>)
    requires ItemsSound(items) && ReadyItems(items)
    ensures var r := CalcItems(items);
            && r.Sized? && ItemsSound(r.value) && ExactItems(r.value) && Fits(FillItems(r.value), r.size)
            && (FillItems(r.value).Some? <==> FillItems(items).Some?)
    decreases items, 0
  {
    if items != [] {
      ReadySizeChild(items[0]);
      ReadySizeItems(items[1..]);
      var c, rest := CalcChild(items[0]).value, CalcItems(items[1..]).value;
      assert ([c] + rest)[0] == c && ([c] + rest)[1..] == rest;
    }
  }

  /** Any tidy struct is ready once it is reset. */
  lemma {:induction false} ResetIsReady(s: CStruct)
    requires Sound(s)
    ensures Sound(ResetStructSize(s)) && (Tidy(s) ==> Ready(ResetStructSize(s)))
    decreases s, 0
  {
    match s.body
    case Const(_, _) =>
    case Fields(fs) => ResetFieldsAreReady(fs, 0);
  }

  lemma {:induction false} ResetFieldsAreReady(fs: seq<Field>, drift: nat)
    requires AllSound(fs)
    ensures AllSound(ResetFields(fs)) && (TidyFields(fs, drift) ==> ReadyFields(ResetFields(fs), drift))
    decreases fs, 0
  {
    if fs != [] {
      ResetFieldIsReady(fs[0]);
      ResetFieldsAreReady(fs[1..], drift + if fs[0].Gap? then fs[0].n else 0);
      var rf := ResetFields(fs);
      assert rf[0] == ResetField(fs[0]) && rf[1..] == ResetFields(fs[1..]);
    }
  }

  lemma {:induction false} ResetFieldIsReady(f: Field)
    requires FieldSound(f)
    ensures FieldSound(ResetField(f)) && (TidyField(f) ==> ReadyField(ResetField(f)))
    ensures HoldsPointer(ResetField(f)) <==> HoldsPointer(f)
    decreases f, 0
  {
    match f
    case Struct(child) => ResetChildIsReady(child);
    case Array(items) => ResetItemsAreReady(items);
    case Multiply(_, item) => ResetChildIsReady(item);
    case _ =>
  }

  lemma {:induction false} ResetChildIsReady(child: Child)
    requires ChildSound(child)
    ensures ChildSound(ResetChild(child)) && (TidyChild(child) ==> ReadyChild(ResetChild(child)))
    decreases child, 0
  {
    if child.At? {
      ResetIsReady(child.target);
    }
  }

  lemma {:induction false} ResetItemsAreReady(items: seq<Child>)
    requires ItemsSound(items)
    ensures ItemsSound(ResetItems(items)) && (TidyItems(items) ==> ReadyItems(ResetItems(items)))
    decreases items, 0
  {
    if items != [] {
      ResetChildIsReady(items[0]);
      ResetItemsAreReady(items[1..]);
      var ri := ResetItems(items);
      assert ri[0] == ResetChild(items[0]) && ri[1..] == ResetItems(items[1..]);
    }
  }
}
