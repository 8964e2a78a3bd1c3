/** The order of numbers is that of their values. */
module MSNOrder {
  import opened MSNList

  predicate Decimal(a: string) {
    forall i :: 0 <= i < |a| ==> '0' <= a[i] <= '9'
  }

  function Pow10(n: nat): (p: nat)
    ensures p > 0
  {
    if n == 0 then 1 else 10 * Pow10(n - 1)
  }

  /** The value of a number, most significant digit first. */
  function ValueOf(a: string): int
    requires Decimal(a)
  {
    if a == [] then 0 else (a[0] as int - '0' as int) * Pow10(|a| - 1) + ValueOf(a[1..])
  }

  lemma {:induction false} Product(x: nat, y: nat, p: nat)
    requires x <= y
    ensures x * p <= y * p
    ensures x < y ==> x * p + p <= y * p
    decreases y - x
  {
    if x < y {
      Product(x + 1, y, p);
      assert (x + 1) * p == x * p + p;
    }
  }

  lemma DigitBound(x: nat, p: nat, u: int)
    requires x < 10 && 0 <= u < p
    ensures 0 <= x * p + u < 10 * p
  {
    Product(x, 10, p);
    Product(0, x, p);
  }

  lemma {:induction false} ValueBound(a: string)
    requires Decimal(a)
    ensures 0 <= ValueOf(a) < Pow10(|a|)
  {
    if a != [] {
      ValueBound(a[1..]);
      DigitBound(a[0] as int - '0' as int, Pow10(|a| - 1), ValueOf(a[1..]));
    }
  }

  lemma FirstDigitDecides(x: nat, y: nat, p: nat, u: int, v: int)
    requires x < y && u < p && 0 <= v
    ensures x * p + u < y * p + v
  {
    Product(x, y, p);
  }

  /** Among digit strings of one length the comparison is that of the values. */
  lemma {:induction false} DigitsAreNumeric(a: string, b: string)
    requires |a| == |b| && Decimal(a) && Decimal(b)
    ensures Digits(a, b) == if ValueOf(a) < ValueOf(b) then Lower else if ValueOf(b) < ValueOf(a) then Higher else Equal
  {
    if a != [] {
      var x, y, p := a[0] as int - '0' as int, b[0] as int - '0' as int, Pow10(|a| - 1);
      var u, v := ValueOf(a[1..]), ValueOf(b[1..]);
      ValueBound(a[1..]);
      ValueBound(b[1..]);
      if x < y {
        FirstDigitDecides(x, y, p, u, v);
      } else if y < x {
        FirstDigitDecides(y, x, p, v, u);
      } else {
        DigitsAreNumeric(a[1..], b[1..]);
      }
    }
  }

  /** A range holds the numbers of its length whose values lie between those of its ends, and no others. */
  lemma RangeIsNumeric(r: Range, x: string)
    requires r.Valid() && Decimal(r.first) && Decimal(r.end) && Decimal(x)
    ensures r.Contains(x) <==> |x| == |r.first| && ValueOf(r.first) <= ValueOf(x) <= ValueOf(r.Last())
  {
    FirstToLast(r);
    if |x| == |r.first| {
      DigitsAreNumeric(r.first, x);
      DigitsAreNumeric(x, r.Last());
    }
  }

  /** So a number that is dialled matches when it begins with such a number. */
  lemma MatchIsNumeric(e: Range, number: string)
    requires e.Valid() && Decimal(e.first) && Decimal(e.end) && Decimal(number)
    ensures DDITest(e, number) == FindResult.Yes <==>
            |e.first| <= |number| &&
            ValueOf(e.first) <= ValueOf(number[..|e.first|]) <= ValueOf(e.Last())
  {
    DDITestMeans(e, number);
    if |e.first| <= |number| {
      RangeIsNumeric(e, number[..|e.first|]);
    }
  }
}
