/** CCntrlMSNList: ranges of numbers for each controller, searched with early cancellation. */
module MSNList {
  import opened Options

  datatype Comp = Lower | Equal | Higher {
    function Flip(): Comp {
      match this
      case Lower => Higher
      case Equal => Equal
      case Higher => Lower
    }
  }

  /** s_strncmp over the length of the first string. */
  function Digits(a: string, b: string): Comp
    requires |a| <= |b|
  {
    if a == [] then Equal
    else if a[0] < b[0] then Lower
    else if b[0] < a[0] then Higher
    else Digits(a[1..], b[1..])
  }

  function NumComp(a: string, b: string): Comp {
    if b == [] then Higher
    else if |a| < |b| then Lower
    else if |a| > |b| then Higher
    else Digits(a, b)
  }

  function DDIComp(a: string, b: string): Comp {
    if |a| > |b| then Higher else Digits(a, b)
  }

  /** One number, or a range of numbers when the end is not empty. */
  datatype Range = Range(first: string, end: string) {
    function Last(): string {
      if end == [] then first else end
    }

    predicate Valid() {
      first != [] && (end == [] || (|first| == |end| && NumComp(first, end) == Lower))
    }

    predicate Contains(x: string) {
      NumComp(first, x) != Higher && NumComp(x, Last()) != Higher
    }
  }

  ghost predicate Overlap(r: Range, s: Range) {
    exists x :: r.Contains(x) && s.Contains(x)
  }

  datatype FindResult = Yes | No | Cancel | Error

  /** FindFwd: the first answer other than No, and where. */
  function FindFwd(list: seq<Range>, test: Range -> FindResult): (r: (FindResult, nat))
    ensures r.1 <= |list| && (r.0 == No <==> r.1 == |list|)
    ensures forall i :: 0 <= i < r.1 ==> test(list[i]) == No
    ensures r.1 < |list| ==> r.0 == test(list[r.1])
  {
    if list == [] then (No, 0)
    else if test(list[0]) != No then (test(list[0]), 0)
    else
      var (result, k) := FindFwd(list[1..], test);
      (result, k + 1)
  }

  function RangeTest(e: Range, ref: Range): FindResult {
    match NumComp(e.first, ref.first)
    case Equal => Error
    case Higher => if NumComp(e.first, ref.end) != Higher then Error else Cancel
    case Lower => if e.end != [] && NumComp(e.end, ref.first) != Lower then Error else No
  }

  function DDITest(e: Range, number: string): FindResult {
    match DDIComp(e.first, number)
    case Higher => Cancel
    case Equal => Yes
    case Lower => if e.end != [] && DDIComp(e.end, number) != Lower then Yes else No
  }

  datatype Outcome = Okay | InvalidValue | MSNOverlap | MSNEqual | RejectCall | DDICall

  function Alloc(a: string, b: string): Option<Range> {
    if b == [] then Some(Range(a, []))
    else if |a| != |b| || NumComp(a, b) != Lower then None
    else Some(Range(a, b))
  }

  function AddTo(list: seq<Range>, a: string, b: string): (Outcome, seq<Range>) {
    match Alloc(a, b)
    case None => (InvalidValue, list)
    case Some(r) =>
      var (result, k) := FindFwd(list, e => RangeTest(e, r));
      match result
      case No => (Okay, list + [r])
      case Cancel => (Okay, list[..k] + [r] + list[k..])
      case Error => (MSNOverlap, list)
      case Yes => (MSNEqual, list)
  }

  // ---- the order of numbers ------------------------------------------------------------------

  lemma {:induction false} DigitsOrder(a: string, b: string)
    requires |a| == |b|
    ensures Digits(b, a) == Digits(a, b).Flip()
    ensures Digits(a, b) == Equal <==> a == b
  {
    if a != [] {
      DigitsOrder(a[1..], b[1..]);
      assert a == [a[0]] + a[1..] && b == [b[0]] + b[1..];
    }
  }

  lemma {:induction false} DigitsTransitive(a: string, b: string, c: string)
    requires |a| == |b| == |c|
    requires Digits(a, b) != Higher && Digits(b, c) != Higher
    ensures Digits(a, c) == if Digits(a, b) == Digits(b, c) == Equal then Equal else Lower
  {
    if a != [] && a[0] == b[0] == c[0] {
      DigitsTransitive(a[1..], b[1..], c[1..]);
    }
  }

  lemma {:induction false} DigitsOfPrefix(a: string, b: string)
    requires |a| <= |b|
    ensures Digits(a, b) == Digits(a, b[..|a|])
  {
    if a != [] {
      DigitsOfPrefix(a[1..], b[1..]);
      assert b[..|a|][1..] == b[1..][..|a| - 1];
    }
  }

  lemma Order(a: string, b: string)
    requires a != [] && b != []
    ensures NumComp(b, a) == NumComp(a, b).Flip()
    ensures NumComp(a, b) == Equal <==> a == b
  {
    if |a| == |b| {
      DigitsOrder(a, b);
    }
  }

  lemma Transitive(a: string, b: string, c: string)
    requires a != [] && NumComp(a, b) != Higher && NumComp(b, c) != Higher
    ensures NumComp(a, c) == if NumComp(a, b) == NumComp(b, c) == Equal then Equal else Lower
  {
    if |a| == |b| == |c| {
      DigitsTransitive(a, b, c);
    }
  }

  lemma FirstToLast(r: Range)
    requires r.Valid()
    ensures r.Last() != [] && |r.Last()| == |r.first| && NumComp(r.first, r.Last()) != Higher
    ensures r.Contains(r.first)
  {
    Order(r.first, r.first);
  }

  /** Two ranges share a number unless one ends before the other begins. */
  lemma OverlapExactly(r: Range, s: Range)
    requires r.Valid() && s.Valid()
    ensures Overlap(r, s) <==> NumComp(r.Last(), s.first) != Lower && NumComp(s.Last(), r.first) != Lower
    ensures !(NumComp(r.Last(), s.first) == Lower && NumComp(s.Last(), r.first) == Lower)
  {
    FirstToLast(r);
    FirstToLast(s);
    Order(r.Last(), s.first);
    Order(s.Last(), r.first);
    Order(r.first, s.first);
    if NumComp(r.Last(), s.first) == Lower {
      NoneShared(r, s);
    } else if NumComp(s.Last(), r.first) == Lower {
      NoneShared(s, r);
    } else if NumComp(r.first, s.first) == Higher {
      assert s.Contains(r.first);
    } else {
      assert r.Contains(s.first);
    }
  }

  lemma NoneShared(r: Range, s: Range)
    requires r.Valid() && s.Valid() && NumComp(r.Last(), s.first) == Lower
    ensures !Overlap(r, s) && !Overlap(s, r)
    ensures NumComp(s.Last(), r.first) == Higher
  {
    FirstToLast(r);
    FirstToLast(s);
    Transitive(r.first, r.Last(), s.first);
    Transitive(r.first, s.first, s.Last());
    Order(r.first, s.Last());
    forall x | r.Contains(x)
      ensures !s.Contains(x)
    {
      Transitive(x, r.Last(), s.first);
      Order(x, s.first);
    }
  }

  // ---- AddMSN --------------------------------------------------------------------------------

  /** Valid ranges in ascending order, each ending before the next begins. */
  ghost predicate Ascending(list: seq<Range>) {
    && (forall i :: 0 <= i < |list| ==> list[i].Valid())
    && (forall i, j :: 0 <= i < j < |list| ==> NumComp(list[i].Last(), list[j].first) == Lower)
  }

  lemma RangeTestMeans(e: Range, ref: Range)
    requires e.Valid() && ref.Valid()
    ensures RangeTest(e, ref) == No <==> NumComp(e.Last(), ref.first) == Lower
    ensures RangeTest(e, ref) == Cancel <==> NumComp(ref.Last(), e.first) == Lower
    ensures RangeTest(e, ref) == Error <==> Overlap(e, ref)
    ensures RangeTest(e, ref) != Yes
  {
    FirstToLast(e);
    FirstToLast(ref);
    OverlapExactly(e, ref);
    Order(e.first, ref.first);
    Order(ref.Last(), e.first);
    Order(e.Last(), ref.first);
    if NumComp(e.first, ref.first) == Lower {
      Transitive(e.first, ref.first, ref.Last());
      Order(e.first, ref.Last());
    } else if NumComp(e.first, ref.first) == Higher {
      Transitive(ref.first, e.first, e.Last());
      Order(e.Last(), ref.first);
    }
  }

  lemma AllocExactly(a: string, b: string)
    requires a != []
    ensures Alloc(a, b).Some? <==> Range(a, b).Valid()
    ensures Alloc(a, b).Some? ==> Alloc(a, b).value == Range(a, b)
  {
  }

  /** Behind the place where the scan stops everything is higher. */
  lemma RestIsHigher(list: seq<Range>, r: Range, k: nat, j: nat)
    requires Ascending(list) && r.Valid() && k <= j < |list| && RangeTest(list[k], r) == Cancel
    ensures NumComp(r.Last(), list[j].first) == Lower
  {
    RangeTestMeans(list[k], r);
    if k < j {
      FirstToLast(list[k]);
      FirstToLast(r);
      Transitive(r.Last(), list[k].first, list[k].Last());
      Transitive(r.Last(), list[k].Last(), list[j].first);
    }
  }

  lemma AscendingInsert(list: seq<Range>, r: Range, k: nat)
    requires Ascending(list) && r.Valid() && k <= |list|
    requires forall i :: 0 <= i < k ==> NumComp(list[i].Last(), r.first) == Lower
    requires forall i :: k <= i < |list| ==> NumComp(r.Last(), list[i].first) == Lower
    ensures Ascending(list[..k] + [r] + list[k..])
  {
  }

  /** A range is accepted exactly when it is valid and shares no number with any range of the list, although
      the scan stops at the first higher one; the list stays ascending and gains just that range. */
  lemma AddExactly(list: seq<Range>, a: string, b: string)
    requires Ascending(list) && a != []
    ensures var (outcome, after) := AddTo(list, a, b);
            && Ascending(after)
            && (outcome == InvalidValue <==> !Range(a, b).Valid())
            && (outcome == MSNOverlap <==>
                  Range(a, b).Valid() && exists i :: 0 <= i < |list| && Overlap(list[i], Range(a, b)))
            && outcome in {Okay, InvalidValue, MSNOverlap}
            && (outcome != Okay ==> after == list)
            && (outcome == Okay ==> exists k :: 0 <= k <= |list| && after == list[..k] + [Range(a, b)] + list[k..])
  {
    AllocExactly(a, b);
    if Alloc(a, b).Some? {
      AddValid(list, Range(a, b));
    }
  }

  /** The range fits in at a place of the list. */
  ghost predicate FitsAt(list: seq<Range>, r: Range, k: nat)
    requires k <= |list|
  {
    && (forall i :: 0 <= i < k ==> NumComp(list[i].Last(), r.first) == Lower && !Overlap(list[i], r))
    && (forall i :: k <= i < |list| ==> NumComp(r.Last(), list[i].first) == Lower && !Overlap(list[i], r))
  }

  lemma ScanFindsPlace(list: seq<Range>, r: Range, k: nat)
    requires Ascending(list) && r.Valid() && k <= |list| && forall i :: 0 <= i < k ==> RangeTest(list[i], r) == No
    requires k < |list| ==> RangeTest(list[k], r) == Cancel
    ensures FitsAt(list, r, k)
  {
    forall i | 0 <= i < k
      ensures NumComp(list[i].Last(), r.first) == Lower && !Overlap(list[i], r)
    {
      RangeTestMeans(list[i], r);
    }
    forall i | k <= i < |list|
      ensures NumComp(r.Last(), list[i].first) == Lower && !Overlap(list[i], r)
    {
      RestIsHigher(list, r, k, i);
      NoneShared(r, list[i]);
    }
  }

  lemma PlaceIsFree(list: seq<Range>, r: Range, k: nat)
    requires Ascending(list) && r.Valid() && k <= |list| && FitsAt(list, r, k)
    ensures Ascending(list[..k] + [r] + list[k..]) && forall i :: 0 <= i < |list| ==> !Overlap(list[i], r)
  {
    AscendingInsert(list, r, k);
  }

  lemma AddValid(list: seq<Range>, r: Range)
    requires Ascending(list) && r.Valid()
    ensures var (result, k) := FindFwd(list, e => RangeTest(e, r));
            && (result == Error <==> exists i :: 0 <= i < |list| && Overlap(list[i], r))
            && (result == No || result == Cancel ==> Ascending(list[..k] + [r] + list[k..]))
            && (result == No ==> list + [r] == list[..k] + [r] + list[k..])
            && result != Yes
  {
    var (result, k) := FindFwd(list, e => RangeTest(e, r));
    if k == |list| {
      ScanFindsPlace(list, r, k);
      PlaceIsFree(list, r, k);
      assert list[..k] == list && list[k..] == [];
    } else {
      RangeTestMeans(list[k], r);
      if result == Cancel {
        ScanFindsPlace(list, r, k);
        PlaceIsFree(list, r, k);
      } else {
        assert Overlap(list[k], r);
      }
    }
  }

  // ---- direct dialling in --------------------------------------------------------------------

  /** The digits dialled so far reach as far as the range's numbers, and begin with one of them. */
  predicate Matches(e: Range, number: string) {
    |e.first| <= |number| && e.Contains(number[..|e.first|])
  }

  function Scan(list: seq<Range>, number: string): (FindResult, nat) {
    FindFwd(list, e => DDITest(e, number))
  }

  lemma DDITestMeans(e: Range, number: string)
    requires e.Valid()
    ensures DDITest(e, number) == Yes <==> Matches(e, number)
    ensures DDITest(e, number) == Cancel <==>
              |e.first| > |number| || NumComp(e.first, number[..|e.first|]) == Higher
    ensures DDITest(e, number) != Error
  {
    FirstToLast(e);
    if |e.first| <= |number| {
      var p := number[..|e.first|];
      DigitsOfPrefix(e.first, number);
      DigitsOfPrefix(e.Last(), number);
      Order(e.first, p);
      Order(e.Last(), p);
    }
  }

  /** The scan finds an entry for the number exactly when one matches that has no entry before it which is
      higher than the number's first digits. */
  lemma ScanExactly(list: seq<Range>, number: string)
    requires Ascending(list)
    ensures Scan(list, number).0 == Yes <==>
            exists i :: 0 <= i < |list| && Matches(list[i], number)
                        && forall j :: 0 <= j < i ==> DDITest(list[j], number) != Cancel
  {
    forall i | 0 <= i < |list|
      ensures DDITest(list[i], number) == Yes <==> Matches(list[i], number)
    {
      DDITestMeans(list[i], number);
    }
  }

  /** When all entries have one length the scan agrees with an exhaustive search. */
  lemma ScanIsExhaustive(list: seq<Range>, number: string, length: nat)
    requires Ascending(list) && forall i :: 0 <= i < |list| ==> |list[i].first| == length
    ensures Scan(list, number).0 == Yes <==> exists i :: 0 <= i < |list| && Matches(list[i], number)
  {
    ScanExactly(list, number);
    forall j, i | 0 <= j < i < |list| && DDITest(list[j], number) == Cancel
      ensures !Matches(list[i], number)
    {
      DDITestMeans(list[j], number);
      if length <= |number| {
        var p := number[..length];
        FirstToLast(list[j]);
        Order(p, list[j].first);
        Transitive(p, list[j].first, list[j].Last());
        Transitive(p, list[j].Last(), list[i].first);
        Order(p, list[i].first);
      }
    }
    if i :| 0 <= i < |list| && Matches(list[i], number) {
      assert forall j :: 0 <= j < i ==> DDITest(list[j], number) != Cancel;
    }
  }

  lemma {:induction false} DigitsOfPrefixes(a: string, b: string, k: nat)
    requires |a| == |b| && k <= |a| && Digits(a, b) != Higher
    ensures Digits(a[..k], b[..k]) != Higher
  {
    if k > 0 && a[0] == b[0] {
      DigitsOfPrefixes(a[1..], b[1..], k - 1);
      assert a[..k][1..] == a[1..][..k - 1] && b[..k][1..] == b[1..][..k - 1];
    }
  }

  /** No entry begins, by its first digits, higher than one behind it. */
  ghost predicate InDialOrder(list: seq<Range>) {
    forall i, j :: 0 <= i < j < |list| ==> DDIComp(list[i].first, list[j].first) != Higher
  }

  /** No number can match two entries. */
  ghost predicate Separate(list: seq<Range>) {
    forall i, j :: 0 <= i < j < |list| ==>
      DDIComp(list[i].Last(), list[j].first) == Lower || DDIComp(list[i].first, list[j].Last()) == Higher
  }

  /** Lengths go up along the list. */
  lemma LongerBehind(list: seq<Range>, i: nat, j: nat)
    requires Ascending(list) && i < j < |list|
    ensures |list[i].first| == |list[i].Last()| <= |list[j].first| == |list[j].Last()|
  {
    FirstToLast(list[i]);
    FirstToLast(list[j]);
  }

  /** An entry cancels no number that one behind it matches, if the latter does not begin lower. */
  lemma CancelsNoMatch(list: seq<Range>, i: nat, j: nat, number: string)
    requires Ascending(list) && i < j < |list| && DDIComp(list[i].first, list[j].first) != Higher
    requires Matches(list[j], number)
    ensures DDITest(list[i], number) != Cancel
  {
    LongerBehind(list, i, j);
    DDITestMeans(list[i], number);
    var a, b := list[i].first, list[j].first;
    var n, p := |a|, number[..|b|];
    DigitsOfPrefix(a, b);
    DigitsOfPrefixes(b, p, n);
    assert p[..n] == number[..n];
    Transitive(a, b[..n], p[..n]);
  }

  lemma MatchesOnlyOne(list: seq<Range>, i: nat, j: nat, number: string)
    requires Ascending(list) && i < j < |list| && Matches(list[j], number)
    requires DDIComp(list[i].Last(), list[j].first) == Lower || DDIComp(list[i].first, list[j].Last()) == Higher
    ensures !Matches(list[i], number)
  {
    LongerBehind(list, i, j);
    var n, p := |list[i].first|, number[..|list[j].first|];
    assert p[..n] == number[..n];
    if DDIComp(list[i].Last(), list[j].first) == Lower {
      DigitsOfPrefix(list[i].Last(), list[j].first);
      DigitsOfPrefixes(list[j].first, p, n);
      Transitive(list[i].Last(), list[j].first[..n], p[..n]);
      Order(list[i].Last(), p[..n]);
    } else {
      DigitsOfPrefix(list[i].first, list[j].Last());
      DigitsOfPrefixes(p, list[j].Last(), n);
      Order(list[i].first, list[j].Last()[..n]);
      Transitive(p[..n], list[j].Last()[..n], list[i].first);
      Order(list[i].first, p[..n]);
    }
  }

  /** A list in dial order is searched exhaustively, whatever the number and the lengths of its entries. */
  lemma DialOrderSuffices(list: seq<Range>, number: string)
    requires Ascending(list) && InDialOrder(list)
    ensures Scan(list, number).0 == Yes <==> exists i :: 0 <= i < |list| && Matches(list[i], number)
  {
    ScanExactly(list, number);
    if j :| 0 <= j < |list| && Matches(list[j], number) {
      forall i | 0 <= i < j
        ensures DDITest(list[i], number) != Cancel
      {
        CancelsNoMatch(list, i, j, number);
      }
    }
  }

  /** The first number of an entry that begins lower than one before it is missed. */
  lemma MissedBehindHigher(list: seq<Range>, i: nat, j: nat)
    requires Ascending(list) && Separate(list) && i < j < |list| && DDIComp(list[i].first, list[j].first) == Higher
    ensures Matches(list[j], list[j].first) && Scan(list, list[j].first).0 != Yes
  {
    var number := list[j].first;
    FirstToLast(list[j]);
    assert number[..|number|] == number;
    LongerBehind(list, i, j);
    assert DDITest(list[i], number) == Cancel;
    forall k | 0 <= k < |list| && k != j
      ensures !Matches(list[k], number)
    {
      if k < j {
        MatchesOnlyOne(list, k, j, number);
      } else if Matches(list[k], number) {
        MatchesOnlyOne(list, j, k, number);
      }
    }
    ScanExactly(list, number);
  }

  /** When no number can match two entries, the early cancelling scan finds whatever an exhaustive search would, for
      every number, if and only if the list is in dial order. */
  lemma ExhaustiveExactly(list: seq<Range>)
    requires Ascending(list) && Separate(list)
    ensures InDialOrder(list) <==>
            forall number :: Scan(list, number).0 == Yes <==> exists i :: 0 <= i < |list| && Matches(list[i], number)
  {
    if InDialOrder(list) {
      forall number
        ensures Scan(list, number).0 == Yes <==> exists i :: 0 <= i < |list| && Matches(list[i], number)
      {
        DialOrderSuffices(list, number);
      }
    } else {
      var i, j :| 0 <= i < j < |list| && DDIComp(list[i].first, list[j].first) == Higher;
      MissedBehindHigher(list, i, j);
    }
  }

  /** With entries of different lengths an entry may be missed behind a shorter one. */
  lemma MixedLengthsMiss()
    ensures var list := [Range("5", ""), Range("12", "")];
            && Ascending(list) && Matches(list[1], "12") && Scan(list, "12") == (Cancel, 0)
  {
    var list := [Range("5", ""), Range("12", "")];
    assert Digits("12", "12") == Equal by {
      DigitsOrder("12", "12");
    }
    assert "12"[..2] == "12";
    assert DDITest(list[0], "12") == Cancel;
  }

  lemma MoreDigits(a: string, number: string, more: string)
    requires |a| <= |number|
    ensures DDIComp(a, number + more) == DDIComp(a, number)
  {
    DigitsOfPrefix(a, number);
    DigitsOfPrefix(a, number + more);
    assert (number + more)[..|a|] == number[..|a|];
  }

  /** A number that is accepted stays accepted when more digits arrive, whatever the list. */
  lemma AcceptanceIsMonotone(list: seq<Range>, number: string, more: string)
    requires forall i :: 0 <= i < |list| ==> list[i].Valid()
    requires Scan(list, number).0 == Yes
    ensures Scan(list, number + more) == Scan(list, number)
  {
    var k := Scan(list, number).1;
    forall i | 0 <= i <= k
      ensures DDITest(list[i], number + more) == DDITest(list[i], number)
    {
      DDITestMeans(list[i], number);
      FirstToLast(list[i]);
      MoreDigits(list[i].first, number, more);
      MoreDigits(list[i].Last(), number, more);
    }
    assert Scan(list, number + more).1 == k;
  }

  // ---- the class -----------------------------------------------------------------------------

  datatype ControllerInfo = ControllerInfo(ddiLen: nat, msns: seq<Range>)

  class CCntrlMSNList {
    var infos: map<nat, ControllerInfo>

    ghost predicate Valid()
      reads this
    {
      forall c :: c in infos ==> Ascending(infos[c].msns)
    }

    constructor ()
      ensures Valid() && infos == map[]
    {
      infos := map[];
    }

    function Of(controller: nat): ControllerInfo
      reads this
    {
      if controller in infos then infos[controller] else ControllerInfo(0, [])
    }

    method Find(list: seq<Range>, test: Range -> FindResult) returns (result: FindResult, at: nat)
      ensures (result, at) == FindFwd(list, test)
    {
      at := 0;
      while at < |list|
        invariant at <= |list| && forall i :: 0 <= i < at ==> test(list[i]) == No
      {
        result := test(list[at]);
        if result != No {
          return;
        }
        at := at + 1;
      }
      result := No;
    }

    method SetMSN(controller: nat, a: string, b: string) returns (outcome: Outcome)
      requires Valid() && (a != [] || b == [])
      modifies this
      ensures Valid()
      ensures outcome == if a == [] || Range(a, b).Valid() then Okay else InvalidValue
      ensures infos == if a == [] && controller !in old(infos) then old(infos) else
                old(infos)[controller := ControllerInfo(old(Of(controller)).ddiLen,
                                                        if a != [] && outcome == Okay then [Range(a, b)] else [])]
    {
      outcome := Okay;
      if a == [] && controller !in infos {
        return;
      }
      var info := Of(controller).(msns := []);
      if a != [] {
        AllocExactly(a, b);
        match Alloc(a, b) {
          case Some(r) => info := info.(msns := [r]);
          case None => outcome := InvalidValue;
        }
      }
      infos := infos[controller := info];
    }

    method AddMSN(controller: nat, a: string, b: string) returns (outcome: Outcome)
      requires Valid() && a != []
      modifies this
      ensures Valid()
      ensures outcome == AddTo(old(Of(controller)).msns, a, b).0
      ensures infos == old(infos)[controller := ControllerInfo(old(Of(controller)).ddiLen,
                                                               AddTo(old(Of(controller)).msns, a, b).1)]
    {
      var info := Of(controller);
      AddExactly(info.msns, a, b);
      match Alloc(a, b) {
        case None => outcome := InvalidValue;
        case Some(r) =>
          var result, at := Find(info.msns, e => RangeTest(e, r));
          match result {
            case No => outcome, info := Okay, info.(msns := info.msns + [r]);
            case Cancel => outcome, info := Okay, info.(msns := info.msns[..at] + [r] + info.msns[at..]);
            case Error => outcome := MSNOverlap;
            case Yes => outcome := MSNEqual;
          }
      }
      infos := infos[controller := info];
    }

    method TestDDINumber(controller: nat, number: string) returns (outcome: Outcome)
      requires Valid() && number != []
      ensures outcome == RejectCall <==> controller !in infos
      ensures controller in infos ==>
                var info := infos[controller];
                if info.msns == [] then outcome == if |number| >= info.ddiLen then Okay else DDICall
                else outcome == if Scan(info.msns, number).0 == Yes then Okay else DDICall
    {
      outcome := RejectCall;
      if controller in infos {
        var info := infos[controller];
        if info.msns == [] {
          outcome := if |number| >= info.ddiLen then Okay else DDICall;
        } else {
          var result, at := Find(info.msns, e => DDITest(e, number));
          outcome := if result == Yes then Okay else DDICall;
        }
      }
    }
  }
}
