/** A line with a name and a list: what stands between the commas are its data, and range signs join texts to one. */
module ConfigLists {
  import opened Options
  import opened LineParser
  import opened ConfigParser

  /** The texts of one datum, with range signs between them. */
  function Dashed(parts: seq<string>): seq<string> {
    if |parts| <= 1 then parts else [parts[0], "-"] + Dashed(parts[1..])
  }

  /** The data of a list, with commas between them. */
  function Listed(items: seq<seq<string>>): seq<string> {
    if items == [] then []
    else if |items| == 1 then Dashed(items[0])
    else Dashed(items[0]) + ([","] + Listed(items[1..]))
  }

  predicate Texts(parts: seq<string>) {
    forall i :: 0 <= i < |parts| ==> parts[i] != [] && IsText(parts[i])
  }

  predicate AllTexts(items: seq<seq<string>>) {
    forall i :: 0 <= i < |items| ==> items[i] != [] && Texts(items[i])
  }

  /** What a datum is: its texts without their quotes and with the range signs. */
  function Datum(parts: seq<string>): string
    requires parts != [] && Texts(parts)
  {
    if |parts| == 1 then Unquoted(parts[0]) else Unquoted(parts[0]) + ("-" + Datum(parts[1..]))
  }

  function Data(items: seq<seq<string>>): (data: seq<string>)
    requires AllTexts(items)
    ensures |data| == |items| && forall i :: 0 <= i < |items| ==> data[i] == Datum(items[i])
  {
    if items == [] then [] else [Datum(items[0])] + Data(items[1..])
  }

  lemma {:induction false} DashedWords(parts: seq<string>)
    requires Texts(parts)
    ensures AllWords(Dashed(parts))
  {
    if |parts| > 1 {
      DashedWords(parts[1..]);
    }
  }

  lemma {:induction false} ListedWords(items: seq<seq<string>>)
    requires AllTexts(items)
    ensures AllWords(Listed(items))
  {
    if items != [] {
      DashedWords(items[0]);
      ListedWords(items[1..]);
    }
  }

  /** Words without an error that lead from one parse to another. */
  ghost predicate Reaches(p: Parse, words: seq<string>, end: Parse) {
    p.path != [] && AllWords(words) && WordSteps(p, words) == (Okay, end)
  }

  lemma ReachesNow(p: Parse)
    requires p.path != []
    ensures Reaches(p, [], p)
  {
  }

  lemma ReachesOne(p: Parse, word: string, mid: Parse, rest: seq<string>, end: Parse)
    requires p.path != [] && word != [] && WordStep(p, word) == (Okay, mid) && Reaches(mid, rest, end)
    ensures Reaches(p, [word] + rest, end)
  {
    OneStep(p, word, rest);
  }

  lemma {:induction false} ReachesThen(p: Parse, x: seq<string>, mid: Parse, y: seq<string>, end: Parse)
    requires Reaches(p, x, mid) && Reaches(mid, y, end)
    ensures Reaches(p, x + y, end)
    decreases |x|
  {
    if x == [] {
      assert x + y == y;
    } else {
      var p1 := WordStep(p, x[0]).1;
      ReachesThen(p1, x[1..], mid, y, end);
      ReachesOne(p, x[0], p1, x[1..] + y, end);
      assert x + y == [x[0]] + (x[1..] + y);
    }
  }

  /** A datum is being read, and a range sign was the last word. */
  function InRange(path: seq<Section>, name: string, done: seq<string>, begun: string): Parse {
    Parse(path, Some(Value(name, done + [begun])), SearchData, true)
  }

  lemma SignStep(path: seq<Section>, name: string, done: seq<string>, begun: string)
    requires path != []
    ensures WordStep(Collecting(path, name, done + [begun]), "-") == (Okay, InRange(path, name, done, begun + "-"))
  {
    assert WithLast(done + [begun], begun + "-") == done + [begun + "-"];
  }

  lemma TextInRange(path: seq<Section>, name: string, done: seq<string>, begun: string, word: string)
    requires path != [] && word != [] && IsText(word)
    ensures WordStep(InRange(path, name, done, begun), word)
         == (Okay, Collecting(path, name, done + [begun + Unquoted(word)]))
  {
    assert WithLast(done + [begun], begun + Unquoted(word)) == done + [begun + Unquoted(word)];
  }

  lemma DashedFirst(parts: seq<string>)
    requires parts != []
    ensures |parts| == 1 ==> Dashed(parts) == [parts[0]] + []
    ensures |parts| > 1 ==> Dashed(parts) == [parts[0]] + (["-"] + Dashed(parts[1..]))
  {
    if |parts| > 1 {
      DashedMore(parts[0], Dashed(parts[1..]));
    }
  }

  lemma DatumFirst(parts: seq<string>, begun: string)
    requires parts != [] && Texts(parts)
    ensures |parts| == 1 ==> begun + Unquoted(parts[0]) == begun + Datum(parts)
    ensures |parts| > 1 ==> begun + Unquoted(parts[0]) + "-" + Datum(parts[1..]) == begun + Datum(parts)
  {
    if |parts| > 1 {
      DatumMore(begun, Unquoted(parts[0]), Datum(parts[1..]));
    }
  }

  lemma DashedMore(part: string, rest: seq<string>)
    ensures [part, "-"] + rest == [part] + (["-"] + rest)
  {
  }

  lemma DatumMore(begun: string, text: string, rest: string)
    ensures begun + text + "-" + rest == begun + (text + ("-" + rest))
  {
  }

  /** The texts behind a range sign. */
  lemma {:induction false} RestOfDatum(path: seq<Section>, name: string, done: seq<string>, begun: string,
                                       parts: seq<string>)
    requires path != [] && parts != [] && Texts(parts)
    ensures Reaches(InRange(path, name, done, begun), Dashed(parts),
                    Collecting(path, name, done + [begun + Datum(parts)]))
    decreases |parts|, 0
  {
    var so := begun + Unquoted(parts[0]);
    var end := Collecting(path, name, done + [begun + Datum(parts)]);
    DashedFirst(parts);
    DatumFirst(parts, begun);
    BehindText(path, name, done, so, parts[1..], end);
    TextInRange(path, name, done, begun, parts[0]);
    ReachesOne(InRange(path, name, done, begun), parts[0], Collecting(path, name, done + [so]),
               if |parts| == 1 then [] else ["-"] + Dashed(parts[1..]), end);
  }

  /** Behind a text of a datum: the end, or a range sign and more texts. */
  lemma {:induction false} BehindText(path: seq<Section>, name: string, done: seq<string>, so: string,
                                      rest: seq<string>, end: Parse)
    requires path != [] && Texts(rest)
    requires end == Collecting(path, name, done + [if rest == [] then so else so + "-" + Datum(rest)])
    ensures Reaches(Collecting(path, name, done + [so]), if rest == [] then [] else ["-"] + Dashed(rest), end)
    decreases |rest|, 1
  {
    var p := Collecting(path, name, done + [so]);
    if rest == [] {
      ReachesNow(p);
    } else {
      RestOfDatum(path, name, done, so + "-", rest);
      SignStep(path, name, done, so);
      ReachesOne(p, "-", InRange(path, name, done, so + "-"), Dashed(rest), end);
    }
  }

  /** One datum. */
  lemma DatumSteps(path: seq<Section>, name: string, done: seq<string>, parts: seq<string>)
    requires path != [] && parts != [] && Texts(parts)
    ensures Reaches(Collecting(path, name, done), Dashed(parts), Collecting(path, name, done + [Datum(parts)]))
  {
    var p, so, end := Collecting(path, name, done), Unquoted(parts[0]), Collecting(path, name, done + [Datum(parts)]);
    DashedFirst(parts);
    DatumFirst(parts, "");
    assert "" + so == so && "" + Datum(parts) == Datum(parts);
    BehindText(path, name, done, so, parts[1..], end);
    assert WordStep(p, parts[0]) == (Okay, Collecting(path, name, done + [so]));
    ReachesOne(p, parts[0], Collecting(path, name, done + [so]),
               if |parts| == 1 then [] else ["-"] + Dashed(parts[1..]), end);
  }

  lemma CommaStep(path: seq<Section>, name: string, done: seq<string>)
    requires path != []
    ensures WordStep(Collecting(path, name, done), ",") == (Okay, Collecting(path, name, done))
  {
  }

  lemma DataMore(done: seq<string>, items: seq<seq<string>>)
    requires items != [] && AllTexts(items)
    ensures done + [Datum(items[0])] + Data(items[1..]) == done + Data(items)
  {
  }

  /** The data of a list, in their order. */
  lemma {:induction false} ListSteps(path: seq<Section>, name: string, done: seq<string>, items: seq<seq<string>>)
    requires path != [] && items != [] && AllTexts(items)
    ensures Reaches(Collecting(path, name, done), Listed(items), Collecting(path, name, done + Data(items)))
    decreases |items|
  {
    var p, end := Collecting(path, name, done), Collecting(path, name, done + Data(items));
    var q := Collecting(path, name, done + [Datum(items[0])]);
    DatumSteps(path, name, done, items[0]);
    DataMore(done, items);
    if |items| > 1 {
      ListSteps(path, name, done + [Datum(items[0])], items[1..]);
      CommaStep(path, name, done + [Datum(items[0])]);
      ReachesOne(q, ",", q, Listed(items[1..]), end);
      ReachesThen(p, Dashed(items[0]), q, [","] + Listed(items[1..]), end);
    } else {
      assert Data(items) == [Datum(items[0])];
    }
  }

  /** A name, an assignment sign and a list. */
  function Assignment(name: string, sign: string, items: seq<seq<string>>): seq<string> {
    [name] + ([sign] + Listed(items))
  }

  lemma AssignmentSteps(path: seq<Section>, name: string, sign: string, items: seq<seq<string>>)
    requires path != [] && name != [] && IsText(name) && (sign == ":" || sign == "=")
    requires items != [] && AllTexts(items)
    ensures Reaches(Fresh(path), Assignment(name, sign, items), Collecting(path, Unquoted(name), Data(items)))
  {
    var p1 := Parse(path, Some(Value(Unquoted(name), [])), SearchAssign, false);
    var p2, end := Collecting(path, Unquoted(name), []), Collecting(path, Unquoted(name), Data(items));
    ListSteps(path, Unquoted(name), [], items);
    assert [] + Data(items) == Data(items);
    assert WordStep(p1, sign) == (Okay, p2);
    ReachesOne(p1, sign, p2, Listed(items), end);
    assert WordStep(Fresh(path), name) == (Okay, p1);
    ReachesOne(Fresh(path), name, p1, [sign] + Listed(items), end);
  }

  /** A line with these words, however they are spelled, adds the name with its data to the current section. */
  lemma AssignmentLine(path: seq<Section>, name: string, sign: string, items: seq<seq<string>>, line: string)
    requires path != [] && name != [] && IsText(name) && (sign == ":" || sign == "=")
    requires items != [] && AllTexts(items)
    requires Words(line) == Assignment(name, sign, items) && Last(Words(line))[0] != '#' && Last(Words(line)) != "\\"
    ensures Line(Parser(path, []), line)
         == (Okay, Parser(Entered(path, Section([Value(Unquoted(name), Data(items))], [])), []))
  {
    var value := Value(Unquoted(name), Data(items));
    AssignmentSteps(path, name, sign, items);
    LineOfWords(path, line, Parse(path, Some(value), SearchData, false));
    FlushEnters(path, value);
  }

  lemma FlushEnters(path: seq<Section>, value: Value)
    requires path != [] && value.data != []
    ensures Flush(path, Some(value)) == Entered(path, Section([value], []))
  {
    assert Last(path).sections + [] == Last(path).sections;
  }
}
