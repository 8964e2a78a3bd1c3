/** CConfigGrammarParser: named values in nested sections, from the words of configuration lines. */
module ConfigParser {
  import opened Options
  import opened LineParser

  datatype Value = Value(name: string, data: seq<string>)

  datatype Section = Section(values: seq<Value>, sections: seq<Section>)

  const NewSection := Section([], [])

  datatype ParseState = SearchName | SearchAssign | SearchData

  /** `path` are the open sections from the main section to the current one, each without the next. */
  datatype Parse = Parse(path: seq<Section>, curValue: Option<Value>, state: ParseState, inRange: bool)

  /** Undefined: the source reads from a value that does not exist. */
  datatype Info = Okay | Pending | WrongAssignCoding | TwoMuchSectionEnds | Undefined

  // ---- the open sections ---------------------------------------------------------------------

  function Last<T>(s: seq<T>): T
    requires s != []
  {
    s[|s| - 1]
  }

  function WithLast<T>(s: seq<T>, x: T): (r: seq<T>)
    requires s != []
    ensures |r| == |s|
  {
    s[..|s| - 1] + [x]
  }

  /** A value enters the current section unless it has no data. */
  function Flush(path: seq<Section>, value: Option<Value>): (r: seq<Section>)
    requires path != []
    ensures |r| == |path|
  {
    if value.None? || value.value.data == [] then path
    else WithLast(path, Last(path).(values := Last(path).values + [value.value]))
  }

  /** The current section is complete. */
  function Close(path: seq<Section>): (r: seq<Section>)
    requires |path| > 1
    ensures |r| == |path| - 1
  {
    var upper := path[..|path| - 1];
    WithLast(upper, Last(upper).(sections := Last(upper).sections + [Last(path)]))
  }

  /** The main section, with the open sections as they are. */
  function MainSection(path: seq<Section>): Section
    requires path != []
    decreases |path|
  {
    if |path| == 1 then path[0] else MainSection(Close(path))
  }

  // ---- words ---------------------------------------------------------------------------------

  function Unquoted(word: string): string
    requires word != []
  {
    if word[0] == '"' && |word| >= 2 && Last(word) == '"' then word[1..|word| - 1] else word
  }

  /** A name, or a datum. */
  function TextStep(p: Parse, text: string): (Info, Parse) {
    match p.curValue
    case None => (Okay, p.(curValue := Some(Value(text, [])), state := SearchAssign))
    case Some(value) =>
      if p.state != SearchData then (WrongAssignCoding, p)
      else if !p.inRange then (Okay, p.(curValue := Some(value.(data := value.data + [text]))))
      else if value.data == [] then (Undefined, p)
      else (Okay, p.(curValue := Some(value.(data := WithLast(value.data, Last(value.data) + text))), inRange := false))
  }

  function RangeStep(p: Parse): (Info, Parse) {
    if p.state != SearchData then (WrongAssignCoding, p)
    else if p.inRange then (Okay, p)
    else
      match p.curValue
      case None => (Undefined, p)
      case Some(value) =>
        (Okay, p.(curValue := Some(value.(data := if value.data == [] then ["-"]
                                                  else WithLast(value.data, Last(value.data) + "-"))),
                  inRange := true))
  }

  function WordStep(p: Parse, word: string): (r: (Info, Parse))
    requires p.path != [] && word != []
    ensures r.1.path != [] && r.0 != Pending
  {
    match word[0]
    case '{' => (Okay, p.(path := Flush(p.path, p.curValue) + [NewSection], curValue := None, inRange := false))
    case '}' =>
      var path := Flush(p.path, p.curValue);
      if |path| == 1 then (TwoMuchSectionEnds, p.(path := path, curValue := None))
      else (Okay, p.(path := Close(path), curValue := None, inRange := false))
    case '=' => AssignStep(p)
    case ':' => AssignStep(p)
    case ',' => if p.state != SearchData then (WrongAssignCoding, p) else (Okay, p.(inRange := false))
    case '-' => RangeStep(p)
    case '#' => (Okay, p.(inRange := false))
    case _ => TextStep(p, Unquoted(word))
  }

  function AssignStep(p: Parse): (Info, Parse) {
    if p.state == SearchName then (WrongAssignCoding, p) else (Okay, p.(state := SearchData, inRange := false))
  }

  /** The words of a list, up to the first error. */
  function WordSteps(p: Parse, words: seq<string>): (r: (Info, Parse))
    requires p.path != [] && forall i :: 0 <= i < |words| ==> words[i] != []
    ensures r.1.path != [] && r.0 != Pending
    decreases |words|
  {
    if words == [] then (Okay, p)
    else
      var (info, p1) := WordStep(p, words[0]);
      if info != Okay then (info, p1) else WordSteps(p1, words[1..])
  }

  function Fresh(path: seq<Section>): Parse {
    Parse(path, None, SearchName, false)
  }

  /** How many words remain without the comments at the end. */
  function Uncommented(words: seq<string>): (n: nat)
    requires forall i :: 0 <= i < |words| ==> words[i] != []
    ensures n <= |words|
    ensures n > 0 ==> words[n - 1][0] != '#'
  {
    if words == [] then 0
    else if Last(words)[0] != '#' then |words|
    else Uncommented(words[..|words| - 1])
  }

  /** A list that ends in a backslash goes on with the next line. */
  predicate Continues(words: seq<string>)
    requires forall i :: 0 <= i < |words| ==> words[i] != []
  {
    Uncommented(words) > 0 && words[Uncommented(words) - 1] == "\\"
  }

  datatype Parser = Parser(path: seq<Section>, wordList: seq<string>)

  ghost predicate Sound(p: Parser) {
    p.path != [] && forall i :: 0 <= i < |p.wordList| ==> p.wordList[i] != []
  }

  function List(p: Parser): (r: (Info, Parser))
    requires Sound(p)
    ensures Sound(r.1)
  {
    var n := Uncommented(p.wordList);
    if n == 0 then (Okay, p.(wordList := []))
    else if Continues(p.wordList) then (Pending, p.(wordList := p.wordList[..n - 1]))
    else
      var (info, end) := WordSteps(Fresh(p.path), p.wordList);
      (info, Parser(if info == Okay then Flush(end.path, end.curValue) else end.path, []))
  }

  function Line(p: Parser, line: string): (r: (Info, Parser))
    requires Sound(p)
    ensures Sound(r.1)
  {
    List(p.(wordList := p.wordList + Words(line)))
  }

  function Lines(p: Parser, lines: seq<string>): (r: (Info, Parser))
    requires Sound(p)
    ensures Sound(r.1)
    decreases |lines|
  {
    if lines == [] then (Okay, p)
    else
      var (info, p1) := Line(p, lines[0]);
      if info != Okay && info != Pending then (info, p1) else Lines(p1, lines[1..])
  }

  /** Behind the last line: what it kept is parsed, and nothing is kept any more. */
  function Finish(p: Parser): (Info, Parser)
    requires Sound(p)
  {
    (List(p).0, List(p).1.(wordList := []))
  }

  const NewParser := Parser([NewSection], [])

  // ---- section ends --------------------------------------------------------------------------

  /** Sections opened less sections closed. */
  function Net(words: seq<string>): int
    requires forall i :: 0 <= i < |words| ==> words[i] != []
  {
    if words == [] then 0
    else (if words[0][0] == '{' then 1 else if words[0][0] == '}' then -1 else 0) + Net(words[1..])
  }

  lemma {:induction false} DepthLaw(p: Parse, words: seq<string>)
    requires p.path != [] && forall i :: 0 <= i < |words| ==> words[i] != []
    ensures WordSteps(p, words).0 == Okay ==> |WordSteps(p, words).1.path| == |p.path| + Net(words)
    decreases |words|
  {
    if words != [] && WordStep(p, words[0]).0 == Okay {
      DepthLaw(WordStep(p, words[0]).1, words[1..]);
    }
  }

  /** A section end is one too much exactly at the main section: the words before it close what they open,
      and what was open at their begin, without an error. */
  lemma {:induction false} TwoMuchExactly(p: Parse, words: seq<string>)
    requires p.path != [] && forall i :: 0 <= i < |words| ==> words[i] != []
    ensures WordSteps(p, words).0 == TwoMuchSectionEnds <==>
            exists k :: 0 <= k < |words| && words[k][0] == '}' && EndsAt(p, words, k)
    decreases |words|
  {
    if words != [] {
      var (info, p1) := WordStep(p, words[0]);
      assert words[..0] == [];
      assert EndsAt(p, words, 0) <==> |p.path| == 1;
      forall k | 0 < k < |words|
        ensures EndsAt(p, words, k) <==> info == Okay && EndsAt(p1, words[1..], k - 1)
      {
        EndsAtTail(p, words, k);
      }
      if info == Okay {
        TwoMuchExactly(p1, words[1..]);
        if WordSteps(p, words).0 == TwoMuchSectionEnds {
          var k :| 0 <= k < |words[1..]| && words[1..][k][0] == '}' && EndsAt(p1, words[1..], k);
          assert words[k + 1] == words[1..][k] && EndsAt(p, words, k + 1);
        }
        if k :| 0 <= k < |words| && words[k][0] == '}' && EndsAt(p, words, k) {
          if k > 0 {
            assert words[1..][k - 1] == words[k];
          }
        }
      }
    }
  }

  /** The words before a place are free of errors and lead to the main section. */
  ghost predicate EndsAt(p: Parse, words: seq<string>, k: nat)
    requires p.path != [] && (forall i :: 0 <= i < |words| ==> words[i] != []) && k <= |words|
  {
    WordSteps(p, words[..k]).0 == Okay && |p.path| + Net(words[..k]) == 1
  }

  lemma EndsAtTail(p: Parse, words: seq<string>, k: nat)
    requires p.path != [] && (forall i :: 0 <= i < |words| ==> words[i] != []) && 0 < k <= |words|
    ensures var (info, p1) := WordStep(p, words[0]);
            EndsAt(p, words, k) <==> info == Okay && EndsAt(p1, words[1..], k - 1)
  {
    assert words[..k][1..] == words[1..][..k - 1];
    var (info, p1) := WordStep(p, words[0]);
    if info == Okay {
      DepthLaw(p, words[..1]);
      assert words[..1][1..] == [];
    }
  }

  /** A line at which a section end is one too much: its words, with those kept from lines that it goes on with. */
  ghost predicate EndsTooMuch(p: Parser, line: string)
    requires Sound(p)
  {
    var words := p.wordList + Words(line);
    && Uncommented(words) > 0 && !Continues(words)
    && exists k :: 0 <= k < |words| && words[k][0] == '}' && EndsAt(Fresh(p.path), words, k)
  }

  lemma LineTwoMuch(p: Parser, line: string)
    requires Sound(p)
    ensures Line(p, line).0 == TwoMuchSectionEnds <==> EndsTooMuch(p, line)
  {
    TwoMuchExactly(Fresh(p.path), p.wordList + Words(line));
  }

  /** Over any lines the error comes exactly at such a line, behind lines without an error. */
  lemma {:induction false} LinesTwoMuch(p: Parser, lines: seq<string>)
    requires Sound(p)
    ensures Lines(p, lines).0 == TwoMuchSectionEnds <==>
            exists i :: 0 <= i < |lines| && TooMuchAt(p, lines, i)
    decreases |lines|
  {
    if lines != [] {
      var (info, p1) := Line(p, lines[0]);
      LineTwoMuch(p, lines[0]);
      assert lines[..0] == [];
      assert TooMuchAt(p, lines, 0) <==> EndsTooMuch(p, lines[0]);
      forall i | 0 < i < |lines|
        ensures TooMuchAt(p, lines, i) <==> (info == Okay || info == Pending) && TooMuchAt(p1, lines[1..], i - 1)
      {
        assert lines[..i][1..] == lines[1..][..i - 1];
      }
      if info == Okay || info == Pending {
        LinesTwoMuch(p1, lines[1..]);
        if i :| 0 <= i < |lines[1..]| && TooMuchAt(p1, lines[1..], i) {
          assert TooMuchAt(p, lines, i + 1);
        }
      }
    }
  }

  ghost predicate TooMuchAt(p: Parser, lines: seq<string>, i: nat)
    requires Sound(p) && i < |lines|
  {
    var (info, q) := Lines(p, lines[..i]);
    info == Okay && EndsTooMuch(q, lines[i])
  }

  // ---- where the source's code is undefined --------------------------------------------------

  predicate IsBracket(word: string)
    requires word != []
  {
    word[0] == '{' || word[0] == '}'
  }

  predicate IsAssign(word: string)
    requires word != []
  {
    word[0] == '=' || word[0] == ':'
  }

  /** Names and data. */
  predicate IsText(word: string)
    requires word != []
  {
    word[0] !in "{}=:,-#"
  }

  ghost predicate AllWords(words: seq<string>) {
    forall i :: 0 <= i < |words| ==> words[i] != []
  }

  /** A text stands behind the last bracket: a value is open. */
  predicate Named(words: seq<string>)
    requires AllWords(words)
  {
    words != [] &&
    (IsText(Last(words)) || (!IsBracket(Last(words)) && Named(words[..|words| - 1])))
  }

  /** Of the names (the first text behind a bracket, or of all) and the assignment signs the last one is an
      assignment sign. */
  predicate Assigned(words: seq<string>)
    requires AllWords(words)
  {
    words != [] &&
    var before := words[..|words| - 1];
    (IsAssign(Last(words)) || (!(IsText(Last(words)) && !Named(before)) && Assigned(before)))
  }

  /** What the words so far say of the parse that has taken them. */
  predicate Tells(words: seq<string>, p: Parse)
    requires AllWords(words)
  {
    && (p.curValue.Some? <==> Named(words))
    && (p.state == SearchData <==> Assigned(words))
    && (p.inRange ==> p.curValue.Some? && p.curValue.value.data != [])
  }

  lemma WordTells(words: seq<string>, p: Parse, word: string)
    requires AllWords(words) && word != [] && p.path != [] && Tells(words, p)
    ensures AllWords(words + [word])
    ensures var (info, p1) := WordStep(p, word);
            && (info == Okay ==> Tells(words + [word], p1))
            && (info == Undefined <==> word[0] == '-' && Assigned(words) && !Named(words))
  {
    NamedMore(words, word);
  }

  lemma NamedMore(words: seq<string>, word: string)
    requires AllWords(words) && word != []
    ensures AllWords(words + [word])
    ensures Named(words + [word]) <==> IsText(word) || (!IsBracket(word) && Named(words))
    ensures Assigned(words + [word]) <==> IsAssign(word) || (!(IsText(word) && !Named(words)) && Assigned(words))
  {
    assert (words + [word])[..|words|] == words && Last(words + [word]) == word;
  }

  lemma {:induction false} StepsSplit(p: Parse, words: seq<string>, k: nat)
    requires p.path != [] && AllWords(words) && k < |words|
    ensures var (info, q) := WordSteps(p, words[..k]);
            && (info == Okay ==> WordSteps(p, words[..k + 1]) == WordStep(q, words[k]))
            && (info != Okay ==> WordSteps(p, words[..k + 1]) == (info, q))
    decreases k
  {
    if k == 0 {
      assert words[..1][0] == words[0] && words[..1][1..] == [];
    } else {
      assert words[..k][0] == words[0] && words[..k][1..] == words[1..][..k - 1];
      assert words[..k + 1][0] == words[0] && words[..k + 1][1..] == words[1..][..k];
      if WordStep(p, words[0]).0 == Okay {
        StepsSplit(WordStep(p, words[0]).1, words[1..], k - 1);
      }
    }
  }

  lemma {:induction false} PrefixTells(path: seq<Section>, words: seq<string>, k: nat)
    requires path != [] && AllWords(words) && k <= |words|
    ensures var (info, p) := WordSteps(Fresh(path), words[..k]);
            info == Okay ==> Tells(words[..k], p)
  {
    if k > 0 {
      StepsSplit(Fresh(path), words, k - 1);
      var (info, q) := WordSteps(Fresh(path), words[..k - 1]);
      assert words[..k - 1] + [words[k - 1]] == words[..k];
      if info == Okay {
        PrefixTells(path, words, k - 1);
        WordTells(words[..k - 1], q, words[k - 1]);
      }
    }
  }

  /** A range sign without a value: the words before it are free of errors, the last name or assignment sign among
      them is an assignment sign, and no name stands behind the last bracket. */
  ghost predicate Dangles(path: seq<Section>, words: seq<string>, k: nat)
    requires path != [] && AllWords(words) && k < |words|
  {
    && words[k][0] == '-'
    && WordSteps(Fresh(path), words[..k]).0 == Okay
    && Assigned(words[..k]) && !Named(words[..k])
  }

  /** The parser uses a value that does not exist exactly when a word of the list is such a sign. */
  lemma {:induction false} UndefinedExactly(path: seq<Section>, words: seq<string>, n: nat)
    requires path != [] && AllWords(words) && n <= |words|
    ensures WordSteps(Fresh(path), words[..n]).0 == Undefined <==> exists k :: 0 <= k < n && Dangles(path, words, k)
  {
    if n > 0 {
      var k := n - 1;
      UndefinedExactly(path, words, k);
      StepsSplit(Fresh(path), words, k);
      var (info, q) := WordSteps(Fresh(path), words[..k]);
      if info == Okay {
        PrefixTells(path, words, k);
        WordTells(words[..k], q, words[k]);
        assert Dangles(path, words, k) <==> WordSteps(Fresh(path), words[..n]).0 == Undefined;
      }
    }
  }

  /** For whole word lists. */
  lemma UndefinedList(path: seq<Section>, words: seq<string>)
    requires path != [] && AllWords(words)
    ensures WordSteps(Fresh(path), words).0 == Undefined <==> exists k :: 0 <= k < |words| && Dangles(path, words, k)
  {
    UndefinedExactly(path, words, |words|);
    assert words[..|words|] == words;
  }

  /** Before such a sign there is a name, or a datum, and behind that a bracket. */
  lemma DanglesBehindBracket(path: seq<Section>, words: seq<string>, k: nat) returns (i: nat, j: nat)
    requires path != [] && AllWords(words) && k < |words| && Dangles(path, words, k)
    ensures i < j < k && IsText(words[i]) && IsBracket(words[j])
  {
    PrefixTells(path, words, k);
    i := SomeText(path, words, k);
    j := SomeBracket(words, i, k);
  }

  /** Before an assignment sign that is no error there is a text. */
  lemma {:induction false} SomeText(path: seq<Section>, words: seq<string>, k: nat) returns (i: nat)
    requires path != [] && AllWords(words) && k <= |words|
    requires WordSteps(Fresh(path), words[..k]).0 == Okay && WordSteps(Fresh(path), words[..k]).1.state != SearchName
    ensures i < k && IsText(words[i])
  {
    StepsSplit(Fresh(path), words, k - 1);
    if IsText(words[k - 1]) {
      i := k - 1;
    } else {
      i := SomeText(path, words, k - 1);
    }
  }

  lemma {:induction false} SomeBracket(words: seq<string>, i: nat, k: nat) returns (j: nat)
    requires AllWords(words) && i < k <= |words| && IsText(words[i]) && !Named(words[..k])
    ensures i < j < k && IsBracket(words[j])
  {
    var before := words[..k];
    assert Last(before) == words[k - 1] && before[..k - 1] == words[..k - 1];
    if IsBracket(words[k - 1]) {
      j := k - 1;
    } else {
      j := SomeBracket(words, i, k - 1);
    }
  }

  lemma WordsOfUndefinedLine()
    ensures Words("a:{-") == ["a", ":", "{", "-"]
  {
    var line := "a:{-";
    assert WordLen(line) == 1 && line[..1] == "a" && line[1..] == ":{-";
    WordsSingle(':', "{-");
    WordsSingle('{', "-");
    WordsSingle('-', "");
    assert ":" + "{-" == ":{-" && "{" + "-" == "{-" && "-" + "" == "-";
    assert Words("-") == ["-"] && Words("{-") == ["{", "-"] && Words(":{-") == [":", "{", "-"];
  }

  lemma OneStep(p: Parse, word: string, rest: seq<string>)
    requires p.path != [] && word != [] && AllWords(rest)
    ensures WordSteps(p, [word] + rest)
         == if WordStep(p, word).0 == Okay then WordSteps(WordStep(p, word).1, rest) else WordStep(p, word)
  {
    assert ([word] + rest)[1..] == rest;
  }

  lemma StepsOfUndefinedLine(path: seq<Section>)
    requires path != []
    ensures WordSteps(Fresh(path), ["a", ":", "{", "-"]).0 == Undefined
  {
    var p1 := Parse(path, Some(Value("a", [])), SearchAssign, false);
    var p2 := p1.(state := SearchData);
    var p3 := Parse(path + [NewSection], None, SearchData, false);
    OneStep(Fresh(path), "a", [":", "{", "-"]);
    OneStep(p1, ":", ["{", "-"]);
    OneStep(p2, "{", ["-"]);
    OneStep(p3, "-", []);
    assert ["a"] + [":", "{", "-"] == ["a", ":", "{", "-"] && [":"] + ["{", "-"] == [":", "{", "-"];
    assert ["{"] + ["-"] == ["{", "-"] && ["-"] + [] == ["-"];
  }

  /** A list that ends neither in a comment nor in a backslash. */
  lemma ListOfWords(path: seq<Section>, words: seq<string>)
    requires path != [] && AllWords(words) && words != [] && Last(words)[0] != '#' && Last(words) != "\\"
    ensures var (info, end) := WordSteps(Fresh(path), words);
            List(Parser(path, words))
            == (info, Parser(if info == Okay then Flush(end.path, end.curValue) else end.path, []))
  {
    assert Uncommented(words) == |words| && !Continues(words);
  }

  lemma LineIsList(path: seq<Section>, line: string)
    requires path != []
    ensures Line(Parser(path, []), line) == List(Parser(path, Words(line)))
  {
    assert [] + Words(line) == Words(line);
  }

  /** A line with such a sign. */
  lemma UndefinedLine()
    ensures Line(NewParser, "a:{-").0 == Undefined
  {
    WordsOfUndefinedLine();
    StepsOfUndefinedLine([NewSection]);
    LineIsList([NewSection], "a:{-");
    ListOfWords([NewSection], ["a", ":", "{", "-"]);
  }

  // ---- the canonical rendering ---------------------------------------------------------------

  function RenderData(data: seq<string>): string {
    if data == [] then ""
    else if |data| == 1 then Quoted(data[0])
    else Quoted(data[0]) + ("," + RenderData(data[1..]))
  }

  function RenderValue(v: Value): string {
    Quoted(v.name) + (":" + RenderData(v.data))
  }

  function RenderValues(values: seq<Value>): seq<string> {
    if values == [] then [] else [RenderValue(values[0])] + RenderValues(values[1..])
  }

  function Render(s: Section): seq<string>
    decreases s, 0
  {
    RenderValues(s.values) + RenderAll(s.sections)
  }

  function RenderAll(sections: seq<Section>): seq<string>
    decreases sections, 1
  {
    if sections == [] then [] else ["{"] + (Render(sections[0]) + (["}"] + RenderAll(sections[1..])))
  }

  predicate QuotableAll(data: seq<string>) {
    forall i :: 0 <= i < |data| ==> Quotable(data[i])
  }

  predicate Writable(s: Section)
    decreases s, 0
  {
    && (forall i :: 0 <= i < |s.values| ==>
          Quotable(s.values[i].name) && s.values[i].data != [] && QuotableAll(s.values[i].data))
    && WritableAll(s.sections)
  }

  predicate WritableAll(sections: seq<Section>)
    decreases sections, 1
  {
    sections == [] || (Writable(sections[0]) && WritableAll(sections[1..]))
  }

  function DataWords(data: seq<string>): (words: seq<string>)
    ensures data != [] ==> words != [] && Last(words) == Quoted(Last(data))
    ensures forall i :: 0 <= i < |words| ==> words[i] != []
  {
    if data == [] then []
    else if |data| == 1 then [Quoted(data[0])]
    else [Quoted(data[0])] + ([","] + DataWords(data[1..]))
  }

  lemma {:induction false} WordsOfData(data: seq<string>)
    requires QuotableAll(data)
    ensures Words(RenderData(data)) == DataWords(data)
  {
    if data != [] {
      if |data| == 1 {
        WordsQuoted(data[0], []);
        assert Quoted(data[0]) + [] == Quoted(data[0]);
        assert [Quoted(data[0])] + [] == [Quoted(data[0])];
      } else {
        WordsOfData(data[1..]);
        WordsQuoted(data[0], "," + RenderData(data[1..]));
        WordsSingle(',', RenderData(data[1..]));
      }
    }
  }

  lemma TextOf(p: Parse, text: string)
    requires p.path != []
    ensures WordStep(p, Quoted(text)) == TextStep(p, text)
  {
    assert Quoted(text)[1..|Quoted(text)| - 1] == text;
  }

  lemma {:induction false} StepsOfData(path: seq<Section>, name: string, done: seq<string>, data: seq<string>)
    requires path != []
    ensures WordSteps(Collecting(path, name, done), DataWords(data)) == (Okay, Collecting(path, name, done + data))
    decreases |data|
  {
    if data == [] {
      assert done + data == done;
    } else {
      StepOfDatum(path, name, done, data);
      StepsOfData(path, name, done + [data[0]], data[1..]);
      DoneMore(done, data);
    }
  }

  lemma DoneMore(done: seq<string>, data: seq<string>)
    requires data != []
    ensures done + [data[0]] + data[1..] == done + data
  {
  }

  /** Data of a value is being read. */
  function Collecting(path: seq<Section>, name: string, data: seq<string>): Parse {
    Parse(path, Some(Value(name, data)), SearchData, false)
  }

  lemma StepOfDatum(path: seq<Section>, name: string, done: seq<string>, data: seq<string>)
    requires path != [] && data != []
    ensures var p1 := Collecting(path, name, done + [data[0]]);
            WordSteps(Collecting(path, name, done), DataWords(data)) == WordSteps(p1, DataWords(data[1..]))
  {
    var p := Collecting(path, name, done);
    TextOf(p, data[0]);
    assert DataWords(data)[0] == Quoted(data[0]);
    if |data| > 1 {
      StepOfComma(Collecting(path, name, done + [data[0]]), data);
    } else {
      assert DataWords(data)[1..] == [];
    }
  }

  lemma StepOfComma(p: Parse, data: seq<string>)
    requires p.path != [] && p.state == SearchData && !p.inRange && p.curValue.Some? && p.curValue.value.data != []
    requires |data| > 1
    ensures WordSteps(p, DataWords(data)[1..]) == WordSteps(p, DataWords(data[1..]))
  {
    var rest := [","] + DataWords(data[1..]);
    assert DataWords(data)[1..] == rest && rest[0] == "," && rest[1..] == DataWords(data[1..]);
    assert WordStep(p, ",") == (Okay, p);
  }

  function ValueWords(v: Value): (words: seq<string>)
    ensures forall i :: 0 <= i < |words| ==> words[i] != []
  {
    [Quoted(v.name), ":"] + DataWords(v.data)
  }

  lemma StepsOfValue(path: seq<Section>, v: Value)
    requires path != []
    ensures WordSteps(Fresh(path), ValueWords(v)) == (Okay, Parse(path, Some(v), SearchData, false))
  {
    var p0, words := Fresh(path), ValueWords(v);
    var p1 := Parse(path, Some(Value(v.name, [])), SearchAssign, false);
    var p2 := p1.(state := SearchData);
    TextOf(p0, v.name);
    StepsOfData(path, v.name, [], v.data);
    assert [] + v.data == v.data;
    assert words[1..][1..] == DataWords(v.data);
    assert WordStep(p0, words[0]) == (Okay, p1) && WordStep(p1, words[1..][0]) == (Okay, p2);
  }

  function Entered(path: seq<Section>, s: Section): (r: seq<Section>)
    requires path != []
    ensures r != [] && |r| == |path|
  {
    WithLast(path, Section(Last(path).values + s.values, Last(path).sections + s.sections))
  }

  /** The same for a line without an error. */
  lemma LineOfWords(path: seq<Section>, line: string, end: Parse)
    requires path != [] && Words(line) != [] && Last(Words(line))[0] != '#' && Last(Words(line)) != "\\"
    requires WordSteps(Fresh(path), Words(line)) == (Okay, end)
    ensures end.path != []
    ensures Line(Parser(path, []), line) == (Okay, Parser(Flush(end.path, end.curValue), []))
  {
    LineIsList(path, line);
    ListOfWords(path, Words(line));
  }

  lemma LineOfValue(path: seq<Section>, v: Value)
    requires path != [] && Quotable(v.name) && v.data != [] && QuotableAll(v.data)
    ensures Line(Parser(path, []), RenderValue(v)) == (Okay, Parser(Entered(path, Section([v], [])), []))
  {
    ValueWordsOf(v);
    StepsOfValue(path, v);
    assert Last(ValueWords(v)) == Last(DataWords(v.data));
    LineOfWords(path, RenderValue(v), Parse(path, Some(v), SearchData, false));
    assert Last(path).sections + [] == Last(path).sections;
  }

  lemma ValueWordsOf(v: Value)
    requires Quotable(v.name) && QuotableAll(v.data)
    ensures Words(RenderValue(v)) == ValueWords(v)
  {
    WordsOfData(v.data);
    WordsQuoted(v.name, ":" + RenderData(v.data));
    WordsSingle(':', RenderData(v.data));
  }

  lemma WordsBracket(c: char)
    requires Single(c)
    ensures Words([c]) == [[c]]
  {
    WordsSingle(c, []);
    assert [c] + [] == [c] && [[c]] + [] == [[c]];
  }

  lemma LineOfOpening(path: seq<Section>)
    requires path != []
    ensures Line(Parser(path, []), "{") == (Okay, Parser(path + [NewSection], []))
  {
    WordsBracket('{');
    assert ["{"][1..] == [];
    LineOfWords(path, "{", Parse(path + [NewSection], None, SearchName, false));
  }

  lemma LineOfClosing(path: seq<Section>)
    requires |path| > 1
    ensures Line(Parser(path, []), "}") == (Okay, Parser(Close(path), []))
  {
    WordsBracket('}');
    assert ["}"][1..] == [];
    LineOfWords(path, "}", Parse(Close(path), None, SearchName, false));
  }

  lemma {:induction false} LinesAppend(p: Parser, x: seq<string>, y: seq<string>)
    requires Sound(p) && Lines(p, x).0 == Okay
    ensures Lines(p, x + y) == Lines(Lines(p, x).1, y)
    decreases |x|
  {
    if x == [] {
      assert x + y == y;
    } else {
      assert (x + y)[1..] == x[1..] + y;
      LinesAppend(Line(p, x[0]).1, x[1..], y);
    }
  }

  /** Lines that lead from one list of open sections to another. */
  ghost predicate Leads(path: seq<Section>, lines: seq<string>, end: seq<Section>)
    requires path != []
  {
    Lines(Parser(path, []), lines) == (Okay, Parser(end, []))
  }

  lemma LineThenLines(path: seq<Section>, line: string, mid: seq<Section>, rest: seq<string>, end: seq<Section>)
    requires path != [] && Line(Parser(path, []), line) == (Okay, Parser(mid, []))
    requires mid != [] && Leads(mid, rest, end)
    ensures Leads(path, [line] + rest, end)
  {
    assert ([line] + rest)[1..] == rest;
  }

  lemma LinesThenLines(path: seq<Section>, lines: seq<string>, mid: seq<Section>, rest: seq<string>, end: seq<Section>)
    requires path != [] && Leads(path, lines, mid)
    requires mid != [] && Leads(mid, rest, end)
    ensures Leads(path, lines + rest, end)
  {
    LinesAppend(Parser(path, []), lines, rest);
  }

  lemma EnteredTwice(path: seq<Section>, a: Section, b: Section)
    requires path != []
    ensures Entered(Entered(path, a), b) == Entered(path, Section(a.values + b.values, a.sections + b.sections))
  {
    assert Last(path).values + a.values + b.values == Last(path).values + (a.values + b.values);
    assert Last(path).sections + a.sections + b.sections == Last(path).sections + (a.sections + b.sections);
  }

  lemma EnteredMore(path: seq<Section>, value: Value, values: seq<Value>)
    requires path != []
    ensures Entered(Entered(path, Section([value], [])), Section(values, []))
         == Entered(path, Section([value] + values, []))
  {
    EnteredTwice(path, Section([value], []), Section(values, []));
    assert Section([value] + values, []) == Section([value] + values, [] + []);
  }

  lemma EnteredMoreSections(path: seq<Section>, s: Section, sections: seq<Section>)
    requires path != []
    ensures Entered(Entered(path, Section([], [s])), Section([], sections))
         == Entered(path, Section([], [s] + sections))
  {
    EnteredTwice(path, Section([], [s]), Section([], sections));
    assert Section([], [s] + sections) == Section([] + [], [s] + sections);
  }

  lemma EnteredNothing(path: seq<Section>)
    requires path != []
    ensures Entered(path, NewSection) == path
  {
    assert Last(path).values + [] == Last(path).values && Last(path).sections + [] == Last(path).sections;
  }

  lemma {:induction false} LinesOfValues(path: seq<Section>, values: seq<Value>)
    requires path != []
    requires forall i :: 0 <= i < |values| ==>
               Quotable(values[i].name) && values[i].data != [] && QuotableAll(values[i].data)
    ensures Leads(path, RenderValues(values), Entered(path, Section(values, [])))
    decreases |values|
  {
    if values == [] {
      EnteredNothing(path);
    } else {
      var first := Section([values[0]], []);
      LineOfValue(path, values[0]);
      LinesOfValues(Entered(path, first), values[1..]);
      EnteredMore(path, values[0], values[1..]);
      assert [values[0]] + values[1..] == values;
      LineThenLines(path, RenderValue(values[0]), Entered(path, first), RenderValues(values[1..]),
                    Entered(path, Section(values, [])));
    }
  }

  lemma CloseEntered(path: seq<Section>, s: Section)
    requires path != []
    ensures Close(Entered(path + [NewSection], s)) == Entered(path, Section([], [s]))
  {
    var inner := Entered(path + [NewSection], s);
    assert [] + s.values == s.values && [] + s.sections == s.sections;
    assert Last(inner) == s && inner[..|inner| - 1] == path;
    assert Last(path).values + [] == Last(path).values;
  }

  lemma {:induction false} LinesOfSection(path: seq<Section>, s: Section)
    requires path != [] && Writable(s)
    ensures Leads(path, Render(s), Entered(path, s))
    decreases s, 0
  {
    var values := Section(s.values, []);
    LinesOfValues(path, s.values);
    LinesOfSections(Entered(path, values), s.sections);
    EnteredTwice(path, values, Section([], s.sections));
    assert s.values + [] == s.values && [] + s.sections == s.sections;
    LinesThenLines(path, RenderValues(s.values), Entered(path, values), RenderAll(s.sections), Entered(path, s));
  }

  lemma {:induction false} LinesOfSections(path: seq<Section>, sections: seq<Section>)
    requires path != [] && WritableAll(sections)
    ensures Leads(path, RenderAll(sections), Entered(path, Section([], sections)))
    decreases sections, 1
  {
    if sections == [] {
      EnteredNothing(path);
    } else {
      var first := Section([], [sections[0]]);
      var end := Entered(path, Section([], sections));
      LinesOfSections(Entered(path, first), sections[1..]);
      EnteredMoreSections(path, sections[0], sections[1..]);
      assert [sections[0]] + sections[1..] == sections;
      LinesOfSection(path + [NewSection], sections[0]);
      Bracketed(path, sections[0], RenderAll(sections[1..]), end);
    }
  }

  lemma Bracketed(path: seq<Section>, s: Section, others: seq<string>, end: seq<Section>)
    requires path != [] && Leads(path + [NewSection], Render(s), Entered(path + [NewSection], s))
    requires Leads(Entered(path, Section([], [s])), others, end)
    ensures Leads(path, ["{"] + (Render(s) + (["}"] + others)), end)
  {
    var inner := Entered(path + [NewSection], s);
    LineOfClosing(inner);
    CloseEntered(path, s);
    LineThenLines(inner, "}", Close(inner), others, end);
    LinesThenLines(path + [NewSection], Render(s), inner, ["}"] + others, end);
    LineOfOpening(path);
    LineThenLines(path, "{", path + [NewSection], Render(s) + (["}"] + others), end);
  }

  /** Every section tree whose names and data can be quoted, each value having data, is rebuilt from its
      rendering: one line for a value, with the quoted name, a colon and the quoted data between commas,
      and section brackets on lines of their own. */
  lemma RoundTrip(s: Section)
    requires Writable(s)
    ensures Lines(NewParser, Render(s)) == (Okay, Parser([s], []))
    ensures MainSection(Lines(NewParser, Render(s)).1.path) == s
    ensures Finish(Lines(NewParser, Render(s)).1) == (Okay, Parser([s], []))
  {
    LinesOfSection([NewSection], s);
    assert [] + s.values == s.values && [] + s.sections == s.sections;
    assert Entered([NewSection], s) == [s];
  }

  // ---- the class -----------------------------------------------------------------------------

  class CConfigGrammarParser {
    var path: seq<Section>
    var wordList: seq<string>

    ghost function Here(): Parser
      reads this
    {
      Parser(path, wordList)
    }

    constructor ()
      ensures Here() == NewParser
    {
      path, wordList := [NewSection], [];
    }

    /** Without a line the words kept are the last. */
    method ParseLine(line: Option<string>) returns (info: Info)
      requires Sound(Here())
      modifies this
      ensures Sound(Here())
      ensures (info, Here()) == if line.Some? then Line(old(Here()), line.value) else Finish(old(Here()))
    {
      if line.Some? {
        var words := ParseConfigLine(line.value);
        wordList := wordList + words;
      }
      info := ParseWords();
      if info != Pending || line == None {
        wordList := [];
      }
    }

    /** The line parser's words, and what it keeps of them for the next line. */
    method ParseWords() returns (info: Info)
      requires Sound(Here())
      modifies this
      ensures Sound(Here()) && (info, Here()) == List(old(Here()))
    {
      var n := |wordList|;
      assert wordList[..n] == wordList;
      while n > 0 && wordList[n - 1][0] == '#'
        invariant n <= |wordList| && Uncommented(wordList) == Uncommented(wordList[..n])
      {
        assert wordList[..n][..n - 1] == wordList[..n - 1];
        n := n - 1;
      }
      if n == 0 {
        wordList := [];
        return Okay;
      }
      if wordList[n - 1] == "\\" {
        wordList := wordList[..n - 1];
        return Pending;
      }
      info := ParseAll();
    }

    /** The words up to the first error; the value at the end enters its section. */
    method ParseAll() returns (info: Info)
      requires Sound(Here())
      modifies this
      ensures var (result, end) := WordSteps(Fresh(old(path)), old(wordList));
              && info == result && wordList == []
              && path == if result == Okay then Flush(end.path, end.curValue) else end.path
    {
      var p, words := Fresh(path), wordList;
      info := Okay;
      while words != [] && info == Okay
        invariant p.path != [] && forall i :: 0 <= i < |words| ==> words[i] != []
        invariant WordSteps(Fresh(path), wordList) == if info == Okay then WordSteps(p, words) else (info, p)
        decreases |words|
      {
        info, p := WordStep(p, words[0]).0, WordStep(p, words[0]).1;
        words := words[1..];
      }
      wordList := [];
      path := if info == Okay then Flush(p.path, p.curValue) else p.path;
    }
  }
}
