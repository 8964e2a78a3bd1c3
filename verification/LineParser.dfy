/** ParseConfigLine: the words of a configuration line. */
module LineParser {

  predicate Blank(c: char) {
    c == ' ' || c == '\t'
  }

  /** What ends a plain word unless a backslash stands before it. */
  predicate Delimiter(c: char) {
    c in " \t=:,-[{}]"
  }

  /** Words of one character. */
  predicate Single(c: char) {
    c in "[]{}=:,-"
  }

  function PlainLen(s: string, j: nat): (n: nat)
    requires 0 < j <= |s|
    ensures j <= n <= |s|
    decreases |s| - j
  {
    if j == |s| || (Delimiter(s[j]) && s[j - 1] != '\\') then j else PlainLen(s, j + 1)
  }

  /** A closing quote belongs to the word. */
  function QuotedLen(s: string, j: nat): (n: nat)
    requires 0 < j <= |s|
    ensures j <= n <= |s|
    decreases |s| - j
  {
    if j == |s| then j else if s[j] == '"' && s[j - 1] != '\\' then j + 1 else QuotedLen(s, j + 1)
  }

  /** The length of the word that a line begins with. */
  function WordLen(s: string): (n: nat)
    requires s != []
    ensures 0 < n <= |s|
  {
    if s[0] == '"' then QuotedLen(s, 1)
    else if Single(s[0]) then 1
    else if s[0] == '#' then |s|
    else PlainLen(s, 1)
  }

  function Words(s: string): (words: seq<string>)
    ensures forall i :: 0 <= i < |words| ==> words[i] != []
    decreases |s|
  {
    if s == [] then [] else if Blank(s[0]) then Words(s[1..]) else [s[..WordLen(s)]] + Words(s[WordLen(s)..])
  }

  method SkipBlanks(s: string, from: nat) returns (lauf: nat)
    requires from <= |s|
    ensures from <= lauf <= |s| && (lauf < |s| ==> !Blank(s[lauf]))
    ensures Words(s[from..]) == Words(s[lauf..])
  {
    lauf := from;
    while lauf < |s| && Blank(s[lauf])
      invariant from <= lauf <= |s|
      invariant Words(s[from..]) == Words(s[lauf..])
    {
      assert s[lauf..][1..] == s[lauf + 1..];
      lauf := lauf + 1;
    }
  }

  /** The end of the word that begins at a place. */
  method WordEnd(s: string, start: nat) returns (lauf: nat)
    requires start < |s|
    ensures lauf == start + WordLen(s[start..])
  {
    lauf := start + 1;
    ghost var rest := s[start..];
    if s[start] == '"' {
      while lauf < |s|
        invariant start < lauf <= |s|
        invariant QuotedLen(rest, 1) == QuotedLen(rest, lauf - start)
      {
        if s[lauf] == '"' && s[lauf - 1] != '\\' {
          lauf := lauf + 1;
          return;
        }
        lauf := lauf + 1;
      }
    } else if Single(s[start]) {
    } else if s[start] == '#' {
      lauf := |s|;
    } else {
      while lauf < |s| && !(Delimiter(s[lauf]) && s[lauf - 1] != '\\')
        invariant start < lauf <= |s|
        invariant PlainLen(rest, 1) == PlainLen(rest, lauf - start)
      {
        lauf := lauf + 1;
      }
    }
  }

  method ParseConfigLine(s: string) returns (wordList: seq<string>)
    ensures wordList == Words(s)
  {
    wordList := [];
    var lauf := SkipBlanks(s, 0);
    assert s[0..] == s;
    while lauf < |s|
      invariant lauf <= |s| && (lauf < |s| ==> !Blank(s[lauf]))
      invariant Words(s) == wordList + Words(s[lauf..])
    {
      var start := lauf;
      lauf := WordEnd(s, start);
      assert s[start..][..lauf - start] == s[start..lauf] && s[start..][lauf - start..] == s[lauf..];
      assert wordList + ([s[start..lauf]] + Words(s[lauf..])) == wordList + [s[start..lauf]] + Words(s[lauf..]);
      wordList := wordList + [s[start..lauf]];
      lauf := SkipBlanks(s, lauf);
    }
    assert wordList + [] == wordList;
  }

  // ---- quoted words --------------------------------------------------------------------------

  /** What can be written between quotes. */
  predicate Quotable(text: string) {
    '"' !in text && (text == [] || text[|text| - 1] != '\\')
  }

  function Quoted(text: string): string {
    "\"" + text + "\""
  }

  lemma {:induction false} QuoteEnds(text: string, rest: string, j: nat)
    requires Quotable(text) && 0 < j <= |text| + 1
    ensures QuotedLen(Quoted(text) + rest, j) == |text| + 2
    decreases |text| + 1 - j
  {
    var s := Quoted(text) + rest;
    if j <= |text| {
      assert s[j] == text[j - 1] && text[j - 1] in text;
      QuoteEnds(text, rest, j + 1);
    } else {
      assert s[j] == '"' && (text != [] ==> s[j - 1] == text[|text| - 1]);
    }
  }

  lemma WordsQuoted(text: string, rest: string)
    requires Quotable(text)
    ensures Words(Quoted(text) + rest) == [Quoted(text)] + Words(rest)
  {
    QuoteEnds(text, rest, 1);
    var s := Quoted(text) + rest;
    assert s[..|text| + 2] == Quoted(text) && s[|text| + 2..] == rest;
  }

  lemma WordsSingle(c: char, rest: string)
    requires Single(c)
    ensures Words([c] + rest) == [[c]] + Words(rest)
  {
    var s := [c] + rest;
    assert s[..1] == [c] && s[1..] == rest;
  }
}
