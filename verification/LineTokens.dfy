/** What a configuration line is made of: every line is a row of tokens, and its words are theirs. */
module LineTokens {
  import opened LineParser

  /** Blanks, signs of one character, texts between quotes or behind a quote that is never closed, plain texts, and a
      comment at the end. */
  datatype Token =
    | Gap(c: char) | Sign(c: char) | Quote(text: string) | Unclosed(text: string) | Plain(text: string)
    | Comment(text: string)

  function Spelling(t: Token): string {
    match t
    case Gap(c) => [c]
    case Sign(c) => [c]
    case Quote(text) => "\"" + text + "\""
    case Unclosed(text) => "\"" + text
    case Plain(text) => text
    case Comment(text) => "#" + text
  }

  predicate AfterBackslash(text: string, j: nat)
    requires j < |text|
  {
    j > 0 && text[j - 1] == '\\'
  }

  /** Every quotation mark has a backslash before it. */
  predicate Escaped(text: string) {
    forall j | 0 <= j < |text| :: text[j] == '"' ==> AfterBackslash(text, j)
  }

  /** So has every delimiter behind the first character. */
  predicate Together(text: string) {
    forall j :: 1 <= j < |text| ==> Delimiter(text[j]) ==> text[j - 1] == '\\'
  }

  predicate EndsEscaped(text: string) {
    text != [] && text[|text| - 1] == '\\'
  }

  predicate IsToken(t: Token) {
    match t
    case Gap(c) => Blank(c)
    case Sign(c) => Single(c)
    case Quote(text) => Escaped(text) && !EndsEscaped(text)
    case Unclosed(text) => Escaped(text)
    case Plain(text) =>
      text != [] && !Blank(text[0]) && !Single(text[0]) && text[0] != '"' && text[0] != '#' && Together(text)
    case Comment(_) => true
  }

  /** What may stand behind a token. */
  predicate MayPrecede(t: Token, rest: string) {
    match t
    case Plain(text) => rest == [] || (Delimiter(rest[0]) && !EndsEscaped(text))
    case Unclosed(_) => rest == []
    case Comment(_) => rest == []
    case _ => true
  }

  /** A row of tokens that spells a line. */
  predicate Spells(tokens: seq<Token>, line: string)
    decreases |tokens|
  {
    if tokens == [] then line == []
    else
      && IsToken(tokens[0])
      && var n := |Spelling(tokens[0])|;
         && n <= |line| && line[..n] == Spelling(tokens[0])
         && MayPrecede(tokens[0], line[n..]) && Spells(tokens[1..], line[n..])
  }

  /** The words: all but the blanks. */
  function WordsOf(tokens: seq<Token>): seq<string>
    requires forall i :: 0 <= i < |tokens| ==> IsToken(tokens[i])
  {
    if tokens == [] then []
    else (if tokens[0].Gap? then [] else [Spelling(tokens[0])]) + WordsOf(tokens[1..])
  }

  lemma {:induction false} SpellsTokens(tokens: seq<Token>, line: string)
    requires Spells(tokens, line)
    ensures forall i :: 0 <= i < |tokens| ==> IsToken(tokens[i])
    decreases |tokens|
  {
    if tokens != [] {
      SpellsTokens(tokens[1..], line[|Spelling(tokens[0])|..]);
      assert forall i :: 1 <= i < |tokens| ==> tokens[i] == tokens[1..][i - 1];
    }
  }

  lemma {:induction false} PlainEnds(s: string, n: nat, j: nat)
    requires 0 < j <= n <= |s| && (forall k :: j <= k < n ==> Delimiter(s[k]) ==> s[k - 1] == '\\')
    requires n == |s| || (Delimiter(s[n]) && s[n - 1] != '\\')
    ensures PlainLen(s, j) == n
    decreases n - j
  {
    if j < n {
      PlainEnds(s, n, j + 1);
    }
  }

  /** The text behind an opening quote, up to the end of a quoted word. */
  lemma {:induction false} QuotedEnds(s: string, n: nat, j: nat)
    requires 0 < j <= n <= |s| && (forall k :: j <= k < n ==> s[k] == '"' ==> s[k - 1] == '\\')
    requires n == |s| || (s[n] == '"' && s[n - 1] != '\\')
    ensures QuotedLen(s, j) == if n == |s| then n else n + 1
    decreases n - j
  {
    if j < n {
      QuotedEnds(s, n, j + 1);
    }
  }

  lemma QuoteWord(s: string, t: Token)
    requires IsToken(t) && (t.Quote? || t.Unclosed?) && |Spelling(t)| <= |s| && s[..|Spelling(t)|] == Spelling(t)
    requires MayPrecede(t, s[|Spelling(t)|..])
    ensures WordLen(s) == |Spelling(t)|
  {
    var n, w := |t.text| + 1, Spelling(t);
    assert forall k :: 0 <= k < |w| ==> s[k] == w[k];
    forall k | 0 <= k < |t.text|
      ensures s[k + 1] == t.text[k]
    {
      assert s[k + 1] == w[k + 1];
    }
    forall k | 1 <= k < n && s[k] == '"'
      ensures s[k - 1] == '\\'
    {
      EscapedAt(s, t.text, k - 1);
    }
    QuotedEnds(s, n, 1);
  }

  lemma EscapedAt(s: string, text: string, k: nat)
    requires Escaped(text) && k < |text| < |s| && s[k + 1] == '"' && forall j :: 0 <= j < |text| ==> s[j + 1] == text[j]
    ensures s[k] == '\\'
  {
    assert s[k + 1] == text[k] == '"' && AfterBackslash(text, k);
    assert s[k - 1 + 1] == text[k - 1];
  }

  lemma FirstWord(s: string, t: Token)
    requires IsToken(t) && !t.Gap? && |Spelling(t)| <= |s| && s[..|Spelling(t)|] == Spelling(t)
    requires MayPrecede(t, s[|Spelling(t)|..])
    ensures s != [] && !Blank(s[0]) && WordLen(s) == |Spelling(t)|
  {
    assert forall k :: 0 <= k < |Spelling(t)| ==> s[k] == Spelling(t)[k];
    if t.Plain? {
      PlainEnds(s, |t.text|, 1);
    } else if t.Quote? || t.Unclosed? {
      QuoteWord(s, t);
    }
  }

  /** The words of a line are those of the tokens that spell it. */
  lemma {:induction false} LineReads(tokens: seq<Token>, line: string)
    requires Spells(tokens, line)
    ensures forall i :: 0 <= i < |tokens| ==> IsToken(tokens[i])
    ensures Words(line) == WordsOf(tokens)
    decreases |tokens|
  {
    SpellsTokens(tokens, line);
    if tokens != [] {
      var t := tokens[0];
      LineReads(tokens[1..], line[|Spelling(t)|..]);
      if t.Gap? {
        assert line[0] == line[..1][0];
      } else {
        FirstWord(line, t);
      }
    }
  }

  // ---- every line is such a row --------------------------------------------------------------

  lemma {:induction false} PlainStops(s: string, j: nat)
    requires 0 < j <= |s|
    ensures var n := PlainLen(s, j);
            && (forall k :: j <= k < n ==> Delimiter(s[k]) ==> s[k - 1] == '\\')
            && (n == |s| || (Delimiter(s[n]) && s[n - 1] != '\\'))
    decreases |s| - j
  {
    if !(j == |s| || (Delimiter(s[j]) && s[j - 1] != '\\')) {
      PlainStops(s, j + 1);
    }
  }

  /** Where a quoted text ends, not counting the mark that closes it. */
  function QuoteAt(s: string, j: nat): (n: nat)
    requires 0 < j <= |s|
    ensures j <= n <= |s|
    ensures forall k :: j <= k < n ==> s[k] == '"' ==> s[k - 1] == '\\'
    ensures n == |s| || (s[n] == '"' && s[n - 1] != '\\')
    decreases |s| - j
  {
    if j == |s| || (s[j] == '"' && s[j - 1] != '\\') then j else QuoteAt(s, j + 1)
  }

  function FirstToken(s: string): Token
    requires s != []
  {
    if Blank(s[0]) then Gap(s[0])
    else if s[0] == '"' then
      var n := QuoteAt(s, 1);
      if n == |s| then Unclosed(s[1..]) else Quote(s[1..n])
    else if Single(s[0]) then Sign(s[0])
    else if s[0] == '#' then Comment(s[1..])
    else Plain(s[..PlainLen(s, 1)])
  }

  lemma QuoteFits(s: string)
    requires s != [] && s[0] == '"'
    ensures var t := FirstToken(s);
            && IsToken(t)
            && |Spelling(t)| <= |s| && s[..|Spelling(t)|] == Spelling(t) && MayPrecede(t, s[|Spelling(t)|..])
  {
    var n := QuoteAt(s, 1);
    assert forall j :: 0 <= j < n - 1 ==> s[1..n][j] == s[j + 1];
    assert s[..n] == "\"" + s[1..n];
    if n < |s| {
      assert s[..n + 1] == s[..n] + "\"";
    }
  }

  lemma FirstTokenFits(s: string)
    requires s != []
    ensures var t := FirstToken(s);
            && IsToken(t)
            && |Spelling(t)| <= |s| && s[..|Spelling(t)|] == Spelling(t) && MayPrecede(t, s[|Spelling(t)|..])
  {
    if s[0] == '"' {
      QuoteFits(s);
    } else if FirstToken(s).Plain? {
      PlainStops(s, 1);
    }
  }

  /** There is a row of tokens for every line, so that the grammar says of each what its words are. */
  lemma {:induction false} EveryLineIsSpelled(s: string) returns (tokens: seq<Token>)
    ensures Spells(tokens, s)
    decreases |s|
  {
    if s == [] {
      tokens := [];
    } else {
      var t := FirstToken(s);
      FirstTokenFits(s);
      var rest := EveryLineIsSpelled(s[|Spelling(t)|..]);
      tokens := [t] + rest;
      assert tokens[1..] == rest;
    }
  }
}
