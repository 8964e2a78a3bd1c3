/** Lines given by their runs, coded as T.4 says, through the program's own code trees. */
module T4Lines {
  import opened Bits
  import opened HufTree
  import opened HufTables
  import opened HufMachine
  import opened HufLine
  import opened HufPage
  import opened T4
  import opened T4Tables

  // ---- code words and runs -------------------------------------------------------------------

  /** The run lengths that code words stand for. */
  function Lengths(ts: Trees, white: bool, codes: seq<seq<bool>>): seq<nat>
    requires IsLine(ts, white, codes)
    decreases |codes|
  {
    if codes == [] then []
    else [RunLength(ts.Of(white), 0, codes[0])] + Lengths(ts, ColourAfter(ts, white, codes[0]), codes[1..])
  }

  lemma {:induction false} WidthOfLengths(ts: Trees, white: bool, codes: seq<seq<bool>>)
    requires IsLine(ts, white, codes)
    ensures Width(ts, white, codes) == Dots(Lengths(ts, white, codes))
    decreases |codes|
  {
    if codes != [] {
      WidthOfLengths(ts, ColourAfter(ts, white, codes[0]), codes[1..]);
      assert Lengths(ts, white, codes)[1..] == Lengths(ts, ColourAfter(ts, white, codes[0]), codes[1..]);
    }
  }

  lemma WordAhead(white: bool, w: seq<bool>, codes: seq<seq<bool>>)
    requires IsCode(HufTrees.Of(white), 0, w) && IsLine(HufTrees, ColourAfter(HufTrees, white, w), codes)
    ensures IsLine(HufTrees, white, [w] + codes)
    ensures Lengths(HufTrees, white, [w] + codes)
         == [RunLength(HufTrees.Of(white), 0, w)] + Lengths(HufTrees, ColourAfter(HufTrees, white, w), codes)
  {
    assert ([w] + codes)[1..] == codes;
  }

  /** Code words of T.4 are a line of the program's trees, and stand for what they are the code words of. */
  lemma {:induction false} CodesAreALine(white: bool, parts: seq<nat>)
    requires AllRuns(parts)
    ensures IsLine(HufTrees, white, Codes(white, parts)) && Lengths(HufTrees, white, Codes(white, parts)) == parts
    decreases |parts|
  {
    if parts != [] {
      var next := if parts[0] < 64 then !white else white;
      CodesAreALine(next, parts[1..]);
      CodeOfRun(white, parts[0]);
      WordAhead(white, Code(white, parts[0]), Codes(next, parts[1..]));
      assert parts == [parts[0]] + parts[1..];
    }
  }

  /** Make-up codes and the terminating code behind them are one run; `open` dots have been made up before. */
  function Merged(parts: seq<nat>, open: nat): seq<nat>
    decreases |parts|
  {
    if parts == [] then []
    else if parts[0] < TCLIM then [open + parts[0]] + Merged(parts[1..], 0)
    else Merged(parts[1..], open + parts[0])
  }

  lemma {:induction false} PartsMerge(run: nat, rest: seq<nat>, open: nat)
    ensures Merged(Parts(run) + rest, open) == [open + run] + Merged(rest, 0)
    ensures Dots(Parts(run) + rest) == run + Dots(rest)
    decreases run
  {
    var all := Parts(run) + rest;
    if run < 64 {
      assert all[1..] == rest;
    } else {
      assert all[1..] == Parts(run - MakeUp(run)) + rest;
      PartsMerge(run - MakeUp(run), rest, open + MakeUp(run));
    }
  }

  lemma {:induction false} LineMerges(runs: seq<nat>)
    ensures Merged(LineParts(runs), 0) == runs && Dots(LineParts(runs)) == Dots(runs)
  {
    if runs != [] {
      LineMerges(runs[1..]);
      PartsMerge(runs[0], LineParts(runs[1..]), 0);
      assert runs == [runs[0]] + runs[1..];
    }
  }

  /** The code words of any runs are a line of the program's trees, as wide as the runs are together, and they
      give the runs back. */
  lemma RunsAreALine(runs: seq<nat>)
    ensures IsLine(HufTrees, true, CodesOfLine(runs))
    ensures Width(HufTrees, true, CodesOfLine(runs)) == Dots(runs)
    ensures Merged(Lengths(HufTrees, true, CodesOfLine(runs)), 0) == runs
  {
    CodesAreALine(true, LineParts(runs));
    WidthOfLengths(HufTrees, true, CodesOfLine(runs));
    LineMerges(runs);
  }

  /** A line of any runs is converted: its dots are counted, and its code bits are the contents of the one record
      that its end writes. */
  lemma RunsConvert(m: Machine, runs: seq<nat>, fill: nat)
    requires Fresh(m) && fill >= 11
    ensures BothWellFormed(HufTrees) && Ok(HufTrees, m)
    ensures Run(HufTrees, m, Flat(CodesOfLine(runs))).0.run1 == Dots(runs)
    ensures var (m', rs) := Run(HufTrees, m, Flat(CodesOfLine(runs)) + Zeros(fill) + [true]);
            && Fresh(m') && |rs| == 1 && rs[0].Line? && IsPayload(rs[0].data, Flat(CodesOfLine(runs)))
  {
    TablesWellFormed();
    RunsAreALine(runs);
    LineConverts(HufTrees, m, CodesOfLine(runs), fill);
  }

  // ---- what a coded page says ----------------------------------------------------------------

  /** A line of dots, and the fill before its end-of-line code. */
  datatype DotLine = DotLine(runs: seq<nat>, fill: nat)

  function Coded(lines: seq<DotLine>): seq<CodedLine> {
    seq(|lines|, (i: nat) requires i < |lines| => CodedLine(CodesOfLine(lines[i].runs), lines[i].fill))
  }

  predicate Filled(lines: seq<DotLine>) {
    forall l | l in lines :: l.fill >= 11
  }

  lemma CodedAreLines(lines: seq<DotLine>)
    requires Filled(lines)
    ensures AllLines(HufTrees, Coded(lines))
  {
    forall l | l in Coded(lines)
      ensures IsLine(HufTrees, true, l.codes) && l.fill >= 11
    {
      var i :| 0 <= i < |lines| && Coded(lines)[i] == l;
      assert lines[i] in lines;
      RunsAreALine(lines[i].runs);
    }
  }

  /** The bits of a page say how its lines were drawn: no two pages of dots are coded alike. */
  lemma PagesDiffer(a: seq<DotLine>, b: seq<DotLine>)
    requires Filled(a) && Filled(b) && LineStream(Coded(a)) == LineStream(Coded(b))
    ensures a == b
  {
    TablesWellFormed();
    CodedAreLines(a);
    CodedAreLines(b);
    DecodesUniquely(HufTrees, Coded(a), Coded(b));
    assert |a| == |Coded(a)| == |b|;
    forall i | 0 <= i < |a|
      ensures a[i] == b[i]
    {
      assert Coded(a)[i] == Coded(b)[i];
      RunsAreALine(a[i].runs);
      RunsAreALine(b[i].runs);
    }
  }
}
