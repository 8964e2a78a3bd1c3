/** The code words of ITU-T T.4 for black and white runs, and the code words of a line. */
module T4 {

  /** The runs that have a code word: terminating codes up to 63, make-up codes in steps of 64 from there. */
  predicate IsRun(run: nat) {
    run < 64 || (run % 64 == 0 && run <= 2560)
  }

  /** A code word as a number whose decimal digits are its bits, in their order, behind a leading one. */
  function Word(white: bool, run: nat): nat
    requires IsRun(run)
  {
    if run >= 1792 then LongMakeup(run)
    else if white then (if run < 64 then WhiteTerminating(run) else WhiteMakeup(run))
    else (if run < 64 then BlackTerminating(run) else BlackMakeup(run))
  }

  /** Table 2/T.4, white run lengths. */
  function WhiteTerminating(run: nat): nat
    requires run < 64
  {
    if run < 16 then WhiteTerminating0(run)
    else if run < 32 then WhiteTerminating16(run)
    else if run < 48 then WhiteTerminating32(run)
    else WhiteTerminating48(run)
  }

  function WhiteTerminating0(run: nat): nat
    requires 0 <= run < 16
  {
    match run
    case 0 => 1_00110101 case 1 => 1_000111 case 2 => 1_0111 case 3 => 1_1000 case 4 => 1_1011 case 5 => 1_1100
    case 6 => 1_1110 case 7 => 1_1111 case 8 => 1_10011 case 9 => 1_10100 case 10 => 1_00111 case 11 => 1_01000
    case 12 => 1_001000 case 13 => 1_000011 case 14 => 1_110100 case _ => 1_110101
  }

  function WhiteTerminating16(run: nat): nat
    requires 16 <= run < 32
  {
    match run
    case 16 => 1_101010 case 17 => 1_101011 case 18 => 1_0100111 case 19 => 1_0001100 case 20 => 1_0001000
    case 21 => 1_0010111 case 22 => 1_0000011 case 23 => 1_0000100 case 24 => 1_0101000 case 25 => 1_0101011
    case 26 => 1_0010011 case 27 => 1_0100100 case 28 => 1_0011000 case 29 => 1_00000010 case 30 => 1_00000011
    case _ => 1_00011010
  }

  function WhiteTerminating32(run: nat): nat
    requires 32 <= run < 48
  {
    match run
    case 32 => 1_00011011 case 33 => 1_00010010 case 34 => 1_00010011 case 35 => 1_00010100 case 36 => 1_00010101
    case 37 => 1_00010110 case 38 => 1_00010111 case 39 => 1_00101000 case 40 => 1_00101001 case 41 => 1_00101010
    case 42 => 1_00101011 case 43 => 1_00101100 case 44 => 1_00101101 case 45 => 1_00000100 case 46 => 1_00000101
    case _ => 1_00001010
  }

  function WhiteTerminating48(run: nat): nat
    requires 48 <= run < 64
  {
    match run
    case 48 => 1_00001011 case 49 => 1_01010010 case 50 => 1_01010011 case 51 => 1_01010100 case 52 => 1_01010101
    case 53 => 1_00100100 case 54 => 1_00100101 case 55 => 1_01011000 case 56 => 1_01011001 case 57 => 1_01011010
    case 58 => 1_01011011 case 59 => 1_01001010 case 60 => 1_01001011 case 61 => 1_00110010 case 62 => 1_00110011
    case _ => 1_00110100
  }

  /** Table 2/T.4, black run lengths. */
  function BlackTerminating(run: nat): nat
    requires run < 64
  {
    if run < 16 then BlackTerminating0(run)
    else if run < 32 then BlackTerminating16(run)
    else if run < 48 then BlackTerminating32(run)
    else BlackTerminating48(run)
  }

  function BlackTerminating0(run: nat): nat
    requires 0 <= run < 16
  {
    match run
    case 0 => 1_0000110111 case 1 => 1_010 case 2 => 1_11 case 3 => 1_10 case 4 => 1_011 case 5 => 1_0011
    case 6 => 1_0010 case 7 => 1_00011 case 8 => 1_000101 case 9 => 1_000100 case 10 => 1_0000100
    case 11 => 1_0000101 case 12 => 1_0000111 case 13 => 1_00000100 case 14 => 1_00000111 case _ => 1_000011000
  }

  function BlackTerminating16(run: nat): nat
    requires 16 <= run < 32
  {
    match run
    case 16 => 1_0000010111 case 17 => 1_0000011000 case 18 => 1_0000001000 case 19 => 1_00001100111
    case 20 => 1_00001101000 case 21 => 1_00001101100 case 22 => 1_00000110111 case 23 => 1_00000101000
    case 24 => 1_00000010111 case 25 => 1_00000011000 case 26 => 1_000011001010 case 27 => 1_000011001011
    case 28 => 1_000011001100 case 29 => 1_000011001101 case 30 => 1_000001101000 case _ => 1_000001101001
  }

  function BlackTerminating32(run: nat): nat
    requires 32 <= run < 48
  {
    match run
    case 32 => 1_000001101010 case 33 => 1_000001101011 case 34 => 1_000011010010 case 35 => 1_000011010011
    case 36 => 1_000011010100 case 37 => 1_000011010101 case 38 => 1_000011010110 case 39 => 1_000011010111
    case 40 => 1_000001101100 case 41 => 1_000001101101 case 42 => 1_000011011010 case 43 => 1_000011011011
    case 44 => 1_000001010100 case 45 => 1_000001010101 case 46 => 1_000001010110 case _ => 1_000001010111
  }

  function BlackTerminating48(run: nat): nat
    requires 48 <= run < 64
  {
    match run
    case 48 => 1_000001100100 case 49 => 1_000001100101 case 50 => 1_000001010010 case 51 => 1_000001010011
    case 52 => 1_000000100100 case 53 => 1_000000110111 case 54 => 1_000000111000 case 55 => 1_000000100111
    case 56 => 1_000000101000 case 57 => 1_000001011000 case 58 => 1_000001011001 case 59 => 1_000000101011
    case 60 => 1_000000101100 case 61 => 1_000001011010 case 62 => 1_000001100110 case _ => 1_000001100111
  }

  /** Table 3a/T.4, white run lengths. */
  function WhiteMakeup(run: nat): nat
    requires 64 <= run < 1792 && run % 64 == 0
  {
    if run < 1088 then WhiteMakeup64(run)
    else WhiteMakeup1088(run)
  }

  function WhiteMakeup64(run: nat): nat
    requires 64 <= run < 1088 && run % 64 == 0
  {
    match run
    case 64 => 1_11011 case 128 => 1_10010 case 192 => 1_010111 case 256 => 1_0110111 case 320 => 1_00110110
    case 384 => 1_00110111 case 448 => 1_01100100 case 512 => 1_01100101 case 576 => 1_01101000
    case 640 => 1_01100111 case 704 => 1_011001100 case 768 => 1_011001101 case 832 => 1_011010010
    case 896 => 1_011010011 case 960 => 1_011010100 case _ => 1_011010101
  }

  function WhiteMakeup1088(run: nat): nat
    requires 1088 <= run < 1792 && run % 64 == 0
  {
    match run
    case 1088 => 1_011010110 case 1152 => 1_011010111 case 1216 => 1_011011000 case 1280 => 1_011011001
    case 1344 => 1_011011010 case 1408 => 1_011011011 case 1472 => 1_010011000 case 1536 => 1_010011001
    case 1600 => 1_010011010 case 1664 => 1_011000 case _ => 1_010011011
  }

  /** Table 3a/T.4, black run lengths. */
  function BlackMakeup(run: nat): nat
    requires 64 <= run < 1792 && run % 64 == 0
  {
    if run < 1088 then BlackMakeup64(run)
    else BlackMakeup1088(run)
  }

  function BlackMakeup64(run: nat): nat
    requires 64 <= run < 1088 && run % 64 == 0
  {
    match run
    case 64 => 1_0000001111 case 128 => 1_000011001000 case 192 => 1_000011001001 case 256 => 1_000001011011
    case 320 => 1_000000110011 case 384 => 1_000000110100 case 448 => 1_000000110101 case 512 => 1_0000001101100
    case 576 => 1_0000001101101 case 640 => 1_0000001001010 case 704 => 1_0000001001011 case 768 => 1_0000001001100
    case 832 => 1_0000001001101 case 896 => 1_0000001110010 case 960 => 1_0000001110011 case _ => 1_0000001110100
  }

  function BlackMakeup1088(run: nat): nat
    requires 1088 <= run < 1792 && run % 64 == 0
  {
    match run
    case 1088 => 1_0000001110101 case 1152 => 1_0000001110110 case 1216 => 1_0000001110111
    case 1280 => 1_0000001010010 case 1344 => 1_0000001010011 case 1408 => 1_0000001010100
    case 1472 => 1_0000001010101 case 1536 => 1_0000001011010 case 1600 => 1_0000001011011
    case 1664 => 1_0000001100100 case _ => 1_0000001100101
  }

  /** Table 3b/T.4, the same for both colours. */
  function LongMakeup(run: nat): nat
    requires 1792 <= run <= 2560 && run % 64 == 0
  {
    match run
    case 1792 => 1_00000001000 case 1856 => 1_00000001100 case 1920 => 1_00000001101 case 1984 => 1_000000010010
    case 2048 => 1_000000010011 case 2112 => 1_000000010100 case 2176 => 1_000000010101 case 2240 => 1_000000010110
    case 2304 => 1_000000010111 case 2368 => 1_000000011100 case 2432 => 1_000000011101 case 2496 => 1_000000011110
    case _ => 1_000000011111
  }

  function Digits(word: nat): seq<bool> {
    if word < 10 then [] else Digits(word / 10) + [word % 10 == 1]
  }

  function Code(white: bool, run: nat): seq<bool>
    requires IsRun(run)
  {
    Digits(Word(white, run))
  }

  /** The longest run with a make-up code that is not above the given one. */
  function MakeUp(run: nat): (made: nat)
    requires run >= 64
    ensures 64 <= made <= run && IsRun(made)
  {
    if run >= 2560 then 2560 else run - run % 64
  }

  /** A run of any length as make-up codes, as far as needed, and a terminating code. */
  function Parts(run: nat): (parts: seq<nat>)
    ensures AllRuns(parts)
  {
    if run < 64 then [run] else [MakeUp(run)] + Parts(run - MakeUp(run))
  }

  predicate AllRuns(parts: seq<nat>) {
    forall run | run in parts :: IsRun(run)
  }

  function LineParts(runs: seq<nat>): (parts: seq<nat>)
    ensures AllRuns(parts)
  {
    if runs == [] then [] else Parts(runs[0]) + LineParts(runs[1..])
  }

  /** The colour changes with a terminating code. */
  function Codes(white: bool, parts: seq<nat>): seq<seq<bool>>
    requires AllRuns(parts)
    decreases |parts|
  {
    if parts == [] then []
    else [Code(white, parts[0])] + Codes(if parts[0] < 64 then !white else white, parts[1..])
  }

  /** The code words of runs in alternating colours, white first. */
  function CodesOfLine(runs: seq<nat>): seq<seq<bool>> {
    Codes(true, LineParts(runs))
  }

  function Dots(runs: seq<nat>): nat {
    if runs == [] then 0 else runs[0] + Dots(runs[1..])
  }
}
