/**
 * The command-line finalisation of a finished game, and the integer-option
 * helpers of the command line: JavaScript's parseInt, customParseInt and
 * toIntArray.
 */
module Cli {
  import opened Text

  // ---------------------------------------------------------------------------
  // The terminal-event decision of finalize
  // ---------------------------------------------------------------------------

  /**
   * The phases of a game. Only the two terminal phases matter here; the names
   * of the others stand for the shared Phase enumeration, which this model
   * does not include.
   */
  datatype Phase = NewRound | Events | Invest | Trade | Purchase | Discard | Defeat | Victory

  predicate IsTerminal(p: Phase)
  {
    p == Defeat || p == Victory
  }

  /** What finalize reads of the state the replayer reconstructs from the stored events. */
  datatype EndState = EndState(phase: Phase, systemHealth: int, round: int, maxRound: int)

  datatype TerminalEvent = EnteredDefeatPhase | EnteredVictoryPhase

  /** What finalize decides to do with a replayed game. */
  datatype Decision = NothingToDo | Emit(event: TerminalEvent) | Refuse

  function FinalizeDecision(s: EndState): Decision
  {
    if IsTerminal(s.phase) then NothingToDo
    else if s.systemHealth <= 0 then Emit(EnteredDefeatPhase)
    else if s.round >= s.maxRound then Emit(EnteredVictoryPhase)
    else Refuse
  }

  /** The phase a terminal event enters once it is applied. */
  function EnteredPhase(e: TerminalEvent): (p: Phase)
    ensures IsTerminal(p)
  {
    match e
    case EnteredDefeatPhase => Defeat
    case EnteredVictoryPhase => Victory
  }

  /**
   * The three outcomes of the decision, each with the exact condition that
   * leads to it: a game already in a terminal phase is left alone; health at
   * or below 0 gives a defeat event, even when the last round is also reached;
   * otherwise reaching the last round gives a victory event; any other game is
   * refused.
   */
  lemma FinalizeDecisionCases(s: EndState)
    ensures FinalizeDecision(s) == NothingToDo <==> IsTerminal(s.phase)
    ensures FinalizeDecision(s) == Emit(EnteredDefeatPhase) <==> !IsTerminal(s.phase) && s.systemHealth <= 0
    ensures FinalizeDecision(s) == Emit(EnteredVictoryPhase) <==>
      !IsTerminal(s.phase) && s.systemHealth > 0 && s.round >= s.maxRound
    ensures FinalizeDecision(s) == Refuse <==> !IsTerminal(s.phase) && s.systemHealth > 0 && s.round < s.maxRound
  {
  }

  /**
   * Finalizing is idempotent: once the emitted event has been applied, a
   * second finalize of the same game finds it terminal and does nothing.
   */
  lemma FinalizeIsIdempotent(s: EndState)
    requires FinalizeDecision(s).Emit?
    ensures FinalizeDecision(s.(phase := EnteredPhase(FinalizeDecision(s).event))) == NothingToDo
  {
  }

  /** The outcome of one run of finalize. */
  datatype FinalizeOutcome =
    | Unchanged
    | Persisted(gameEvents: seq<TerminalEvent>)
    | Exited(status: int)

  /**
   * finalize: on a game not yet in a terminal phase, push the terminal event
   * it is missing onto gameEvents and persist them, or exit with status 1
   * when the game is not over. The persister and the process exit are its
   * outputs.
   */
  method FinalizeGame(gameState: EndState) returns (outcome: FinalizeOutcome)
    ensures outcome == Unchanged <==> FinalizeDecision(gameState) == NothingToDo
    ensures outcome == Exited(1) <==> FinalizeDecision(gameState) == Refuse
    ensures outcome.Persisted? <==> FinalizeDecision(gameState).Emit?
    ensures outcome.Persisted? ==> outcome.gameEvents == [FinalizeDecision(gameState).event]
  {
    if IsTerminal(gameState.phase) {
      return Unchanged;
    }
    var gameEvents: seq<TerminalEvent> := [];
    if gameState.systemHealth <= 0 {
      gameEvents := gameEvents + [EnteredDefeatPhase];
    } else if gameState.round >= gameState.maxRound {
      gameEvents := gameEvents + [EnteredVictoryPhase];
    } else {
      return Exited(1);
    }
    outcome := Persisted(gameEvents);
  }

  // ---------------------------------------------------------------------------
  // parseInt
  // ---------------------------------------------------------------------------

  /** A Number produced by parseInt: NaN or an integer. */
  datatype ParsedNumber = NaN | Int(value: int)

  /** The value of a digit in radices up to 36, and 36 for a character that is no digit in any. */
  function DigitValue(c: char): (v: nat)
    ensures v <= 36
    ensures v < 10 <==> IsDecimalDigit(c)
  {
    if '0' <= c <= '9' then c as int - '0' as int
    else if 'a' <= c <= 'z' then c as int - 'a' as int + 10
    else if 'A' <= c <= 'Z' then c as int - 'A' as int + 10
    else 36
  }

  /** The longest prefix of s made of digits of the radix. */
  function DigitPrefix(s: string, radix: nat): (d: string)
    ensures d <= s
    ensures forall i :: 0 <= i < |d| ==> DigitValue(d[i]) < radix
    ensures |d| < |s| ==> DigitValue(s[|d|]) >= radix
  {
    if s == [] || DigitValue(s[0]) >= radix then [] else [s[0]] + DigitPrefix(s[1..], radix)
  }

  /** The number a digit string denotes in the radix, most significant digit first. */
  function DigitsValue(d: string, radix: nat): nat
  {
    if d == [] then 0 else DigitsValue(d[..|d| - 1], radix) * radix + DigitValue(d[|d| - 1])
  }

  /**
   * parseInt(input, radix), following section 19.2.5 of ECMAScript: skip
   * leading white space, take one sign, choose the radix (0 means 10, or 16
   * after a 0x/0X prefix, which radix 16 also strips), then read the longest
   * run of digits; with no digit the result is NaN. `radix` is the radix
   * after its conversion to a 32-bit integer.
   */
  function ParseIntRadix(input: string, radix: int): ParsedNumber
  {
    ParseTrimmed(TrimStart(input), radix)
  }

  /** parseInt after the leading white space: the sign, then the radix check, then the digits. */
  function ParseTrimmed(trimmed: string, radix: int): ParsedNumber
  {
    if radix != 0 && (radix < 2 || radix > 36) then NaN
    else Signed(trimmed != [] && trimmed[0] == '-', ParseUnsigned(WithoutSign(trimmed), radix))
  }

  /** The text after one leading + or -. */
  function WithoutSign(trimmed: string): string
  {
    if trimmed != [] && (trimmed[0] == '+' || trimmed[0] == '-') then trimmed[1..] else trimmed
  }

  function Signed(negative: bool, magnitude: ParsedNumber): ParsedNumber
  {
    match magnitude
    case NaN => NaN
    case Int(v) => if negative then Int(-v) else Int(v)
  }

  /** Whether the radix is taken from a 0x/0X prefix: with radix 0 or 16 only. */
  predicate HasHexPrefix(unsigned: string, radix: int)
  {
    (radix == 0 || radix == 16) && |unsigned| >= 2 && unsigned[0] == '0' && (unsigned[1] == 'x' || unsigned[1] == 'X')
  }

  /** The unsigned part: the radix chosen, the longest run of its digits read, NaN if there is none. */
  function ParseUnsigned(unsigned: string, radix: int): ParsedNumber
    requires radix == 0 || 2 <= radix <= 36
  {
    var hex := HasHexPrefix(unsigned, radix);
    var r: nat := if hex then 16 else if radix == 0 then 10 else radix;
    var digits := DigitPrefix(if hex then unsigned[2..] else unsigned, r);
    if digits == [] then NaN else Int(DigitsValue(digits, r))
  }

  /** parseInt(input), with no radix. */
  function ParseInt(input: string): ParsedNumber
  {
    ParseIntRadix(input, 0)
  }

  lemma {:induction false} AllDigitsArePrefix(s: string, radix: nat)
    requires forall i :: 0 <= i < |s| ==> DigitValue(s[i]) < radix
    ensures DigitPrefix(s, radix) == s
  {
    if s != [] {
      assert forall i :: 0 <= i < |s[1..]| ==> DigitValue(s[1..][i]) < radix by {
        forall i | 0 <= i < |s[1..]| ensures DigitValue(s[1..][i]) < radix { assert s[1..][i] == s[i + 1]; }
      }
      AllDigitsArePrefix(s[1..], radix);
    }
  }

  /** Reading digits stops at the first character that is not one. */
  lemma {:induction false} DigitPrefixStops(d: string, rest: string, radix: nat)
    requires forall i :: 0 <= i < |d| ==> DigitValue(d[i]) < radix
    requires rest == [] || DigitValue(rest[0]) >= radix
    ensures DigitPrefix(d + rest, radix) == d
  {
    if d == [] {
      assert d + rest == rest;
    } else {
      assert (d + rest)[1..] == d[1..] + rest;
      assert forall i :: 0 <= i < |d[1..]| ==> DigitValue(d[1..][i]) < radix by {
        forall i | 0 <= i < |d[1..]| ensures DigitValue(d[1..][i]) < radix { assert d[1..][i] == d[i + 1]; }
      }
      DigitPrefixStops(d[1..], rest, radix);
    }
  }

  /** The decimal value of `${n}` is n. */
  lemma {:induction false} DecimalValueOfNatToString(n: nat)
    ensures DigitsValue(NatToString(n), 10) == n
  {
    var s := NatToString(n);
    if n >= 10 {
      DecimalValueOfNatToString(n / 10);
      assert s[..|s| - 1] == NatToString(n / 10);
      assert s[|s| - 1] == DigitChar(n % 10);
    }
  }

  lemma DecimalDigitsOfNatToString(n: nat)
    ensures forall i :: 0 <= i < |NatToString(n)| ==> DigitValue(NatToString(n)[i]) < 10
  {
  }

  /** The unsigned decimal reading of `${n}` followed by text that starts with no digit. */
  lemma ParseUnsignedDecimal(n: nat, rest: string)
    requires rest == [] || !IsDecimalDigit(rest[0])
    requires n == 0 ==> rest == [] || (rest[0] != 'x' && rest[0] != 'X')
    ensures ParseUnsigned(NatToString(n) + rest, 0) == Int(n)
  {
    var s := NatToString(n);
    var t := s + rest;
    assert !HasHexPrefix(t, 0) by {
      if |t| >= 2 && t[0] == '0' {
        if |s| >= 2 { assert t[1] == s[1]; assert IsDecimalDigit(s[1]); }
        else { assert t[1] == rest[0]; }
      }
    }
    DecimalDigitsOfNatToString(n);
    DigitPrefixStops(s, rest, 10);
    DecimalValueOfNatToString(n);
  }

  /** What a numeral starting with a digit reads as, sign and white space aside. */
  lemma ParseIntOfUnsigned(t: string)
    requires t != [] && IsDecimalDigit(t[0])
    ensures ParseInt(t) == ParseUnsigned(t, 0)
  {
    assert !IsJsWhitespace(t[0]);
    assert TrimStart(t) == t;
    assert ParseInt(t) == ParseTrimmed(t, 0);
    assert t[0] != '-' && t[0] != '+';
    assert WithoutSign(t) == t;
    var m := ParseUnsigned(t, 0);
    assert ParseTrimmed(t, 0) == Signed(false, m);
    assert Signed(false, m) == m by {
      match m
      case NaN =>
      case Int(v) =>
    }
  }

  /** parseInt reads back the decimal rendering of every natural number. */
  lemma ParseIntReadsDecimal(n: nat)
    ensures ParseInt(NatToString(n)) == Int(n)
  {
    var s := NatToString(n);
    assert s + [] == s;
    ParseUnsignedDecimal(n, []);
    ParseIntOfUnsigned(s);
  }

  /** A leading minus sign negates the value. */
  lemma ParseIntReadsNegative(n: nat)
    ensures ParseInt("-" + NatToString(n)) == Int(-(n as int))
  {
    var s := NatToString(n);
    var t := "-" + s;
    assert t[0] == '-' && !IsJsWhitespace(t[0]);
    assert TrimStart(t) == t;
    assert WithoutSign(t) == s + [] by { assert t[1..] == s; }
    ParseUnsignedDecimal(n, []);
  }

  lemma {:induction false} TrimStartSkipsWhitespace(ws: string, s: string)
    requires forall i :: 0 <= i < |ws| ==> IsJsWhitespace(ws[i])
    ensures TrimStart(ws + s) == TrimStart(s)
  {
    if ws != [] {
      assert (ws + s)[1..] == ws[1..] + s;
      assert forall i :: 0 <= i < |ws[1..]| ==> IsJsWhitespace(ws[1..][i]) by {
        forall i | 0 <= i < |ws[1..]| ensures IsJsWhitespace(ws[1..][i]) { assert ws[1..][i] == ws[i + 1]; }
      }
      TrimStartSkipsWhitespace(ws[1..], s);
    } else {
      assert ws + s == s;
    }
  }

  /** Leading white space does not change what parseInt reads, in any radix. */
  lemma ParseIntSkipsLeadingWhitespace(ws: string, s: string, radix: int)
    requires forall i :: 0 <= i < |ws| ==> IsJsWhitespace(ws[i])
    ensures ParseIntRadix(ws + s, radix) == ParseIntRadix(s, radix)
  {
    TrimStartSkipsWhitespace(ws, s);
  }

  /**
   * parseInt stops at the first character that is no decimal digit: a numeral
   * followed by anything else reads as the numeral ("12px" is 12), except that
   * "0" followed by x or X starts a hexadecimal number instead.
   */
  lemma ParseIntIgnoresTrailingText(n: nat, rest: string)
    requires rest == [] || !IsDecimalDigit(rest[0])
    requires n == 0 ==> rest == [] || (rest[0] != 'x' && rest[0] != 'X')
    ensures ParseInt(NatToString(n) + rest) == Int(n)
  {
    var t := NatToString(n) + rest;
    assert t[0] == NatToString(n)[0];
    ParseIntOfUnsigned(t);
    ParseUnsignedDecimal(n, rest);
  }

  /** With no digit after the white space and no sign, parseInt gives NaN. */
  lemma ParseIntWithoutDigitsIsNaN(s: string)
    requires var t := TrimStart(s); t == [] || (!IsDecimalDigit(t[0]) && t[0] != '+' && t[0] != '-')
    ensures ParseInt(s) == NaN
  {
  }

  /** A 0x or 0X prefix switches parseInt to hexadecimal: "0x1A" is 26. */
  lemma ParseIntReadsHexPrefix(x: char, digits: string)
    requires x == 'x' || x == 'X'
    requires digits != [] && forall i :: 0 <= i < |digits| ==> DigitValue(digits[i]) < 16
    ensures ParseInt(['0', x] + digits) == Int(DigitsValue(digits, 16))
  {
    var t := ['0', x] + digits;
    assert t[0] == '0' && t[1] == x;
    assert TrimStart(t) == t;
    assert WithoutSign(t) == t;
    assert HasHexPrefix(t, 0);
    assert t[2..] == digits;
    AllDigitsArePrefix(digits, 16);
  }

  // ---------------------------------------------------------------------------
  // The option helpers
  // ---------------------------------------------------------------------------

  /**
   * customParseInt: parseInt of the value alone. Commander passes an option's
   * default as the second argument, and that argument is ignored.
   */
  function CustomParseInt(value: string, ignored: int): ParsedNumber
  {
    ParseInt(value)
  }

  /** customParseInt reads every decimal numeral in base 10, whatever default commander passes. */
  lemma CustomParseIntIsDecimal(n: nat, ignored: int)
    ensures CustomParseInt(NatToString(n), ignored) == Int(n)
  {
    ParseIntReadsDecimal(n);
  }

  /** With an explicit radix and no 0x prefix, a run of the radix's digits reads in that radix. */
  lemma ParseUnsignedReadsDigits(digits: string, radix: int)
    requires 2 <= radix <= 36 && digits != [] && !HasHexPrefix(digits, radix)
    requires forall i :: 0 <= i < |digits| ==> DigitValue(digits[i]) < radix
    ensures ParseUnsigned(digits, radix) == Int(DigitsValue(digits, radix))
  {
    AllDigitsArePrefix(digits, radix);
  }

  /**
   * parseInt with an option's default of 12 passed on as the radix: every
   * decimal numeral is read in base 12.
   */
  lemma ParseIntRadixTwelve(numeral: string)
    requires numeral != [] && forall i :: 0 <= i < |numeral| ==> IsDecimalDigit(numeral[i])
    ensures ParseIntRadix(numeral, 12) == Int(DigitsValue(numeral, 12))
  {
    assert TrimStart(numeral) == numeral;
    assert WithoutSign(numeral) == numeral;
    assert !HasHexPrefix(numeral, 12) by {
      if |numeral| >= 2 { assert IsDecimalDigit(numeral[1]); }
    }
    forall i | 0 <= i < |numeral| ensures DigitValue(numeral[i]) < 12 {
      assert IsDecimalDigit(numeral[i]);
    }
    ParseUnsignedReadsDigits(numeral, 12);
  }

  /**
   * What customParseInt avoids: with a default of 12 passed on as the radix,
   * "12" would read as 14.
   */
  lemma DefaultAsRadixMisreads()
    ensures ParseIntRadix(NatToString(12), 12) == Int(14)
    ensures CustomParseInt(NatToString(12), 12) == Int(12)
  {
    var s := NatToString(12);
    assert s == [DigitChar(1), DigitChar(2)] by {
      assert NatToString(1) == [DigitChar(1)];
    }
    assert s[..1] == [DigitChar(1)];
    assert [DigitChar(1)][..0] == [];
    assert DigitsValue(s, 12) == 14;
    ParseIntRadixTwelve(s);
    ParseIntReadsDecimal(12);
  }

  /** toIntArray: the values parsed so far, with the parsed value appended. */
  function ToIntArray(value: string, previous: seq<ParsedNumber>): (r: seq<ParsedNumber>)
    ensures |r| == |previous| + 1
    ensures r[..|previous|] == previous
    ensures r[|previous|] == ParseInt(value)
  {
    previous + [ParseInt(value)]
  }

  /**
   * The list commander builds for a repeated option: toIntArray applied to
   * each value in turn, starting from the empty list.
   */
  function CollectInts(values: seq<string>): seq<ParsedNumber>
  {
    if values == [] then [] else ToIntArray(values[|values| - 1], CollectInts(values[..|values| - 1]))
  }

  /** The collected list has one entry per value given. */
  lemma {:induction false} CollectIntsLength(values: seq<string>)
    ensures |CollectInts(values)| == |values|
  {
    if values != [] {
      CollectIntsLength(values[..|values| - 1]);
    }
  }

  /** Collecting one more value appends that value, parsed. */
  lemma CollectIntsSnoc(values: seq<string>)
    requires values != []
    ensures CollectInts(values) == CollectInts(values[..|values| - 1]) + [ParseInt(values[|values| - 1])]
  {
    var previous := CollectInts(values[..|values| - 1]);
    assert ToIntArray(values[|values| - 1], previous) == previous + [ParseInt(values[|values| - 1])];
  }

  /** The entry at position i of the collected list is the i-th value, parsed. */
  lemma {:induction false} CollectIntsAt(values: seq<string>, i: nat)
    requires i < |values|
    ensures i < |CollectInts(values)| && CollectInts(values)[i] == ParseInt(values[i])
  {
    var init, last := values[..|values| - 1], values[|values| - 1];
    CollectIntsSnoc(values);
    CollectIntsLength(init);
    var previous := CollectInts(init);
    assert CollectInts(values) == previous + [ParseInt(last)];
    if i < |init| {
      CollectIntsAt(init, i);
      assert values[i] == init[i];
      assert (previous + [ParseInt(last)])[i] == previous[i] == ParseInt(init[i]);
    } else {
      assert i == |values| - 1 && values[i] == last;
      assert (previous + [ParseInt(last)])[i] == ParseInt(last);
    }
  }

  /** The collected list holds the parsed values, one per value given, in order. */
  lemma CollectIntsParsesEach(values: seq<string>)
    ensures |CollectInts(values)| == |values|
    ensures forall i :: 0 <= i < |values| ==> CollectInts(values)[i] == ParseInt(values[i])
  {
    CollectIntsLength(values);
    forall i | 0 <= i < |values| ensures CollectInts(values)[i] == ParseInt(values[i]) {
      CollectIntsAt(values, i);
    }
  }
}
