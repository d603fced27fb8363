/**
 The parts of Go's `strconv` and `strings` packages that the action relies on:
 `strconv.ParseUint(s, 10, 64)`, `strconv.ParseBool`, `strconv.Itoa` on a
 length, and `strings.ToLower` on ASCII letters. ParseUint is proved against a
 reference definition and Itoa against the digit value; ParseBool is given as
 Go's table of spellings, and what it accepts after lowering is proved.
 */
module Strconv {
  import opened Results

  /** The largest value of Go's `uint64`. */
  const MaxUint64: nat := 0xFFFF_FFFF_FFFF_FFFF

  newtype uint64 = x: int | 0 <= x <= 0xFFFF_FFFF_FFFF_FFFF

  /** The two failures `strconv` distinguishes: `ErrSyntax` and `ErrRange`. */
  datatype NumError = ErrSyntax | ErrRange

  predicate IsDigit(c: char) {
    '0' <= c <= '9'
  }

  function DigitValue(c: char): (d: nat)
    requires IsDigit(c)
    ensures d < 10
  {
    c as int - '0' as int
  }

  function DigitChar(d: nat): (c: char)
    requires d < 10
    ensures IsDigit(c) && DigitValue(c) == d
  {
    ('0' as int + d) as char
  }

  predicate AllDigits(s: string) {
    forall k :: 0 <= k < |s| ==> IsDigit(s[k])
  }

  /** The number a string of decimal digits denotes (the empty string denotes 0). */
  function DecimalValue(s: string): nat
    requires AllDigits(s)
  {
    if s == [] then 0 else DecimalValue(s[..|s| - 1]) * 10 + DigitValue(s[|s| - 1])
  }

  /** The shortest rendering of a number: digits, no leading zero unless it is "0". */
  predicate Canonical(s: string) {
    s != [] && AllDigits(s) && (s[0] == '0' ==> |s| == 1)
  }

  /** The index of the first character that is not a decimal digit, or |s| if there is none. */
  function FirstNonDigit(s: string): (k: nat)
    ensures k <= |s| && AllDigits(s[..k])
    ensures k < |s| ==> !IsDigit(s[k])
  {
    if s == [] || !IsDigit(s[0]) then 0
    else
      var k' := FirstNonDigit(s[1..]);
      assert s[..1 + k'] == [s[0]] + s[1..][..k'];
      1 + k'
  }

  // ---------------------------------------------------------------------------
  // strconv.ParseUint(s, 10, 64)
  // ---------------------------------------------------------------------------

  /** strconv's cutoff for base 10: the smallest n for which n * 10 overflows a uint64. */
  const Cutoff: nat := MaxUint64 / 10 + 1

  /**
   The digit loop of strconv.ParseUint for base 10, from index i with the value n
   accumulated so far. Every character is first checked to be a digit (otherwise
   ErrSyntax); then `n >= cutoff` and `n*10 + d > maxVal` give ErrRange at once,
   before the characters after it are looked at. Go's extra test `n1 < n` catches
   a uint64 wrap-around, which with unbounded integers is the `> MaxUint64` test.
   */
  function ParseDigitsFrom(s: string, i: nat, n: nat): Result<uint64, NumError>
    requires i <= |s| && n <= MaxUint64
    decreases |s| - i
  {
    if i == |s| then Success(n as uint64)
    else if !IsDigit(s[i]) then Failure(ErrSyntax)
    else if n >= Cutoff then Failure(ErrRange)
    else if n * 10 + DigitValue(s[i]) > MaxUint64 then Failure(ErrRange)
    else ParseDigitsFrom(s, i + 1, n * 10 + DigitValue(s[i]))
  }

  /**
   Reference definition of the outcome of ParseUint(s, 10, 64), read off the
   whole string at once: the digit run before the first non-digit decides
   between an overflow and a syntax error.
   */
  function ParseOutcome(s: string): Result<uint64, NumError> {
    var k := FirstNonDigit(s);
    if DecimalValue(s[..k]) > MaxUint64 then Failure(ErrRange)
    else if s == [] || k < |s| then Failure(ErrSyntax)
    else Success(DecimalValue(s[..k]) as uint64)
  }

  /**
   strconv.ParseUint(s, 10, 64): an empty string is a syntax error, then the
   digit loop runs. Its outcome is the reference outcome.
   */
  function ParseUint10(s: string): (r: Result<uint64, NumError>)
    ensures r == ParseOutcome(s)
  {
    if s == [] then Failure(ErrSyntax)
    else
      ParseDigitsFromOutcome(s, 0, 0);
      ParseDigitsFrom(s, 0, 0)
  }

  /**
   ParseUint(s, 10, 64) agrees with the reference outcome: it succeeds exactly on
   a non-empty digit string whose value fits in a uint64, with that value; an
   empty string is a syntax error and a digit string that is too large a range error.
   */
  lemma ParseUint10Outcome(s: string)
    ensures ParseUint10(s) == ParseOutcome(s)
    ensures ParseUint10(s).Success? <==> s != [] && AllDigits(s) && DecimalValue(s) <= MaxUint64
    ensures ParseUint10(s).Success? ==> ParseUint10(s).value as int == DecimalValue(s)
    ensures s == [] ==> ParseUint10(s) == Failure(ErrSyntax)
    ensures AllDigits(s) && DecimalValue(s) > MaxUint64 ==> ParseUint10(s) == Failure(ErrRange)
  {
    var k := FirstNonDigit(s);
    assert AllDigits(s) ==> k == |s| && s[..k] == s;
  }

  lemma DecimalValueSnoc(s: string, i: nat)
    requires i < |s| && AllDigits(s[..i]) && IsDigit(s[i])
    ensures AllDigits(s[..i + 1])
    ensures DecimalValue(s[..i + 1]) == DecimalValue(s[..i]) * 10 + DigitValue(s[i])
  {
    assert s[..i + 1][..i] == s[..i];
  }

  /** A prefix of a digit string never denotes more than the whole string. */
  lemma {:induction false} PrefixValueBounded(t: string, j: nat)
    requires AllDigits(t) && j <= |t|
    ensures DecimalValue(t[..j]) <= DecimalValue(t)
    decreases |t|
  {
    if j == |t| {
      assert t[..j] == t;
    } else {
      var p := t[..|t| - 1];
      PrefixValueBounded(p, j);
      assert p[..j] == t[..j];
    }
  }

  /** The digit loop, started anywhere inside the leading digit run, ends in the reference outcome. */
  lemma {:induction false} ParseDigitsFromOutcome(s: string, i: nat, n: nat)
    requires s != [] && i <= FirstNonDigit(s) && n <= MaxUint64
    requires AllDigits(s[..i]) && n == DecimalValue(s[..i])
    ensures ParseDigitsFrom(s, i, n) == ParseOutcome(s)
    decreases |s| - i
  {
    var k := FirstNonDigit(s);
    if i == k {
      assert s[..k] == s[..i];
    } else {
      assert s[i] == s[..k][i];
      DecimalValueSnoc(s, i);
      var m := n * 10 + DigitValue(s[i]);
      if n >= Cutoff || m > MaxUint64 {
        assert m > MaxUint64;
        PrefixValueBounded(s[..k], i + 1);
        assert s[..k][..i + 1] == s[..i + 1];
      } else {
        ParseDigitsFromOutcome(s, i + 1, m);
      }
    }
  }

  // ---------------------------------------------------------------------------
  // strings.ToLower and strconv.ParseBool
  // ---------------------------------------------------------------------------

  function LowerChar(c: char): char {
    if 'A' <= c <= 'Z' then (c as int + 32) as char else c
  }

  predicate HasNoUpper(s: string) {
    forall k :: 0 <= k < |s| ==> !('A' <= s[k] <= 'Z')
  }

  /**
   strings.ToLower, restricted to the ASCII letters: every character is kept
   in place except that an upper-case letter becomes its lower-case one, so no
   upper-case letter is left.
   */
  function ToLower(s: string): (r: string)
    ensures |r| == |s| && forall k :: 0 <= k < |s| ==> r[k] == LowerChar(s[k])
    ensures HasNoUpper(r)
  {
    if s == [] then [] else [LowerChar(s[0])] + ToLower(s[1..])
  }

  /** strconv.ParseBool: the six spellings of true, the six of false, and nothing else. */
  function ParseBool(s: string): Result<bool, NumError> {
    if s in {"1", "t", "T", "TRUE", "true", "True"} then Success(true)
    else if s in {"0", "f", "F", "FALSE", "false", "False"} then Success(false)
    else Failure(ErrSyntax)
  }

  /** The tokens accepted as true and as false once the input is in lower case. */
  const TrueTokens: set<string> := {"1", "t", "true"}
  const FalseTokens: set<string> := {"0", "f", "false"}

  /** strconv.ParseBool(strings.ToLower(s)), as the loader calls it. */
  function ParseBoolLower(s: string): (r: Result<bool, NumError>)
    ensures r == Success(true) <==> ToLower(s) in TrueTokens
    ensures r == Success(false) <==> ToLower(s) in FalseTokens
    ensures r.Success? || r == Failure(ErrSyntax)
  {
    var t := ToLower(s);
    assert t != "T" && t != "TRUE" && t != "True" by {
      if |t| > 0 { assert !('A' <= t[0] <= 'Z'); }
    }
    assert t != "F" && t != "FALSE" && t != "False" by {
      if |t| > 0 { assert !('A' <= t[0] <= 'Z'); }
    }
    ParseBool(t)
  }

  /** Two inputs that differ only in the case of their ASCII letters parse alike. */
  lemma {:induction false} ParseBoolLowerIgnoresCase(s: string, t: string)
    requires |s| == |t| && forall k :: 0 <= k < |s| ==> LowerChar(s[k]) == LowerChar(t[k])
    ensures ToLower(s) == ToLower(t)
    ensures ParseBoolLower(s) == ParseBoolLower(t)
  {
    if s != [] {
      ParseBoolLowerIgnoresCase(s[1..], t[1..]);
    }
  }

  // ---------------------------------------------------------------------------
  // strconv.Itoa on a non-negative int
  // ---------------------------------------------------------------------------

  /** strconv.Itoa(n) for n >= 0: the canonical base-10 rendering. */
  function Itoa(n: nat): (r: string)
    ensures Canonical(r) && DecimalValue(r) == n
    decreases n
  {
    if n < 10 then [DigitChar(n)]
    else
      var p := Itoa(n / 10);
      var r := p + [DigitChar(n % 10)];
      assert r[..|r| - 1] == p;
      r
  }

  /** What Itoa renders, ParseUint reads back. */
  lemma ItoaParses(n: nat)
    requires n <= MaxUint64
    ensures ParseUint10(Itoa(n)) == Success(n as uint64)
  {
    ParseUint10Outcome(Itoa(n));
  }

  /** ParseUint reads a canonical string of at most 2^64-1 as the value Itoa renders as that string. */
  lemma ParseThenItoa(s: string)
    requires Canonical(s) && DecimalValue(s) <= MaxUint64
    ensures ParseUint10(s).Success? && Itoa(ParseUint10(s).value as int) == s
  {
    ParseUint10Outcome(s);
    ItoaOfValue(s);
  }

  lemma LeadingDigitBound(s: string)
    requires AllDigits(s) && s != []
    ensures DecimalValue(s) >= DigitValue(s[0])
  {
    PrefixValueBounded(s, 1);
    assert s[..1][..0] == [];
  }

  /** Every canonical digit string is the Itoa rendering of its value. */
  lemma {:induction false} ItoaOfValue(s: string)
    requires Canonical(s)
    ensures Itoa(DecimalValue(s)) == s
    decreases |s|
  {
    if |s| == 1 {
      assert s[..0] == [];
    } else {
      var p := s[..|s| - 1];
      var d := DigitValue(s[|s| - 1]);
      var v := DecimalValue(s);
      assert p[0] == s[0];
      LeadingDigitBound(p);
      assert v == DecimalValue(p) * 10 + d;
      assert v / 10 == DecimalValue(p) && v % 10 == d;
      ItoaOfValue(p);
      assert s == p + [s[|s| - 1]];
    }
  }
}
