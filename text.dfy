/** The string library behaviour the plugin relies on: strings.Fields with
    unicode.IsSpace, and strconv.ParseInt in base 10 for 64-bit results. */
module Text {

  /** unicode.IsSpace: the Latin-1 spaces and the other characters with the
      Unicode White_Space property. */
  predicate IsSpace(c: char) {
    || c == '\t' || c == '\n' || c == '\U{000B}' || c == '\U{000C}' || c == '\r' || c == ' '
    || c == '\U{0085}' || c == '\U{00A0}' || c == '\U{1680}'
    || ('\U{2000}' <= c <= '\U{200A}')
    || c == '\U{2028}' || c == '\U{2029}' || c == '\U{202F}' || c == '\U{205F}' || c == '\U{3000}'
  }

  predicate NoSpace(s: string) {
    forall i :: 0 <= i < |s| ==> !IsSpace(s[i])
  }

  /** A field as strings.Fields returns it: non-empty and free of white space. */
  predicate IsWord(s: string) {
    s != [] && NoSpace(s)
  }

  /** Length of the longest prefix of `s` without white space. */
  function WordLength(s: string): (n: nat)
    ensures n <= |s|
    ensures NoSpace(s[..n])
    ensures n < |s| ==> IsSpace(s[n])
    ensures s != [] && !IsSpace(s[0]) ==> n >= 1
  {
    if s == [] || IsSpace(s[0]) then 0
    else
      var n := 1 + WordLength(s[1..]);
      assert s[..n] == [s[0]] + s[1..][..n - 1];
      n
  }

  /** strings.Fields: the maximal runs of non-space characters, in order. */
  function Fields(s: string): (r: seq<string>)
    ensures forall i :: 0 <= i < |r| ==> IsWord(r[i])
    decreases |s|
  {
    if s == [] then []
    else if IsSpace(s[0]) then Fields(s[1..])
    else
      var n := WordLength(s);
      [s[..n]] + Fields(s[n..])
  }

  /** A single word is its own only field. */
  lemma FieldsOfWord(w: string)
    requires IsWord(w)
    ensures Fields(w) == [w]
  {
    WordLengthOfWord(w);
    assert w[..|w|] == w;
    assert w[|w|..] == [];
    assert Fields(w) == [w[..|w|]] + Fields(w[|w|..]);
  }

  lemma {:induction false} WordLengthOfWord(w: string)
    requires NoSpace(w)
    ensures WordLength(w) == |w|
    decreases |w|
  {
    if w != [] {
      WordLengthOfWord(w[1..]);
    }
  }

  lemma {:induction false} WordLengthBeforeSpace(w: string, rest: string)
    requires NoSpace(w)
    requires rest != [] && IsSpace(rest[0])
    ensures WordLength(w + rest) == |w|
    decreases |w|
  {
    var s := w + rest;
    if w == [] {
      assert s == rest;
    } else {
      assert s[0] == w[0] && !IsSpace(s[0]);
      assert s[1..] == w[1..] + rest;
      WordLengthBeforeSpace(w[1..], rest);
      assert WordLength(s) == 1 + WordLength(s[1..]);
    }
  }

  /** Splitting a word followed by white space and more text. */
  lemma FieldsOfWordThen(w: string, c: char, rest: string)
    requires IsWord(w) && IsSpace(c)
    ensures Fields(w + [c] + rest) == [w] + Fields(rest)
  {
    var s := w + [c] + rest;
    assert s == w + ([c] + rest);
    WordLengthBeforeSpace(w, [c] + rest);
    assert s[..|w|] == w;
    assert s[|w|..] == [c] + rest;
    assert ([c] + rest)[1..] == rest;
  }

  /** Words joined by single spaces: a command line as a user types it. */
  function Unfields(ws: seq<string>): string {
    if ws == [] then ""
    else if |ws| == 1 then ws[0]
    else ws[0] + " " + Unfields(ws[1..])
  }

  /** strings.Fields takes words joined by spaces apart again. */
  lemma {:induction false} FieldsOfUnfields(ws: seq<string>)
    requires forall i :: 0 <= i < |ws| ==> IsWord(ws[i])
    ensures Fields(Unfields(ws)) == ws
  {
    if |ws| == 1 {
      FieldsOfWord(ws[0]);
    } else if |ws| > 1 {
      FieldsOfWordThen(ws[0], ' ', Unfields(ws[1..]));
      FieldsOfUnfields(ws[1..]);
      assert ws == [ws[0]] + ws[1..];
    }
  }

  // ---------------------------------------------------------------------------
  // strconv.ParseInt(s, 10, 64)

  predicate IsDigit(c: char) {
    '0' <= c <= '9'
  }

  predicate AllDigits(s: string) {
    forall i :: 0 <= i < |s| ==> IsDigit(s[i])
  }

  function DigitValue(c: char): nat
    requires IsDigit(c)
  {
    c as int - '0' as int
  }

  /** The value of a string of decimal digits, most significant first. */
  function DigitsValue(s: string): nat
    requires AllDigits(s)
  {
    if s == [] then 0 else 10 * DigitsValue(s[..|s| - 1]) + DigitValue(s[|s| - 1])
  }

  const MaxInt64: int := 0x7fff_ffff_ffff_ffff
  const MinInt64: int := -0x8000_0000_0000_0000

  /** The outcome of strconv.ParseInt: a value, a syntax error (the value is then 0),
      or a range error (the value is then clamped to the nearest int64 bound). */
  datatype IntParse = Parsed(value: int) | SyntaxError | RangeError(clamped: int) {
    /** The int64 that ParseInt returns beside its error. */
    function Returned(): int {
      match this
      case Parsed(v) => v
      case SyntaxError => 0
      case RangeError(v) => v
    }
  }

  /** The digits after an optional leading sign. */
  function Unsigned(s: string): string {
    if |s| > 0 && (s[0] == '+' || s[0] == '-') then s[1..] else s
  }

  /** The syntax that ParseInt accepts in base 10: an optional sign, then one or more
      ASCII digits (underscores are accepted only in base 0). */
  predicate IsDecimalInteger(s: string) {
    Unsigned(s) != [] && AllDigits(Unsigned(s))
  }

  /** The mathematical value of a decimal integer. */
  function DecimalIntegerValue(s: string): int
    requires IsDecimalInteger(s)
  {
    var m: int := DigitsValue(Unsigned(s));
    if s[0] == '-' then -m else m
  }

  function ParseInt64(s: string): (r: IntParse)
    ensures r.Parsed? <==> IsDecimalInteger(s) && MinInt64 <= DecimalIntegerValue(s) <= MaxInt64
    ensures r.Parsed? ==> r.value == DecimalIntegerValue(s)
    ensures r.SyntaxError? <==> !IsDecimalInteger(s)
    ensures r.RangeError? ==> r.clamped == if DecimalIntegerValue(s) > MaxInt64 then MaxInt64 else MinInt64
  {
    if !IsDecimalInteger(s) then SyntaxError
    else
      var v := DecimalIntegerValue(s);
      if v > MaxInt64 then RangeError(MaxInt64)
      else if v < MinInt64 then RangeError(MinInt64)
      else Parsed(v)
  }

  /** strconv.Itoa for non-negative numbers. */
  function DecimalString(n: nat): (s: string)
    ensures s != [] && AllDigits(s)
  {
    var d := ['0' + (n % 10) as char];
    if n < 10 then d else DecimalString(n / 10) + d
  }

  /** Formatting then reading digits gives back the number. */
  lemma {:induction false} DecimalStringValue(n: nat)
    ensures DigitsValue(DecimalString(n)) == n
  {
    var s := DecimalString(n);
    if n >= 10 {
      DecimalStringValue(n / 10);
      assert s[..|s| - 1] == DecimalString(n / 10);
    }
  }

  /** ParseInt reads back what Itoa writes, for every non-negative int64. */
  lemma ParseFormatted(n: nat)
    requires n <= MaxInt64
    ensures ParseInt64(DecimalString(n)) == Parsed(n)
  {
    var s := DecimalString(n);
    assert Unsigned(s) == s;
    DecimalStringValue(n);
  }
}
