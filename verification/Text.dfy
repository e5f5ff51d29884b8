/** Characters, the numerals that streams and `std::to_string` print, and the numeral
    readers that `operator>>`, `std::stoi` and `std::stoul` share. */
module Text {

  datatype Option<+T> = None | Some(value: T)

  const INT_MIN: int := -0x8000_0000
  const INT_MAX: int := 0x7FFF_FFFF
  const UINT64_LIMIT: int := 0x1_0000_0000_0000_0000

  predicate IsInt32(n: int) {
    INT_MIN <= n <= INT_MAX
  }

  /** `std::isspace` in the "C" locale. */
  predicate IsSpace(c: char) {
    c == ' ' || c == '\t' || c == '\n' || c == '\r' || c == '\U{000B}' || c == '\U{000C}'
  }

  predicate IsGraph(c: char) {
    !IsSpace(c)
  }

  predicate IsDigit(c: char) {
    '0' <= c <= '9'
  }

  predicate All(s: string, p: char -> bool) {
    forall i :: 0 <= i < |s| ==> p(s[i])
  }

  /** A word that `operator>>` reads back whole. */
  predicate IsWord(s: string) {
    s != "" && All(s, IsGraph)
  }

  /** The length of the longest prefix of `s` made of characters that satisfy `p`. */
  function Span(s: string, p: char -> bool): (n: nat)
    ensures n <= |s|
  {
    if s == "" || !p(s[0]) then 0 else 1 + Span(s[1..], p)
  }

  lemma {:induction false} SpanOfConcat(a: string, b: string, p: char -> bool)
    requires All(a, p)
    requires b == "" || !p(b[0])
    ensures Span(a + b, p) == |a|
    ensures (a + b)[..|a|] == a && (a + b)[|a|..] == b
  {
    assert (a + b)[|a|..] == b;
    if a == "" {
      assert a + b == b;
    } else {
      assert (a + b)[1..] == a[1..] + b;
      SpanOfConcat(a[1..], b, p);
    }
  }

  function DigitChar(d: nat): (c: char)
    requires d < 10
    ensures IsDigit(c) && DigitValue(c) == d
  {
    '0' + d as char
  }

  function DigitValue(c: char): nat {
    if IsDigit(c) then (c - '0') as nat else 0
  }

  /** The number a string of decimal digits denotes. */
  function Value(s: string): nat {
    if s == "" then 0 else 10 * Value(s[..|s| - 1]) + DigitValue(s[|s| - 1])
  }

  /** The decimal numeral of `n`, as `std::to_string` writes it. */
  function Decimal(n: nat): (s: string)
    ensures s != "" && All(s, IsDigit) && Value(s) == n
  {
    if n < 10 then [DigitChar(n)] else
      var high := Decimal(n / 10);
      var s := high + [DigitChar(n % 10)];
      assert s[..|s| - 1] == high;
      s
  }

  function IntText(n: int): string {
    if n < 0 then "-" + Decimal(-n) else Decimal(n)
  }

  lemma DecimalIsWord(n: int)
    ensures IsWord(IntText(n))
  {
    var digits := Decimal(if n < 0 then -n else n);
    assert forall i :: 0 <= i < |digits| ==> IsDigit(digits[i]);
  }

  /** What a numeral reader finds at the front of `s`: an optional sign and at least one digit. */
  datatype Numeral = NotANumeral | Numeral(value: int, length: nat)

  function ReadNumeral(s: string): (r: Numeral)
    ensures r.Numeral? ==> 0 < r.length <= |s|
  {
    var start := if s != "" && (s[0] == '-' || s[0] == '+') then 1 else 0;
    var n := Span(s[start..], IsDigit);
    if n == 0 then NotANumeral else
      var magnitude: int := Value(s[start..][..n]);
      Numeral(if s[0] == '-' then -magnitude else magnitude, start + n)
  }

  lemma ReadsWhatWasPrinted(n: int, rest: string)
    requires rest == "" || !IsDigit(rest[0])
    ensures ReadNumeral(IntText(n) + rest) == Numeral(n, |IntText(n)|)
    ensures (IntText(n) + rest)[|IntText(n)|..] == rest
  {
    hide Span, Value, Decimal, ReadNumeral;
    var sign, digits := if n < 0 then "-" else "", Decimal(if n < 0 then -n else n);
    var s := IntText(n) + rest;
    assert IntText(n) == sign + digits && s == sign + (digits + rest);
    hide IntText;
    NumeralIsRead(s, sign, digits, rest);
  }

  function SkipSpaces(s: string): string {
    s[Span(s, IsSpace)..]
  }

  lemma SkipsLead(lead: string, s: string)
    requires All(lead, IsSpace)
    requires s == "" || IsGraph(s[0])
    ensures SkipSpaces(lead + s) == s
  {
    SpanOfConcat(lead, s, IsSpace);
  }

  /** A numeral read into a 64-bit unsigned integer. */
  function Wrap(v: int): nat
    requires -UINT64_LIMIT < v
  {
    if v < 0 then v + UINT64_LIMIT else v
  }

  /** `std::stoi`; `None` is the exception it throws (no digits, or out of range). */
  function Stoi(s: string): Option<int> {
    match ReadNumeral(SkipSpaces(s))
    case NotANumeral => None
    case Numeral(v, _) => if IsInt32(v) then Some(v) else None
  }

  /** `std::stoul` and `std::stoull` on a 64-bit target: a minus sign wraps around. */
  function Stoul(s: string): Option<nat> {
    match ReadNumeral(SkipSpaces(s))
    case NotANumeral => None
    case Numeral(v, _) => if -UINT64_LIMIT < v < UINT64_LIMIT then Some(Wrap(v)) else None
  }

  lemma StoiInvertsIntText(n: int)
    ensures Stoi(IntText(n)) == if -2147483648 <= n <= 2147483647 then Some(n) else None
  {
    DecimalIsWord(n);
    SkipsLead("", IntText(n));
    assert "" + IntText(n) == IntText(n) == IntText(n) + "";
    ReadsWhatWasPrinted(n, "");
  }

  lemma DigitsAreANumeral(s: string)
    requires s != "" && All(s, IsDigit)
    ensures ReadNumeral(SkipSpaces(s)) == Numeral(Value(s), |s|)
  {
    hide Span, Value, SkipSpaces;
    assert IsDigit(s[0]);
    assert "" + s == s;
    SkipsLead("", s);
    assert s + "" == s;
    SpanOfConcat(s, "", IsDigit);
    assert s[0..] == s && s[..|s|] == s;
  }

  lemma StoulOfDigits(s: string)
    requires s != "" && All(s, IsDigit)
    ensures Stoul(s) == if Value(s) < UINT64_LIMIT then Some(Value(s)) else None
  {
    hide ReadNumeral, SkipSpaces, Value;
    DigitsAreANumeral(s);
  }

  // ---------- The numeral readers by their text ----------

  lemma CharacterClasses(c: char)
    ensures IsDigit(c) <==> c in "0123456789"
    ensures IsSpace(c) <==> c == ' ' || 9 <= c as int <= 13
  {
    if IsDigit(c) {
      assert "0123456789"[DigitValue(c)] == c;
    }
  }

  /** An optional sign, digits, and no further digit. */
  ghost predicate NumeralText(s: string, sign: string, digits: string, rest: string) {
    && s == sign + (digits + rest) && (sign == "" || sign == "+" || sign == "-")
    && digits != "" && All(digits, IsDigit) && (rest == "" || !IsDigit(rest[0]))
  }

  ghost function Signed(sign: string, digits: string): int {
    var v: int := Value(digits);
    if sign == "-" then -v else v
  }

  lemma NumeralIsRead(s: string, sign: string, digits: string, rest: string)
    requires NumeralText(s, sign, digits, rest)
    ensures ReadNumeral(s) == Numeral(Signed(sign, digits), |sign| + |digits|)
    ensures s[|sign| + |digits|..] == rest
  {
    hide Span, Value;
    NumeralStarts(s, sign, digits, rest);
    SpanOfConcat(digits, rest, IsDigit);
    assert s[|sign|..] == digits + rest;
    assert s[|sign| + |digits|..] == (digits + rest)[|digits|..];
    assert s[|sign|..][..|digits|] == digits;
  }

  lemma NumeralStarts(s: string, sign: string, digits: string, rest: string)
    requires NumeralText(s, sign, digits, rest)
    ensures s != "" && IsGraph(s[0])
    ensures if sign == "" then IsDigit(s[0]) else s[0] == sign[0]
  {
    assert IsDigit(digits[0]);
    if sign == "" {
      assert s == digits + rest && s[0] == digits[0];
    } else {
      assert s[0] == sign[0];
    }
  }

  /** A text that starts neither with a digit nor with a sign and a digit. */
  ghost predicate NoNumeralText(s: string) {
    && (s == "" || (IsGraph(s[0]) && !IsDigit(s[0])))
    && (|s| > 1 && (s[0] == '+' || s[0] == '-') ==> !IsDigit(s[1]))
  }

  lemma NoNumeralIsRead(s: string)
    requires NoNumeralText(s)
    ensures ReadNumeral(s) == NotANumeral
  {
    assert s != "" ==> s[0..] == s;
  }

  /** `std::stoi` and `std::stoul` skip whitespace and take the numeral in front, of any sign; they
      throw when there is none or it does not fit, and a negative number wraps around. */
  lemma NumeralsConvert(lead: string, s: string, sign: string, digits: string, rest: string)
    requires All(lead, IsSpace) && NumeralText(s, sign, digits, rest)
    ensures var v := Signed(sign, digits);
      && Stoi(lead + s) == (if -2147483648 <= v <= 2147483647 then Some(v) else None)
      && Stoul(lead + s) ==
           if Value(digits) >= 18446744073709551616 then None
           else Some(if v < 0 then 18446744073709551616 + v else v)
  {
    hide Span, Value, ReadNumeral;
    NumeralIsRead(s, sign, digits, rest);
    NumeralStarts(s, sign, digits, rest);
    SkipsLead(lead, s);
  }

  lemma OthersThrow(lead: string, s: string)
    requires All(lead, IsSpace) && NoNumeralText(s)
    ensures Stoi(lead + s) == None && Stoul(lead + s) == None
  {
    hide Span, ReadNumeral;
    NoNumeralIsRead(s);
    SkipsLead(lead, s);
  }
}
