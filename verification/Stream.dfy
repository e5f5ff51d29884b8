/** Formatted input from a text file: `std::ifstream` and `std::istringstream` as the program
    uses them. Once a read has failed every later read fails and leaves its target as it was,
    which is zero or empty at every call in the program. */
module Stream {
  import opened Text

  /** The abstract stream: the text not yet consumed, or a failed stream. */
  datatype Cursor = Good(rest: string) | Failed

  /** `stream >> int`. An out-of-range numeral stores the nearest bound and fails the stream. */
  function ReadInt(c: Cursor): (int, Cursor) {
    if c.Failed? then (0, Failed) else
      var s := SkipSpaces(c.rest);
      match ReadNumeral(s)
      case NotANumeral => (0, Failed)
      case Numeral(v, n) =>
        if v > INT_MAX then (INT_MAX, Failed)
        else if v < INT_MIN then (INT_MIN, Failed)
        else (v, Good(s[n..]))
  }

  /** `stream >> uint64_t` and `stream >> size_t`; a minus sign is accepted and wraps around. */
  function ReadUnsigned(c: Cursor): (nat, Cursor) {
    if c.Failed? then (0, Failed) else
      var s := SkipSpaces(c.rest);
      match ReadNumeral(s)
      case NotANumeral => (0, Failed)
      case Numeral(v, n) =>
        if -UINT64_LIMIT < v < UINT64_LIMIT then (Wrap(v), Good(s[n..]))
        else (UINT64_LIMIT - 1, Failed)
  }

  /** `stream >> std::string`. */
  function ReadWord(c: Cursor): (r: (string, Cursor))
    ensures r.0 != "" ==> c.Good? && r.1.Good? && |r.1.rest| < |c.rest|
  {
    if c.Failed? then ("", Failed) else
      var s := SkipSpaces(c.rest);
      var n := Span(s, IsGraph);
      if n == 0 then ("", Failed) else (s[..n], Good(s[n..]))
  }

  /** `stream.ignore()`: drop one character. */
  function Ignore(c: Cursor): Cursor {
    match c
    case Failed => Failed
    case Good(rest) => if rest == "" then c else Good(rest[1..])
  }

  /** Reading a number skips whitespace and takes the numeral in front. One that does not fit fails
      the stream and stores the nearest bound, but a negative number wraps around when an unsigned
      one is read. */
  lemma NumbersAreRead(lead: string, s: string, sign: string, digits: string, rest: string)
    requires All(lead, IsSpace) && NumeralText(s, sign, digits, rest)
    ensures var v := Signed(sign, digits);
      && ReadInt(Good(lead + s)) == (
           if v > 2147483647 then (2147483647, Failed)
           else if v < -2147483648 then (-2147483648, Failed)
           else (v, Good(rest)))
      && ReadUnsigned(Good(lead + s)) == (
           if Value(digits) >= 18446744073709551616 then (18446744073709551615, Failed)
           else (if v < 0 then 18446744073709551616 + v else v, Good(rest)))
  {
    hide Span, Value, ReadNumeral;
    NumeralIsRead(s, sign, digits, rest);
    NumeralStarts(s, sign, digits, rest);
    SkipsLead(lead, s);
  }

  /** Without a numeral, or on a failed stream, zero is stored and the stream fails. */
  lemma NoNumberIsRead(lead: string, s: string)
    requires All(lead, IsSpace) && NoNumeralText(s)
    ensures ReadInt(Good(lead + s)) == (0, Failed) && ReadUnsigned(Good(lead + s)) == (0, Failed)
    ensures ReadInt(Failed) == (0, Failed) && ReadUnsigned(Failed) == (0, Failed)
    ensures ReadWord(Failed) == ("", Failed) && Ignore(Failed) == Failed
  {
    hide Span, ReadNumeral;
    NoNumeralIsRead(s);
    SkipsLead(lead, s);
  }

  lemma ReadIntAt(lead: string, n: int, rest: string)
    requires All(lead, IsSpace) && IsInt32(n)
    requires rest == "" || !IsDigit(rest[0])
    ensures ReadInt(Good(lead + (IntText(n) + rest))) == (n, Good(rest))
  {
    DecimalIsWord(n);
    SkipsLead(lead, IntText(n) + rest);
    ReadsWhatWasPrinted(n, rest);
  }

  lemma ReadUnsignedAt(lead: string, n: nat, rest: string)
    requires All(lead, IsSpace) && n < UINT64_LIMIT
    requires rest == "" || !IsDigit(rest[0])
    ensures ReadUnsigned(Good(lead + (Decimal(n) + rest))) == (n, Good(rest))
  {
    DecimalIsWord(n);
    SkipsLead(lead, IntText(n) + rest);
    ReadsWhatWasPrinted(n, rest);
  }

  lemma ReadWordAt(lead: string, word: string, rest: string)
    requires All(lead, IsSpace) && IsWord(word)
    requires rest == "" || IsSpace(rest[0])
    ensures ReadWord(Good(lead + (word + rest))) == (word, Good(rest))
  {
    SkipsLead(lead, word + rest);
    SpanOfConcat(word, rest, IsGraph);
  }

  lemma ReadWordAtEnd(lead: string)
    requires All(lead, IsSpace)
    ensures ReadWord(Good(lead)) == ("", Failed)
  {
    assert lead + "" == lead;
    SkipsLead(lead, "");
  }

  /** An input stream over a text: a position and the fail flag. */
  class InStream {
    const text: string
    var pos: nat
    var fail: bool

    ghost predicate Valid()
      reads this
    {
      pos <= |text|
    }

    ghost function Rest(): string
      reads this
      requires Valid()
    {
      text[pos..]
    }

    ghost function View(): Cursor
      reads this
      requires Valid()
    {
      if fail then Failed else Good(Rest())
    }

    constructor (text: string)
      ensures Valid() && View() == Good(text)
    {
      this.text := text;
      pos := 0;
      fail := false;
    }

    /** Advances over the characters that satisfy `p` and returns them. */
    method TakeWhile(p: char -> bool) returns (s: string)
      requires Valid()
      modifies `pos
      ensures Valid() && pos == old(pos) + |s|
      ensures s == old(Rest())[..Span(old(Rest()), p)]
      ensures Rest() == old(Rest())[Span(old(Rest()), p)..]
    {
      var start := pos;
      while pos < |text| && p(text[pos])
        invariant start <= pos <= |text|
        invariant All(text[start..pos], p)
      {
        assert text[start..pos + 1] == text[start..pos] + [text[pos]];
        pos := pos + 1;
      }
      s := text[start..pos];
      SpanOfConcat(s, text[pos..], p);
      assert s + text[pos..] == text[start..];
    }

    /** Consumes the numeral at the position, if there is one. */
    method TakeNumeral() returns (n: Numeral)
      requires Valid()
      modifies `pos
      ensures Valid() && n == ReadNumeral(old(Rest()))
      ensures n.Numeral? ==> Rest() == old(Rest())[n.length..]
    {
      ghost var s := Rest();
      var start := pos;
      if pos < |text| && (text[pos] == '-' || text[pos] == '+') {
        pos := pos + 1;
      }
      ghost var signed := pos - start;
      assert Rest() == s[signed..];
      assert signed == if s != "" && (s[0] == '-' || s[0] == '+') then 1 else 0;
      var digits := TakeWhile(IsDigit);
      ghost var count := Span(s[signed..], IsDigit);
      assert digits == s[signed..][..count] && |digits| == count;
      if digits == "" {
        return NotANumeral;
      }
      var magnitude: int := Value(digits);
      n := Numeral(if text[start] == '-' then -magnitude else magnitude, pos - start);
      assert Rest() == s[signed..][count..] == s[signed + count..];
    }

    method TakeInt() returns (v: int)
      requires Valid()
      modifies this
      ensures Valid() && (v, View()) == ReadInt(old(View()))
    {
      hide Span, ReadNumeral;
      if fail {
        return 0;
      }
      var spaces := TakeWhile(IsSpace);
      ghost var start := pos;
      var n := TakeNumeral();
      match n {
        case NotANumeral =>
          v, fail := 0, true;
        case Numeral(value, _) =>
          v := value;
          if value > INT_MAX {
            v, fail := INT_MAX, true;
          } else if value < INT_MIN {
            v, fail := INT_MIN, true;
          }
      }
    }

    method TakeUnsigned() returns (v: nat)
      requires Valid()
      modifies this
      ensures Valid() && (v, View()) == ReadUnsigned(old(View()))
    {
      hide Span, ReadNumeral;
      if fail {
        return 0;
      }
      var spaces := TakeWhile(IsSpace);
      var n := TakeNumeral();
      match n {
        case NotANumeral =>
          v, fail := 0, true;
        case Numeral(value, _) =>
          if -UINT64_LIMIT < value < UINT64_LIMIT {
            v := Wrap(value);
          } else {
            v, fail := UINT64_LIMIT - 1, true;
          }
      }
    }

    method TakeWord() returns (s: string)
      requires Valid()
      modifies this
      ensures Valid() && (s, View()) == ReadWord(old(View()))
    {
      hide Span, IsSpace, IsGraph;
      if fail {
        return "";
      }
      var spaces := TakeWhile(IsSpace);
      s := TakeWhile(IsGraph);
      if s == "" {
        fail := true;
      }
    }

    method TakeIgnored()
      requires Valid()
      modifies this
      ensures Valid() && View() == Ignore(old(View()))
    {
      if !fail && pos < |text| {
        pos := pos + 1;
      }
    }
  }
}
