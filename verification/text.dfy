/** The JavaScript string built-ins the rover code leans on: `split` with a
    one-character separator, the decimal rendering a template literal gives a
    number, and the two ways the code turns text into numbers. */
module Text {
  import opened Results

  // ---------------------------------------------------------------------------
  // Splitting and joining on a one-character separator
  // ---------------------------------------------------------------------------

  /** `parts.join(sep)`. */
  function Join(parts: seq<string>, sep: char): string
    requires |parts| >= 1
    decreases |parts|
  {
    if |parts| == 1 then parts[0] else parts[0] + [sep] + Join(parts[1..], sep)
  }

  /** Joining three pieces puts one separator between neighbours. */
  lemma JoinThree(a: string, b: string, c: string, sep: char)
    ensures Join([a, b, c], sep) == a + [sep] + b + [sep] + c
  {
    assert [a, b, c][1..] == [b, c];
    assert [b, c][1..] == [c];
    assert Join([b, c], sep) == b + [sep] + c;
    assert a + [sep] + (b + [sep] + c) == a + [sep] + b + [sep] + c;
  }

  /** `s.split(sep)`: the maximal separator-free pieces between separators.
      The empty string splits into one empty piece, and two adjacent
      separators leave an empty piece between them. */
  function Split(s: string, sep: char): (parts: seq<string>)
    ensures |parts| >= 1
    ensures forall i | 0 <= i < |parts| :: sep !in parts[i]
    ensures Join(parts, sep) == s
    decreases |s|
  {
    if |s| == 0 then [""]
    else
      var rest := Split(s[1..], sep);
      assert s == [s[0]] + s[1..];
      if s[0] == sep then
        assert ([""] + rest)[1..] == rest;
        [""] + rest
      else
        var parts := [[s[0]] + rest[0]] + rest[1..];
        assert parts[1..] == rest[1..];
        parts
  }

  /** Splitting a string that starts with a separator-free piece `a` glues `a`
      to the front of the first piece of the rest. */
  lemma {:induction false} SplitPrefix(a: string, rest: string, sep: char)
    requires sep !in a
    ensures Split(a + rest, sep) == [a + Split(rest, sep)[0]] + Split(rest, sep)[1..]
    decreases |a|
  {
    var r := Split(rest, sep);
    if a == [] {
      assert a + rest == rest;
      assert a + r[0] == r[0];
      assert r == [r[0]] + r[1..];
    } else {
      assert (a + rest)[0] == a[0];
      assert (a + rest)[1..] == a[1..] + rest;
      SplitPrefix(a[1..], rest, sep);
      assert [a[0]] + (a[1..] + Split(rest, sep)[0]) == a + Split(rest, sep)[0];
    }
  }

  /** Splitting undoes joining whenever no piece contains the separator. */
  lemma {:induction false} SplitJoin(parts: seq<string>, sep: char)
    requires |parts| >= 1
    requires forall i | 0 <= i < |parts| :: sep !in parts[i]
    ensures Split(Join(parts, sep), sep) == parts
    decreases |parts|
  {
    if |parts| == 1 {
      SplitPrefix(parts[0], "", sep);
      assert parts[0] + "" == parts[0];
    } else {
      var tail := Join(parts[1..], sep);
      SplitJoin(parts[1..], sep);
      assert ([sep] + tail)[0] == sep && ([sep] + tail)[1..] == tail;
      assert Split([sep] + tail, sep) == [""] + parts[1..];
      assert Join(parts, sep) == parts[0] + ([sep] + tail);
      SplitPrefix(parts[0], [sep] + tail, sep);
      assert parts[0] + "" == parts[0];
      assert parts == [parts[0]] + parts[1..];
    }
  }

  /** A separator-free piece followed by a separator splits off as the first
      piece, whatever follows. */
  lemma SplitCons(a: string, rest: string, sep: char)
    requires sep !in a
    ensures Split(a + [sep] + rest, sep) == [a] + Split(rest, sep)
  {
    var r := Split([sep] + rest, sep);
    assert r == [""] + Split(rest, sep) by {
      assert ([sep] + rest)[0] == sep && ([sep] + rest)[1..] == rest;
    }
    assert a + [sep] + rest == a + ([sep] + rest);
    SplitPrefix(a, [sep] + rest, sep);
    assert a + r[0] == a;
    assert r[1..] == Split(rest, sep);
  }

  /** A separator-free piece followed by nothing or by a separator is the
      first piece of the split. */
  lemma SplitFirst(c: string, tail: string, sep: char)
    requires sep !in c
    requires tail == [] || tail[0] == sep
    ensures Split(c + tail, sep)[0] == c
  {
    SplitPrefix(c, tail, sep);
    if tail != [] {
      assert tail == "" + [sep] + tail[1..];
      SplitCons("", tail[1..], sep);
    }
    assert Split(tail, sep)[0] == "";
    assert c + "" == c;
  }

  /** Three separator-free pieces, then either nothing or a separator and
      anything: the first three pieces of the split are the three pieces. */
  lemma SplitLeadingThree(a: string, b: string, c: string, tail: string, sep: char)
    requires sep !in a && sep !in b && sep !in c
    requires tail == [] || tail[0] == sep
    ensures var parts := Split(a + [sep] + b + [sep] + c + tail, sep);
      |parts| >= 3 && parts[0] == a && parts[1] == b && parts[2] == c
  {
    var ct := c + tail;
    var bct := b + [sep] + ct;
    assert a + [sep] + b + [sep] + c + tail == a + [sep] + bct;
    assert Split(a + [sep] + bct, sep) == [a] + Split(bct, sep) by {
      SplitCons(a, bct, sep);
    }
    assert Split(bct, sep) == [b] + Split(ct, sep) by {
      SplitCons(b, ct, sep);
    }
    assert Split(ct, sep)[0] == c by {
      SplitFirst(c, tail, sep);
    }
  }

  /** Two separator-free pieces joined by one separator split back apart. */
  lemma SplitTwo(a: string, b: string, sep: char)
    requires sep !in a && sep !in b
    ensures Split(a + [sep] + b, sep) == [a, b]
  {
    assert [a, b][1..] == [b];
    assert Join([a, b], sep) == a + [sep] + b;
    SplitJoin([a, b], sep);
  }

  /** Three separator-free pieces joined by separators split back apart. */
  lemma SplitThree(a: string, b: string, c: string, sep: char)
    requires sep !in a && sep !in b && sep !in c
    ensures Split(a + [sep] + b + [sep] + c, sep) == [a, b, c]
  {
    JoinThree(a, b, c, sep);
    SplitJoin([a, b, c], sep);
  }

  // ---------------------------------------------------------------------------
  // Digits and decimal rendering
  // ---------------------------------------------------------------------------

  predicate IsDigit(c: char) {
    '0' <= c <= '9'
  }

  /** The value of a digit in radices up to 36: `0`-`9`, then `a`/`A` = 10
      through `z`/`Z` = 35; 36 for every other character. */
  function DigitValue(c: char): nat
  {
    if '0' <= c <= '9' then c as int - '0' as int
    else if 'a' <= c <= 'z' then c as int - 'a' as int + 10
    else if 'A' <= c <= 'Z' then c as int - 'A' as int + 10
    else 36
  }

  function DigitChar(d: nat): (c: char)
    requires d < 10
    ensures IsDigit(c) && DigitValue(c) == d
  {
    ('0' as int + d) as char
  }

  predicate AllDigitsIn(s: string, radix: nat) {
    forall i | 0 <= i < |s| :: DigitValue(s[i]) < radix
  }

  /** The number a string of digits in `radix` denotes, most significant first. */
  function ValueOf(s: string, radix: nat): nat
    requires AllDigitsIn(s, radix)
    decreases |s|
  {
    if s == [] then 0 else ValueOf(s[..|s| - 1], radix) * radix + DigitValue(s[|s| - 1])
  }

  /** The decimal text a template literal prints for a natural number. */
  function NatToString(n: nat): (s: string)
    ensures |s| >= 1
    ensures forall i | 0 <= i < |s| :: IsDigit(s[i])
    ensures (s[0] == '0') == (n == 0)
    ensures s[0] == '0' ==> s == "0"
  {
    if n < 10 then [DigitChar(n)] else NatToString(n / 10) + [DigitChar(n % 10)]
  }

  lemma {:induction false} ValueOfNatToString(n: nat)
    ensures AllDigitsIn(NatToString(n), 10)
    ensures ValueOf(NatToString(n), 10) == n
  {
    var s := NatToString(n);
    if n >= 10 {
      assert s[..|s| - 1] == NatToString(n / 10);
      ValueOfNatToString(n / 10);
    }
  }

  /** The decimal text a template literal prints for an integer. */
  function IntToString(i: int): (s: string)
    ensures |s| >= 1 && (s[0] == '-' || IsDigit(s[0]))
    ensures ' ' !in s && 'O' !in s
    ensures (s[0] == '-') == (i < 0)
    ensures var d := if i < 0 then s[1..] else s; |d| >= 1 && (d[0] == '0' ==> d == "0")
  {
    if i < 0 then "-" + NatToString(-i) else NatToString(i)
  }

  // ---------------------------------------------------------------------------
  // Reading numbers
  // ---------------------------------------------------------------------------

  /** Strict integer syntax: an optional `-` and then one or more decimal
      digits, with nothing before or after. `None` means the text is not an
      integer. */
  function ParseDecimal(s: string): (r: Option<int>)
    ensures r.Some? ==> |s| >= 1 && (s[0] == '-' || IsDigit(s[0]))
    ensures r.Some? && s[0] == '-' ==> |s| >= 2 && r.value <= 0
    ensures r.Some? ==> forall i | 1 <= i < |s| :: IsDigit(s[i])
    ensures r.Some? && s[0] != '-' ==> 0 <= r.value
    ensures (|s| >= 1 && forall i | 0 <= i < |s| :: IsDigit(s[i])) ==> r.Some?
    ensures (|s| >= 2 && s[0] == '-' && forall i | 1 <= i < |s| :: IsDigit(s[i])) ==> r.Some?
  {
    if |s| >= 2 && s[0] == '-' && AllDigitsIn(s[1..], 10) then Some(-(ValueOf(s[1..], 10) as int))
    else if |s| >= 1 && AllDigitsIn(s, 10) then Some(ValueOf(s, 10))
    else None
  }

  /** Reading back what `IntToString` printed gives the number again. */
  lemma ParseDecimalOfIntToString(i: int)
    ensures ParseDecimal(IntToString(i)) == Some(i)
  {
    var s := IntToString(i);
    if i < 0 {
      assert s[1..] == NatToString(-i);
      ValueOfNatToString(-i);
    } else {
      assert s == NatToString(i) && IsDigit(s[0]);
      ValueOfNatToString(i);
    }
  }

  /** The characters `parseInt` skips before the number: the ECMAScript white
      space and line terminator characters. */
  predicate IsJsWhiteSpace(c: char) {
    || c == ' ' || c == '\t' || c == '\n' || c == '\r'
    || c == '\U{000B}' || c == '\U{000C}' || c == '\U{00A0}' || c == '\U{1680}'
    || ('\U{2000}' <= c <= '\U{200A}')
    || c == '\U{2028}' || c == '\U{2029}' || c == '\U{202F}' || c == '\U{205F}'
    || c == '\U{3000}' || c == '\U{FEFF}'
  }

  /** `s` without its leading white space. */
  function TrimStart(s: string): (t: string)
    ensures |t| <= |s| && t == s[|s| - |t|..]
    ensures forall i | 0 <= i < |s| - |t| :: IsJsWhiteSpace(s[i])
    ensures |t| > 0 ==> !IsJsWhiteSpace(t[0])
    decreases |s|
  {
    if |s| > 0 && IsJsWhiteSpace(s[0]) then TrimStart(s[1..]) else s
  }

  /** The longest prefix of `s` made of digits of `radix`. */
  function LongestDigitPrefix(s: string, radix: nat): (d: string)
    ensures |d| <= |s| && d == s[..|d|]
    ensures AllDigitsIn(d, radix)
    ensures |d| < |s| ==> DigitValue(s[|d|]) >= radix
    decreases |s|
  {
    if |s| > 0 && DigitValue(s[0]) < radix then [s[0]] + LongestDigitPrefix(s[1..], radix) else []
  }

  /** `Number.parseInt(s)` without a radix: leading white space is skipped, a
      sign is read, a `0x`/`0X` prefix selects hexadecimal, and the longest run
      of digits that follows is the number; whatever comes after is ignored.
      `None` stands for `NaN`, the result when no digit follows. */
  function ParseLeadingInt(s: string): (r: Option<int>)
    ensures var t := TrimStart(s);
      r.Some? ==> |t| > 0 && (IsDigit(t[0]) || t[0] == '-' || t[0] == '+')
    ensures var t := TrimStart(s);
      r.Some? && r.value < 0 ==> t[0] == '-'
    ensures var t := TrimStart(s);
      (&& |t| > 0 && IsDigit(t[0])
       && !(|t| >= 2 && t[0] == '0' && (t[1] == 'x' || t[1] == 'X'))) ==> r.Some? && 0 <= r.value
  {
    var t := TrimStart(s);
    if |t| > 0 && t[0] == '-' then
      match ParseUnsignedPrefix(t[1..])
      case Some(v) => Some(-(v as int))
      case None => None
    else if |t| > 0 && t[0] == '+' then ParseUnsignedPrefix(t[1..])
    else ParseUnsignedPrefix(t)
  }

  /** The unsigned part of `parseInt`: a `0x`/`0X` prefix selects
      hexadecimal, then the longest run of digits is read. */
  function ParseUnsignedPrefix(u: string): (r: Option<nat>)
    ensures r.Some? ==> |u| > 0 && IsDigit(u[0])
    ensures |u| > 0 && IsDigit(u[0]) && !(|u| >= 2 && u[0] == '0' && (u[1] == 'x' || u[1] == 'X')) ==> r.Some?
  {
    var hex := |u| >= 2 && u[0] == '0' && (u[1] == 'x' || u[1] == 'X');
    var radix := if hex then 16 else 10;
    var digits := LongestDigitPrefix(if hex then u[2..] else u, radix);
    if digits == [] then None else Some(ValueOf(digits, radix))
  }

  lemma {:induction false} LongestDigitPrefixOfDigits(d: string, rest: string, radix: nat)
    requires AllDigitsIn(d, radix)
    requires |rest| > 0 ==> DigitValue(rest[0]) >= radix
    ensures LongestDigitPrefix(d + rest, radix) == d
    decreases |d|
  {
    if d == [] {
      assert d + rest == rest;
    } else {
      assert (d + rest)[1..] == d[1..] + rest;
      LongestDigitPrefixOfDigits(d[1..], rest, radix);
      assert d == [d[0]] + d[1..];
    }
  }

  /** The decimal text of a natural number followed by `rest` is not read as
      a `0x` hexadecimal prefix unless the number is 0 and `rest` starts with
      `x` or `X`. */
  lemma NoHexPrefix(n: nat, rest: string)
    requires n == 0 && |rest| > 0 ==> rest[0] != 'x' && rest[0] != 'X'
    ensures var u := NatToString(n) + rest;
      !(|u| >= 2 && u[0] == '0' && (u[1] == 'x' || u[1] == 'X'))
  {
    var d := NatToString(n);
    assert (d + rest)[0] == d[0];
    assert d[0] == '0' ==> (d + rest)[1..] == rest;
  }

  lemma ParseUnsignedPrefixOfNat(n: nat, rest: string)
    requires |rest| > 0 ==> !IsDigit(rest[0])
    requires n == 0 && |rest| > 0 ==> rest[0] != 'x' && rest[0] != 'X'
    ensures ParseUnsignedPrefix(NatToString(n) + rest) == Some(n)
  {
    ValueOfNatToString(n);
    NoHexPrefix(n, rest);
    assert |rest| > 0 ==> DigitValue(rest[0]) >= 10;
    LongestDigitPrefixOfDigits(NatToString(n), rest, 10);
  }

  /** `parseInt` gives `NaN` for text that starts with anything but white
      space, a sign or a digit. */
  lemma ParseLeadingIntWithoutDigit(s: string)
    requires |s| > 0 && !IsDigit(s[0]) && !IsJsWhiteSpace(s[0]) && s[0] != '-' && s[0] != '+'
    ensures ParseLeadingInt(s) == None
  {
    assert TrimStart(s) == s;
    assert DigitValue(s[0]) >= 10;
  }

  /** `parseInt` on text that starts with a digit reads the unsigned part
      directly. */
  lemma ParseLeadingIntOfDigit(u: string, v: nat)
    requires |u| > 0 && IsDigit(u[0]) && ParseUnsignedPrefix(u) == Some(v)
    ensures ParseLeadingInt(u) == Some(v)
  {
    assert !IsJsWhiteSpace(u[0]) && u[0] != '-' && u[0] != '+';
    assert TrimStart(u) == u;
  }

  /** `parseInt` on text that starts with `-` negates the unsigned part. */
  lemma ParseLeadingIntOfMinus(u: string, v: nat)
    requires ParseUnsignedPrefix(u) == Some(v)
    ensures ParseLeadingInt("-" + u) == Some(-(v as int))
  {
    var s := "-" + u;
    assert TrimStart(s) == s;
    assert s[1..] == u;
  }

  /** `parseInt` reads back what `IntToString` printed, even with text after
      it, as long as that text does not start with a digit and does not turn a
      leading `0` into a `0x` hexadecimal prefix. */
  lemma ParseLeadingIntOfIntToString(i: int, rest: string)
    requires |rest| > 0 ==> !IsDigit(rest[0])
    requires i == 0 && |rest| > 0 ==> rest[0] != 'x' && rest[0] != 'X'
    ensures ParseLeadingInt(IntToString(i) + rest) == Some(i)
  {
    if i < 0 {
      ParseLeadingIntOfNegativeInt(i, rest);
    } else {
      ParseLeadingIntOfNat(i, rest);
    }
  }

  /** `parseInt` reads back what `IntToString` printed when nothing follows. */
  lemma ParseLeadingIntOfIntToStringAlone(i: int)
    ensures ParseLeadingInt(IntToString(i)) == Some(i)
  {
    ParseLeadingIntOfIntToString(i, "");
    assert IntToString(i) + "" == IntToString(i);
  }

  lemma ParseLeadingIntOfNegativeInt(i: int, rest: string)
    requires i < 0
    requires |rest| > 0 ==> !IsDigit(rest[0])
    ensures ParseLeadingInt(IntToString(i) + rest) == Some(i)
  {
    var n: nat := -i;
    assert IntToString(i) == "-" + NatToString(n);
    assert IntToString(i) + rest == "-" + (NatToString(n) + rest);
    ParseLeadingIntOfNegative(n, rest);
  }

  lemma ParseLeadingIntOfNegative(n: nat, rest: string)
    requires |rest| > 0 ==> !IsDigit(rest[0])
    requires n == 0 && |rest| > 0 ==> rest[0] != 'x' && rest[0] != 'X'
    ensures ParseLeadingInt("-" + (NatToString(n) + rest)) == Some(-(n as int))
  {
    var unsigned := NatToString(n) + rest;
    assert ParseUnsignedPrefix(unsigned) == Some(n) by {
      ParseUnsignedPrefixOfNat(n, rest);
    }
    ParseLeadingIntOfMinus(unsigned, n);
  }

  lemma ParseLeadingIntOfNat(n: nat, rest: string)
    requires |rest| > 0 ==> !IsDigit(rest[0])
    requires n == 0 && |rest| > 0 ==> rest[0] != 'x' && rest[0] != 'X'
    ensures ParseLeadingInt(NatToString(n) + rest) == Some(n)
  {
    var unsigned := NatToString(n) + rest;
    assert ParseUnsignedPrefix(unsigned) == Some(n) by {
      ParseUnsignedPrefixOfNat(n, rest);
    }
    ParseLeadingIntOfDigit(unsigned, n);
  }
}
