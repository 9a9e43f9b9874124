/** The Ruby string operations the adapter uses: `Integer#to_s` (decimal),
    `String#rjust` with a one-character pad, and `Array#join`. Each comes with
    an independent reading back (decimal parsing, splitting on the
    separator) and the round-trip lemmas that tie the two together. */
module RubyStrings {

  predicate IsDigit(c: char) {
    '0' <= c <= '9'
  }

  predicate AllDigits(s: string) {
    forall i :: 0 <= i < |s| ==> IsDigit(s[i])
  }

  function DigitChar(d: nat): (c: char)
    requires d < 10
    ensures IsDigit(c)
  {
    ('0' as int + d) as char
  }

  function DigitValue(c: char): (d: nat)
    requires IsDigit(c)
    ensures d < 10 && DigitChar(d) == c
  {
    c as int - '0' as int
  }

  // ---------------------------------------------------------------------
  // Decimal rendering (Integer#to_s) and its inverse

  /** Decimal digits of `n`, most significant first, without leading zeros. */
  function NatToString(n: nat): (s: string)
    ensures AllDigits(s)
    ensures |s| >= 1
    ensures n < 10 <==> |s| == 1
    ensures s[0] == '0' <==> n == 0
    decreases n
  {
    if n < 10 then [DigitChar(n)] else NatToString(n / 10) + [DigitChar(n % 10)]
  }

  /** A decimal literal in the form `Integer#to_s` writes it: an optional
      minus sign, then digits with no leading zero (other than "0" itself,
      and never "-0"). */
  predicate IsCanonicalLiteral(s: string) {
    if |s| > 0 && s[0] == '-' then
      |s| >= 2 && AllDigits(s[1..]) && s[1] != '0'
    else
      |s| >= 1 && AllDigits(s) && (s[0] == '0' ==> |s| == 1)
  }

  /** `Integer#to_s`: a minus sign followed by the digits for a negative value. */
  function IntToString(i: int): (s: string)
    ensures IsCanonicalLiteral(s)
    ensures 0 <= i ==> AllDigits(s)
    ensures i < 0 <==> s[0] == '-'
  {
    if i < 0 then "-" + NatToString(-i) else NatToString(i)
  }

  /** The value of a string of decimal digits (leading zeros allowed). */
  function ParseNat(s: string): nat
    requires AllDigits(s)
  {
    if s == [] then 0 else 10 * ParseNat(s[..|s| - 1]) + DigitValue(s[|s| - 1])
  }

  predicate IsIntegerLiteral(s: string) {
    AllDigits(s) || (|s| > 0 && s[0] == '-' && AllDigits(s[1..]))
  }

  /** The value of an optionally signed decimal literal. */
  function ParseInt(s: string): int
    requires IsIntegerLiteral(s)
  {
    if |s| > 0 && s[0] == '-' then -(ParseNat(s[1..]) as int) else ParseNat(s)
  }

  lemma {:induction false} ParseNatToString(n: nat)
    ensures ParseNat(NatToString(n)) == n
    decreases n
  {
    if n >= 10 {
      var s := NatToString(n);
      assert s[..|s| - 1] == NatToString(n / 10);
      ParseNatToString(n / 10);
    }
  }

  /** `Integer#to_s` loses nothing: parsing the rendering gives the integer back. */
  lemma ParseIntToString(i: int)
    ensures IsIntegerLiteral(IntToString(i))
    ensures ParseInt(IntToString(i)) == i
  {
    var s := IntToString(i);
    if i < 0 {
      var t := NatToString(-i);
      ParseNatToString(-i);
      assert s[1..] == t;
      assert ParseInt(s) == -(ParseNat(t) as int);
    } else {
      ParseNatToString(i);
    }
  }

  /** A digit string that does not start with '0' has a positive value. */
  lemma {:induction false} ParseNatPositive(s: string)
    requires AllDigits(s) && |s| >= 1 && s[0] != '0'
    ensures ParseNat(s) > 0
    decreases |s|
  {
    if |s| > 1 {
      ParseNatPositive(s[..|s| - 1]);
    }
  }

  /** Reading a canonical digit string and writing the number back gives the
      same string: `NatToString` is onto the canonical digit strings. */
  lemma {:induction false} NatToStringParse(s: string)
    requires AllDigits(s) && |s| >= 1 && (s[0] == '0' ==> |s| == 1)
    ensures NatToString(ParseNat(s)) == s
    decreases |s|
  {
    var p, d := s[..|s| - 1], s[|s| - 1];
    if |s| > 1 {
      ParseNatPositive(p);
      NatToStringParse(p);
      var n := ParseNat(s);
      assert n / 10 == ParseNat(p) && n % 10 == DigitValue(d);
      assert s == p + [d];
    }
  }

  /** `Integer#to_s` is a bijection between the integers and the canonical
      literals: a canonical literal is the rendering of the value it denotes. */
  lemma IntToStringParse(s: string)
    requires IsCanonicalLiteral(s)
    ensures IsIntegerLiteral(s) && IntToString(ParseInt(s)) == s
  {
    if s[0] == '-' {
      ParseNatPositive(s[1..]);
      NatToStringParse(s[1..]);
      assert s == "-" + s[1..];
    } else {
      NatToStringParse(s);
    }
  }

  /** A leading zero does not change the value of a digit string. */
  lemma {:induction false} ParseNatLeadingZero(s: string)
    requires AllDigits(s)
    ensures AllDigits("0" + s) && ParseNat("0" + s) == ParseNat(s)
    decreases |s|
  {
    var t := "0" + s;
    if s != [] {
      assert t[..|t| - 1] == "0" + s[..|s| - 1];
      ParseNatLeadingZero(s[..|s| - 1]);
    }
  }

  // ---------------------------------------------------------------------
  // String#rjust

  /** `s.rjust(width, pad)` for a one-character pad: `s` itself when it is
      already `width` long or longer, otherwise `s` preceded by as many
      copies of `pad` as make it exactly `width` long. */
  function Rjust(s: string, width: nat, pad: char): (r: string)
    ensures |r| == if |s| >= width then |s| else width
    ensures r[|r| - |s|..] == s
    ensures forall i :: 0 <= i < |r| - |s| ==> r[i] == pad
  {
    if |s| >= width then s else seq(width - |s|, _ => pad) + s
  }

  /** The two-character zero padding of a month: a single digit gains one
      leading zero, a longer rendering is left alone, and the padded
      string still reads back as the month. */
  lemma PaddedMonth(month: int)
    ensures var e := Rjust(IntToString(month), 2, '0');
      && (0 <= month < 10 ==> e == ['0', DigitChar(month)])
      && (month < 0 || 10 <= month ==> e == IntToString(month))
      && (0 <= month ==> |e| == 2 || month >= 100)
      && (0 <= month ==> AllDigits(e) && ParseNat(e) == month)
  {
    var e := Rjust(IntToString(month), 2, '0');
    if 0 <= month {
      ParseNatToString(month);
      if month < 10 {
        assert e == "0" + NatToString(month);
        ParseNatLeadingZero(NatToString(month));
      } else if month < 100 {
        assert NatToString(month / 10) == [DigitChar(month / 10)];
      }
    }
  }

  // ---------------------------------------------------------------------
  // Array#join and its reading back

  /** The total length of a list of strings. */
  function TotalLength(parts: seq<string>): nat
  {
    if parts == [] then 0 else |parts[0]| + TotalLength(parts[1..])
  }

  /** `parts.join(sep)`: the parts in order, with `sep` between neighbours.
      The result holds every part and one separator fewer than there are
      parts; it starts with the first part and ends with the last. */
  function Join(parts: seq<string>, sep: string): (r: string)
    ensures parts != [] ==> |parts[0]| <= |r| && r[..|parts[0]|] == parts[0]
  {
    if |parts| == 0 then ""
    else if |parts| == 1 then parts[0]
    else parts[0] + sep + Join(parts[1..], sep)
  }

  /** The position of the first occurrence of `c` in `s`. */
  function IndexOf(s: string, c: char): (i: nat)
    requires c in s
    ensures i < |s| && s[i] == c && c !in s[..i]
  {
    if s[0] == c then 0
    else
      var j := IndexOf(s[1..], c);
      assert s[..j + 1] == [s[0]] + s[1..][..j];
      1 + j
  }

  /** The fields of `s` between occurrences of `c` (a string without `c`
      is one field). */
  function Split(s: string, c: char): (fields: seq<string>)
    ensures |fields| >= 1
    decreases |s|
  {
    if c in s then
      var i := IndexOf(s, c);
      [s[..i]] + Split(s[i + 1..], c)
    else [s]
  }

  lemma {:induction false} JoinAppend(a: seq<string>, b: seq<string>, sep: string)
    requires a != [] && b != []
    ensures Join(a + b, sep) == Join(a, sep) + sep + Join(b, sep)
    decreases |a|
  {
    if |a| > 1 {
      assert (a + b)[1..] == a[1..] + b;
      JoinAppend(a[1..], b, sep);
    }
  }

  /** Joining with a one-character separator that occurs in none of the
      parts can be undone by splitting on that character. */
  lemma {:induction false} SplitJoin(parts: seq<string>, c: char)
    requires parts != []
    requires forall k :: 0 <= k < |parts| ==> c !in parts[k]
    ensures Split(Join(parts, [c]), c) == parts
    decreases |parts|
  {
    if |parts| > 1 {
      var head, rest := parts[0], Join(parts[1..], [c]);
      var s := head + [c] + rest;
      assert Join(parts, [c]) == s;
      assert s[|head|] == c;
      var i := IndexOf(s, c);
      assert i == |head|;
      assert s[..i] == head;
      assert s[i + 1..] == rest;
      SplitJoin(parts[1..], c);
    }
  }
}
