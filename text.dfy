/**
 * Decimal formatting of integers as std::to_string writes them, the
 * dot-separated action string built from four of them, and the parser that
 * reads such a string back.
 */
module Text {
  import opened Optional

  predicate IsDigit(c: char)
  {
    '0' <= c <= '9'
  }

  predicate AllDigits(s: string)
  {
    forall i :: 0 <= i < |s| ==> IsDigit(s[i])
  }

  function DigitChar(d: nat): (c: char)
    requires d < 10
    ensures IsDigit(c) && (c as int) - ('0' as int) == d
  {
    (('0' as int) + d) as char
  }

  /** The decimal digits of n, most significant first, without leading zeros. */
  function NatToString(n: nat): (s: string)
    ensures |s| >= 1 && AllDigits(s)
    ensures s[0] == '0' ==> n == 0
  {
    if n < 10 then [DigitChar(n)] else NatToString(n / 10) + [DigitChar(n % 10)]
  }

  /** std::to_string on an int: a minus sign before the digits of a negative value. */
  function IntToString(n: int): (s: string)
    ensures |s| >= 1
    ensures forall i :: 0 <= i < |s| ==> IsDigit(s[i]) || (i == 0 && s[i] == '-')
    ensures '.' !in s
  {
    if n < 0 then "-" + NatToString(-n) else NatToString(n)
  }

  /** The number a string of decimal digits denotes. */
  function DigitsValue(s: string): nat
    requires AllDigits(s)
  {
    if s == [] then 0 else DigitsValue(s[..|s| - 1]) * 10 + ((s[|s| - 1] as int) - ('0' as int))
  }

  lemma {:induction false} DigitsRoundTrip(n: nat)
    ensures DigitsValue(NatToString(n)) == n
  {
    if n >= 10 {
      DigitsRoundTrip(n / 10);
      var s := NatToString(n);
      assert s[..|s| - 1] == NatToString(n / 10);
    }
  }

  /** Reads an optionally negative decimal integer; anything else is None. */
  function ParseInt(s: string): Option<int>
  {
    if |s| >= 2 && s[0] == '-' && AllDigits(s[1..]) then Some(-(DigitsValue(s[1..]) as int))
    else if |s| >= 1 && AllDigits(s) then Some(DigitsValue(s))
    else None
  }

  /** Parsing what IntToString writes gives the integer back. */
  lemma IntRoundTrip(n: int)
    ensures ParseInt(IntToString(n)) == Some(n)
  {
    var s := IntToString(n);
    if n < 0 {
      assert s[1..] == NatToString(-n);
      DigitsRoundTrip(-n);
    } else {
      DigitsRoundTrip(n);
    }
  }

  /** s cut at every occurrence of c; there is always at least one part. */
  function SplitOn(s: string, c: char): (parts: seq<string>)
    ensures |parts| >= 1
    ensures forall k :: 0 <= k < |parts| ==> c !in parts[k]
  {
    if s == [] then [[]]
    else
      var rest := SplitOn(s[1..], c);
      if s[0] == c then [[]] + rest else [[s[0]] + rest[0]] + rest[1..]
  }

  /** Cutting p + c + q at c, where p has no c, gives p and then the parts of q. */
  lemma {:induction false} SplitOnFirst(p: string, q: string, c: char)
    requires c !in p
    ensures SplitOn(p + [c] + q, c) == [p] + SplitOn(q, c)
  {
    var s := p + [c] + q;
    if p == [] {
      assert s[1..] == q;
    } else {
      SplitOnFirst(p[1..], q, c);
      assert s[1..] == p[1..] + [c] + q;
      assert [s[0]] + p[1..] == p;
    }
  }

  /** A string with no c is a single part. */
  lemma {:induction false} SplitOnNone(s: string, c: char)
    requires c !in s
    ensures SplitOn(s, c) == [s]
  {
    if s != [] {
      SplitOnNone(s[1..], c);
      assert [s[0]] + s[1..] == s;
    }
  }

  /** "ms.md.as.ad": the four integers joined by dots. */
  function FormatFields(a: int, b: int, c: int, d: int): string
  {
    IntToString(a) + "." + IntToString(b) + "." + IntToString(c) + "." + IntToString(d)
  }

  /** Reads four dot-separated integers. */
  function ParseFields(s: string): Option<(int, int, int, int)>
  {
    var parts := SplitOn(s, '.');
    if |parts| != 4 then None
    else match (ParseInt(parts[0]), ParseInt(parts[1]), ParseInt(parts[2]), ParseInt(parts[3]))
      case (Some(a), Some(b), Some(c), Some(d)) => Some((a, b, c, d))
      case _ => None
  }

  /** The action string is cut back into the four integers' strings. */
  lemma {:induction false} FormatSplits(a: int, b: int, c: int, d: int)
    ensures SplitOn(FormatFields(a, b, c, d), '.') == [IntToString(a), IntToString(b), IntToString(c), IntToString(d)]
  {
    var sa, sb, sc, sd := IntToString(a), IntToString(b), IntToString(c), IntToString(d);
    var t3 := sc + ['.'] + sd;
    var t2 := sb + ['.'] + t3;
    var t1 := sa + ['.'] + t2;
    assert FormatFields(a, b, c, d) == t1;
    SplitOnNone(sd, '.');
    SplitOnFirst(sc, sd, '.');
    SplitOnFirst(sb, t3, '.');
    SplitOnFirst(sa, t2, '.');
  }

  /** The action string carries its four fields unambiguously: parsing it gives them back. */
  lemma FieldsRoundTrip(a: int, b: int, c: int, d: int)
    ensures ParseFields(FormatFields(a, b, c, d)) == Some((a, b, c, d))
  {
    FormatSplits(a, b, c, d);
    IntRoundTrip(a); IntRoundTrip(b); IntRoundTrip(c); IntRoundTrip(d);
  }
}
