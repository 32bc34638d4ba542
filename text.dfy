/** The parts of `java.lang.String` the flow relies on: `trim`, `indexOf`,
    decimal rendering of integers (`Integer.toString`, `String.format("%0wd")`). */
module Text {
  import opened Lang

  /** `String.trim` removes every leading and trailing char `<= ' '`. */
  predicate Blank(c: char) {
    c <= ' '
  }

  function TrimStart(s: string): (r: string)
    ensures |r| <= |s| && r == s[|s| - |r|..]
    ensures forall k :: 0 <= k < |s| - |r| ==> Blank(s[k])
    ensures r == [] || !Blank(r[0])
  {
    if |s| > 0 && Blank(s[0]) then TrimStart(s[1..]) else s
  }

  function TrimEnd(s: string): (r: string)
    ensures |r| <= |s| && r == s[..|r|]
    ensures forall k :: |r| <= k < |s| ==> Blank(s[k])
    ensures r == [] || !Blank(r[|r| - 1])
  {
    if |s| > 0 && Blank(s[|s| - 1]) then TrimEnd(s[..|s| - 1]) else s
  }

  /** `s.trim()`: the longest factor of `s` with no blank at either end,
      obtained by dropping only blanks. */
  function Trim(s: string): (r: string)
    ensures r == [] || (!Blank(r[0]) && !Blank(r[|r| - 1]))
    ensures var i := |s| - |TrimStart(s)|;
      && i + |r| <= |s|
      && r == s[i..i + |r|]
      && (forall k :: 0 <= k < i ==> Blank(s[k]))
      && (forall k :: i + |r| <= k < |s| ==> Blank(s[k]))
  {
    TrimEnd(TrimStart(s))
  }

  /** A string that already has no blank at either end is left as it is. */
  lemma {:induction false} TrimOfTrimmed(s: string)
    requires s == [] || (!Blank(s[0]) && !Blank(s[|s| - 1]))
    ensures Trim(s) == s
  {
  }

  lemma TrimIdempotent(s: string)
    ensures Trim(Trim(s)) == Trim(s)
  {
    TrimOfTrimmed(Trim(s));
  }

  /** Surrounding blanks do not change the trimmed value. */
  lemma {:induction false} TrimIgnoresBlankPadding(pre: string, s: string, post: string)
    requires forall k :: 0 <= k < |pre| ==> Blank(pre[k])
    requires forall k :: 0 <= k < |post| ==> Blank(post[k])
    ensures Trim(pre + s + post) == Trim(s)
  {
    TrimStartDropsBlankPrefix(pre, s + post);
    assert pre + s + post == pre + (s + post);
    TrimEndDropsBlankSuffix(TrimStart(s), post);
    TrimStartOfAppend(s, post);
  }

  lemma {:induction false} TrimStartDropsBlankPrefix(pre: string, s: string)
    requires forall k :: 0 <= k < |pre| ==> Blank(pre[k])
    ensures TrimStart(pre + s) == TrimStart(s)
  {
    if pre == [] {
      assert pre + s == s;
    } else {
      assert (pre + s)[0] == pre[0] && (pre + s)[1..] == pre[1..] + s;
      TrimStartDropsBlankPrefix(pre[1..], s);
    }
  }

  lemma {:induction false} TrimEndDropsBlankSuffix(s: string, post: string)
    requires forall k :: 0 <= k < |post| ==> Blank(post[k])
    ensures TrimEnd(s + post) == TrimEnd(s)
  {
    if post == [] {
      assert s + post == s;
    } else {
      var n := |post|;
      assert (s + post)[|s + post| - 1] == post[n - 1];
      assert (s + post)[..|s + post| - 1] == s + post[..n - 1];
      TrimEndDropsBlankSuffix(s, post[..n - 1]);
    }
  }

  /** Trimming the front of `s + post` touches `post` only when `s` is all blank. */
  lemma {:induction false} TrimStartOfAppend(s: string, post: string)
    requires forall k :: 0 <= k < |post| ==> Blank(post[k])
    ensures TrimEnd(TrimStart(s + post)) == TrimEnd(TrimStart(s) + post)
  {
    if |s| > 0 && Blank(s[0]) {
      assert (s + post)[1..] == s[1..] + post;
      TrimStartOfAppend(s[1..], post);
    } else if s == [] {
      TrimStartOfBlanks(post);
      TrimEndOfBlanks(post);
    }
  }

  lemma {:induction false} TrimStartOfBlanks(s: string)
    requires forall k :: 0 <= k < |s| ==> Blank(s[k])
    ensures TrimStart(s) == []
  {
    if s != [] {
      TrimStartOfBlanks(s[1..]);
    }
  }

  lemma {:induction false} TrimEndOfBlanks(s: string)
    requires forall k :: 0 <= k < |s| ==> Blank(s[k])
    ensures TrimEnd(s) == []
  {
    if s != [] {
      TrimEndOfBlanks(s[..|s| - 1]);
    }
  }

  /** `s.indexOf(c)`: the first position of `c`, or -1. */
  function IndexOf(s: string, c: char): (r: int)
    ensures -1 <= r < |s|
    ensures r == -1 <==> c !in s
    ensures r >= 0 ==> s[r] == c && c !in s[..r]
  {
    if s == [] then -1
    else if s[0] == c then 0
    else
      var i := IndexOf(s[1..], c);
      assert s[1..][..if i < 0 then 0 else i] == s[1..1 + if i < 0 then 0 else i];
      if i < 0 then -1 else i + 1
  }

  // Decimal rendering

  predicate IsDigit(c: char) {
    '0' <= c <= '9'
  }

  predicate AllDigits(s: string) {
    forall k :: 0 <= k < |s| ==> IsDigit(s[k])
  }

  /** A digit string has no blanks, so `trim` leaves it as it is. */
  lemma DigitsAreTrimmed(s: string)
    requires AllDigits(s)
    ensures Trim(s) == s
  {
    if s != [] {
      assert IsDigit(s[0]) && IsDigit(s[|s| - 1]);
    }
    TrimOfTrimmed(s);
  }

  function DigitChar(d: nat): (c: char)
    requires d < 10
    ensures IsDigit(c) && c as int - '0' as int == d
  {
    ('0' as int + d) as char
  }

  /** The number a string of decimal digits denotes, most significant first. */
  function DecimalValue(s: string): nat
    requires AllDigits(s)
  {
    if s == [] then 0 else DecimalValue(s[..|s| - 1]) * 10 + (s[|s| - 1] as int - '0' as int)
  }

  /** `Long.toString(n)` for `n >= 0`: digits only, no leading zero, and it
      denotes `n`. */
  function NatToDecimal(n: nat): (r: string)
    ensures |r| >= 1 && AllDigits(r)
    ensures |r| == 1 || r[0] != '0'
    ensures DecimalValue(r) == n
  {
    if n < 10 then [DigitChar(n)]
    else
      var prefix := NatToDecimal(n / 10);
      var r := prefix + [DigitChar(n % 10)];
      assert r[..|r| - 1] == prefix;
      r
  }

  /** `Integer.toString(i)`: a minus sign before the digits of a negative number. */
  function IntToDecimal(i: int): (r: string)
    ensures i >= 0 ==> r == NatToDecimal(i)
    ensures i < 0 ==> r == "-" + NatToDecimal(-i)
  {
    if i < 0 then "-" + NatToDecimal(-i) else NatToDecimal(i)
  }

  /** Distinct integers have distinct decimal renderings. */
  lemma IntToDecimalInjective(i: int, j: int)
    requires IntToDecimal(i) == IntToDecimal(j)
    ensures i == j
  {
    if i < 0 && j < 0 {
      assert NatToDecimal(-i) == IntToDecimal(i)[1..] == NatToDecimal(-j);
    }
  }

  /** A number below `10^w` needs at most `w` digits (for `w >= 1`). */
  lemma {:induction false} DecimalLengthBound(n: nat, w: nat)
    requires w >= 1 && n < Pow(10, w)
    ensures |NatToDecimal(n)| <= w
  {
    if n >= 10 {
      assert n / 10 < Pow(10, w - 1);
      DecimalLengthBound(n / 10, w - 1);
    }
  }

  function Zeros(n: nat): (r: string)
    ensures |r| == n && forall k :: 0 <= k < n ==> r[k] == '0'
  {
    seq(n, _ => '0')
  }

  /** `String.format("%0" + width + "d", s)`: left-pad a digit string with
      zeros up to `width` characters; a longer string is kept whole. */
  function PadLeft(s: string, width: nat): (r: string)
    ensures |r| == if |s| < width then width else |s|
    ensures r[|r| - |s|..] == s
    ensures forall k :: 0 <= k < |r| - |s| ==> r[k] == '0'
  {
    if |s| < width then Zeros(width - |s|) + s else s
  }

  /** Leading zeros do not change the denoted number. */
  lemma {:induction false} LeadingZerosKeepValue(z: nat, s: string)
    requires AllDigits(s)
    ensures AllDigits(Zeros(z) + s) && DecimalValue(Zeros(z) + s) == DecimalValue(s)
  {
    if s == [] {
      assert Zeros(z) + s == Zeros(z);
      ZerosValue(z);
    } else {
      var t := Zeros(z) + s;
      assert t[..|t| - 1] == Zeros(z) + s[..|s| - 1];
      LeadingZerosKeepValue(z, s[..|s| - 1]);
    }
  }

  lemma {:induction false} ZerosValue(z: nat)
    ensures AllDigits(Zeros(z)) && DecimalValue(Zeros(z)) == 0
  {
    if z > 0 {
      assert Zeros(z)[..z - 1] == Zeros(z - 1);
      ZerosValue(z - 1);
    }
  }
}
