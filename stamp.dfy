/**
 * The push tick's commit message, `fmt.Sprintf("go-deployer auto-commit: %d/%d/%d %d:%d",
 * day, month, year, hour, minutes)`, and a reader that accepts exactly
 * what `%d` writes, so that the format is shown to lose nothing and to be
 * the only way of writing a time.
 */
module Stamp {
  import opened Wrappers

  /** The fields of time.Now() the message uses. */
  datatype Stamp = Stamp(day: int, month: int, year: int, hour: int, minute: int)

  const Prefix: string := "go-deployer auto-commit: "

  predicate IsDigit(c: char)
  {
    '0' <= c <= '9'
  }

  predicate AllDigits(s: string)
  {
    forall i :: 0 <= i < |s| ==> IsDigit(s[i])
  }

  function DigitChar(d: nat): (c: char)
    requires d < 10
    ensures IsDigit(c)
  {
    ('0' as int + d) as char
  }

  function DigitValue(c: char): (d: nat)
    requires IsDigit(c)
    ensures d < 10
  {
    c as int - '0' as int
  }

  /** `%d` of a non-negative integer: its decimal digits, no padding, no leading zero. */
  function Natural(n: nat): (s: string)
    ensures |s| > 0 && AllDigits(s)
    ensures s[0] == '0' <==> n == 0
    ensures n == 0 ==> s == "0"
  {
    if n < 10 then [DigitChar(n)] else Natural(n / 10) + [DigitChar(n % 10)]
  }

  /** `%d` of any integer: a minus sign before the digits of a negative one. */
  function Decimal(n: int): string
  {
    if n < 0 then "-" + Natural(-n) else Natural(n)
  }

  /** The commit message written for the time `now`. */
  function CommitMessage(now: Stamp): (m: string)
    ensures |Prefix| <= |m| && m[..|Prefix|] == Prefix
  {
    Prefix + (Decimal(now.day) + "/" + (Decimal(now.month) + "/"
      + (Decimal(now.year) + " " + (Decimal(now.hour) + ":" + Decimal(now.minute)))))
  }

  /** The number a string of digits denotes. */
  function ValueOf(s: string): nat
    requires AllDigits(s)
  {
    if s == [] then 0 else 10 * ValueOf(s[..|s| - 1]) + DigitValue(s[|s| - 1])
  }

  /** Length of the run of digits that starts s. */
  function DigitRun(s: string): (k: nat)
    ensures k <= |s| && AllDigits(s[..k])
    ensures k < |s| ==> !IsDigit(s[k])
  {
    if s != [] && IsDigit(s[0]) then
      var k := 1 + DigitRun(s[1..]);
      assert s[..k] == [s[0]] + s[1..][..k - 1];
      k
    else 0
  }

  /**
   * Reads an optionally negative decimal integer written as `%d` writes
   * one from the front of s, giving it and the rest: no leading zero, and
   * no "-0".
   */
  function ReadInt(s: string): Option<(int, string)>
  {
    if |s| > 0 && s[0] == '-' then
      var digits := s[1..];
      var k := DigitRun(digits);
      if k == 0 || digits[0] == '0' then None else Some((0 - ValueOf(digits[..k]), digits[k..]))
    else
      var k := DigitRun(s);
      if k == 0 || (k > 1 && s[0] == '0') then None else Some((ValueOf(s[..k]), s[k..]))
  }

  /** Reads an integer followed by the separator sep. */
  function ReadField(s: string, sep: char): Option<(int, string)>
  {
    match ReadInt(s)
    case None => None
    case Some((n, rest)) => if |rest| > 0 && rest[0] == sep then Some((n, rest[1..])) else None
  }

  /** Recovers the time from a commit message, or None when m is not one. */
  function ParseCommitMessage(m: string): Option<Stamp>
  {
    if |m| < |Prefix| || m[..|Prefix|] != Prefix then None
    else
      var f1 := ReadField(m[|Prefix|..], '/');
      if f1.None? then None else
      var f2 := ReadField(f1.value.1, '/');
      if f2.None? then None else
      var f3 := ReadField(f2.value.1, ' ');
      if f3.None? then None else
      var f4 := ReadField(f3.value.1, ':');
      if f4.None? then None else
      var f5 := ReadInt(f4.value.1);
      if f5.None? || f5.value.1 != [] then None else
      Some(Stamp(f1.value.0, f2.value.0, f3.value.0, f4.value.0, f5.value.0))
  }

  lemma {:induction false} NaturalValue(n: nat)
    ensures ValueOf(Natural(n)) == n
  {
    if n >= 10 {
      var s := Natural(n);
      assert s[..|s| - 1] == Natural(n / 10);
      NaturalValue(n / 10);
    }
  }

  lemma {:induction false} DigitRunStops(p: string, rest: string)
    requires AllDigits(p)
    requires rest == [] || !IsDigit(rest[0])
    ensures DigitRun(p + rest) == |p|
  {
    if p != [] {
      assert (p + rest)[1..] == p[1..] + rest;
      DigitRunStops(p[1..], rest);
    }
  }

  /** Reading back what `%d` wrote for a non-negative number gives it and leaves what followed it. */
  lemma ReadIntNatural(n: nat, rest: string)
    requires rest == [] || !IsDigit(rest[0])
    ensures ReadInt(Natural(n) + rest) == Some((n, rest))
  {
    var p := Natural(n);
    DigitRunStops(p, rest);
    NaturalValue(n);
    assert (p + rest)[..|p|] == p && (p + rest)[|p|..] == rest;
    assert (p + rest)[0] == p[0];
  }

  /** Reading back what `%d` wrote for a negative number gives it and leaves what followed it. */
  lemma ReadIntNegative(v: nat, rest: string)
    requires v > 0
    requires rest == [] || !IsDigit(rest[0])
    ensures ReadInt("-" + Natural(v) + rest) == Some((0 - v, rest))
  {
    var p := Natural(v);
    var s := "-" + p + rest;
    var digits := s[1..];
    assert digits == p + rest;
    DigitRunStops(p, rest);
    NaturalValue(v);
    assert digits[..|p|] == p && digits[|p|..] == rest;
    assert digits[0] == p[0];
  }

  /** Reading back what `%d` wrote gives the number and leaves what followed it. */
  lemma ReadIntDecimal(n: int, rest: string)
    requires rest == [] || !IsDigit(rest[0])
    ensures ReadInt(Decimal(n) + rest) == Some((n, rest))
  {
    if n < 0 {
      ReadIntNegative(-n, rest);
    } else {
      ReadIntNatural(n, rest);
    }
  }

  lemma ReadFieldDecimal(n: int, sep: char, rest: string)
    requires !IsDigit(sep)
    ensures ReadField(Decimal(n) + [sep] + rest, sep) == Some((n, rest))
  {
    assert Decimal(n) + [sep] + rest == Decimal(n) + ([sep] + rest);
    ReadIntDecimal(n, [sep] + rest);
  }

  /** The message determines the time it was written for: reading it back gives the five fields. */
  lemma CommitMessageRoundTrip(now: Stamp)
    ensures ParseCommitMessage(CommitMessage(now)) == Some(now)
  {
    var s5 := Decimal(now.minute);
    var s4 := Decimal(now.hour) + [':'] + s5;
    var s3 := Decimal(now.year) + [' '] + s4;
    var s2 := Decimal(now.month) + ['/'] + s3;
    var s1 := Decimal(now.day) + ['/'] + s2;
    assert CommitMessage(now) == Prefix + s1;
    assert (Prefix + s1)[|Prefix|..] == s1;
    ReadFieldDecimal(now.day, '/', s2);
    ReadFieldDecimal(now.month, '/', s3);
    ReadFieldDecimal(now.year, ' ', s4);
    ReadFieldDecimal(now.hour, ':', s5);
    ReadIntDecimal(now.minute, []);
    assert s5 + [] == s5;
  }

  /** Two different times never give the same commit message. */
  lemma CommitMessageInjective(a: Stamp, b: Stamp)
    ensures CommitMessage(a) == CommitMessage(b) ==> a == b
  {
    CommitMessageRoundTrip(a);
    CommitMessageRoundTrip(b);
  }

  /** Digits that do not start with a zero denote a positive number. */
  lemma {:induction false} LeadingDigitPositive(d: string)
    requires |d| > 0 && AllDigits(d) && d[0] != '0'
    ensures ValueOf(d) >= 1
  {
    if |d| > 1 {
      LeadingDigitPositive(d[..|d| - 1]);
    }
  }

  /** `%d` writes back exactly the digits it is given, provided they carry no leading zero. */
  lemma {:induction false} NaturalOfDigits(d: string)
    requires |d| > 0 && AllDigits(d) && (d[0] != '0' || |d| == 1)
    ensures Natural(ValueOf(d)) == d
  {
    if |d| > 1 {
      var p := d[..|d| - 1];
      LeadingDigitPositive(p);
      NaturalOfDigits(p);
      var v := ValueOf(d);
      assert v / 10 == ValueOf(p) && v % 10 == DigitValue(d[|d| - 1]);
      assert d == p + [d[|d| - 1]];
    }
  }

  /** Whatever the reader accepts is what `%d` writes for the number read, followed by the rest. */
  lemma ReadIntExact(s: string, n: int, rest: string)
    requires ReadInt(s) == Some((n, rest))
    ensures s == Decimal(n) + rest
  {
    if |s| > 0 && s[0] == '-' {
      var digits := s[1..];
      var k := DigitRun(digits);
      LeadingDigitPositive(digits[..k]);
      NaturalOfDigits(digits[..k]);
      assert digits == digits[..k] + digits[k..];
    } else {
      var k := DigitRun(s);
      NaturalOfDigits(s[..k]);
      assert s == s[..k] + s[k..];
    }
  }

  lemma ReadFieldExact(s: string, sep: char, n: int, rest: string)
    requires ReadField(s, sep) == Some((n, rest))
    ensures s == Decimal(n) + [sep] + rest
  {
    var r := ReadInt(s).value;
    ReadIntExact(s, n, r.1);
    assert r.1 == [sep] + rest;
  }

  /** Whatever reads as a time t is the message written for t. */
  lemma ParseCommitMessageExact(m: string, t: Stamp)
    requires ParseCommitMessage(m) == Some(t)
    ensures m == CommitMessage(t)
  {
    var s := m[|Prefix|..];
    var f1 := ReadField(s, '/').value;
    var f2 := ReadField(f1.1, '/').value;
    var f3 := ReadField(f2.1, ' ').value;
    var f4 := ReadField(f3.1, ':').value;
    ReadIntExact(f4.1, t.minute, []);
    assert f4.1 == Decimal(t.minute);
    ReadFieldExact(f3.1, ':', t.hour, f4.1);
    ReadFieldExact(f2.1, ' ', t.year, f3.1);
    ReadFieldExact(f1.1, '/', t.month, f2.1);
    ReadFieldExact(s, '/', t.day, f1.1);
    assert m == Prefix + s;
  }

  /**
   * A string reads as the time t exactly when it is the message written
   * for t: five unpadded decimal fields, day/month/year hour:minute, after
   * the prefix, and nothing else.
   */
  lemma CommitMessageExact(m: string, t: Stamp)
    ensures ParseCommitMessage(m) == Some(t) <==> m == CommitMessage(t)
  {
    if m == CommitMessage(t) {
      CommitMessageRoundTrip(t);
    }
    if ParseCommitMessage(m) == Some(t) {
      ParseCommitMessageExact(m, t);
    }
  }
}
