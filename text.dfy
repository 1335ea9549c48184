/** The JavaScript string and number behaviour the application relies on:
    `x || fallback`, `Number.prototype.toString` on integers,
    `String.prototype.padStart(2, '0')`, `slice(0, n)`, and the
    `YYYY-MM-DD HH:mm` stamp built from them. A decimal reader is the
    partner that shows the renderings lose nothing. */
module Text {
  import opened Wrappers

  /** Concatenation is associative. */
  lemma AppendAssoc<T>(x: seq<T>, y: seq<T>, z: seq<T>)
    ensures (x + y) + z == x + (y + z)
  {
  }

  // ---------------------------------------------------------------------
  // JavaScript truthiness

  /** An optional string is truthy when present and non-empty. */
  predicate Truthy(o: Option<string>)
  {
    o.Some? && o.value != ""
  }

  /** `o || fallback` on an optional string. */
  function OrElse(o: Option<string>, fallback: string): string
  {
    if Truthy(o) then o.value else fallback
  }

  /** `n || fallback` on an optional number: `0` is falsy as well. */
  function OrInt(o: Option<int>, fallback: int): int
  {
    if o.Some? && o.value != 0 then o.value else fallback
  }

  /** `s.slice(0, n)` for a non-negative `n`. */
  function Take(s: string, n: nat): (r: string)
    ensures |r| == if |s| < n then |s| else n
    ensures r <= s
  {
    if |s| <= n then s else s[..n]
  }

  // ---------------------------------------------------------------------
  // Decimal rendering

  predicate IsDigit(c: char)
  {
    '0' <= c <= '9'
  }

  predicate AllDigits(s: string)
  {
    forall i :: 0 <= i < |s| ==> IsDigit(s[i])
  }

  function DigitChar(d: nat): (c: char)
    requires d < 10
    ensures IsDigit(c)
  {
    ('0' as int + d) as char
  }

  function DigitValue(c: char): (d: nat)
    requires IsDigit(c)
    ensures d < 10
  {
    c as int - '0' as int
  }

  /** `n.toString()` for a non-negative integer: decimal digits without
      leading zeros. */
  function NatToString(n: nat): (s: string)
    ensures |s| >= 1 && AllDigits(s)
    ensures |s| > 1 ==> s[0] != '0'
    ensures |s| == 1 <==> n < 10
    decreases n
  {
    if n < 10 then [DigitChar(n)] else NatToString(n / 10) + [DigitChar(n % 10)]
  }

  /** `i.toString()` for any integer. */
  function IntToString(i: int): string
  {
    if i < 0 then "-" + NatToString(-i) else NatToString(i)
  }

  /** Reads a string of decimal digits; leading zeros are allowed. */
  function ParseDigits(s: string): nat
    requires AllDigits(s)
  {
    if s == [] then 0 else ParseDigits(s[..|s| - 1]) * 10 + DigitValue(s[|s| - 1])
  }

  /** Reading back the rendering of `n` gives `n`. */
  lemma {:induction false} ParseNatToString(n: nat)
    ensures ParseDigits(NatToString(n)) == n
    decreases n
  {
    var s := NatToString(n);
    if n >= 10 {
      ParseNatToString(n / 10);
      assert s[..|s| - 1] == NatToString(n / 10);
    }
  }

  /** A leading zero does not change the value read. */
  lemma {:induction false} ParseLeadingZero(t: string)
    requires AllDigits(t)
    ensures AllDigits("0" + t) && ParseDigits("0" + t) == ParseDigits(t)
    decreases |t|
  {
    var s := "0" + t;
    if t != [] {
      assert s[..|s| - 1] == "0" + t[..|t| - 1];
      ParseLeadingZero(t[..|t| - 1]);
    }
  }

  // ---------------------------------------------------------------------
  // Zero padding

  /** `s.padStart(2, '0')`. */
  function PadStart2(s: string): string
  {
    if |s| >= 2 then s else seq(2 - |s|, _ => '0') + s
  }

  /** `n.toString().padStart(2, '0')`. */
  function Pad2(n: int): string
  {
    PadStart2(IntToString(n))
  }

  /** Two-digit fields: a value in 0..99 becomes exactly two digits that
      read back as the value, with a zero in front of 0..9. */
  lemma Pad2Digits(n: int)
    requires 0 <= n < 100
    ensures |Pad2(n)| == 2 && AllDigits(Pad2(n))
    ensures ParseDigits(Pad2(n)) == n
    ensures n < 10 ==> Pad2(n)[0] == '0'
  {
    var s := NatToString(n);
    ParseNatToString(n);
    if n < 10 {
      assert Pad2(n) == "0" + s;
      ParseLeadingZero(s);
    } else {
      assert |NatToString(n / 10)| == 1;
      assert Pad2(n) == s;
    }
  }

  /** `${year}-${MM}-${DD} ${HH}:${mm}` with all but the year padded to
      two digits. */
  function Stamp(year: int, month: int, day: int, hours: int, minutes: int): string
  {
    IntToString(year) + "-" + Pad2(month) + "-" + Pad2(day) + " " + Pad2(hours) + ":" + Pad2(minutes)
  }

  /** Where each part of `y-a-b c:d` sits when the four fields are two
      characters wide. */
  lemma StampLayout(y: string, a: string, b: string, c: string, d: string)
    requires |a| == 2 && |b| == 2 && |c| == 2 && |d| == 2
    ensures var s, k := y + "-" + a + "-" + b + " " + c + ":" + d, |y|;
      |s| == k + 12 && s[..k] == y &&
      s[k] == '-' && s[k + 3] == '-' && s[k + 6] == ' ' && s[k + 9] == ':' &&
      s[k + 1..k + 3] == a && s[k + 4..k + 6] == b && s[k + 7..k + 9] == c && s[k + 10..] == d
  {
  }

  /** `s` reads back as the fields of a stamp: a run of year digits, then
      `-MM-DD HH:mm` with every field two digits wide. */
  predicate ReadsAsStamp(s: string, year: int, month: int, day: int, hours: int, minutes: int)
  {
    |s| >= 12 &&
    var k := |s| - 12;
    AllDigits(s[..k]) && ParseDigits(s[..k]) == year &&
    s[k] == '-' && s[k + 3] == '-' && s[k + 6] == ' ' && s[k + 9] == ':' &&
    AllDigits(s[k + 1..k + 3]) && ParseDigits(s[k + 1..k + 3]) == month &&
    AllDigits(s[k + 4..k + 6]) && ParseDigits(s[k + 4..k + 6]) == day &&
    AllDigits(s[k + 7..k + 9]) && ParseDigits(s[k + 7..k + 9]) == hours &&
    AllDigits(s[k + 10..]) && ParseDigits(s[k + 10..]) == minutes
  }

  /** Any digits laid out as `y-a-b c:d` read back as their values. */
  lemma StampRead(y: string, a: string, b: string, c: string, d: string)
    requires |a| == 2 && |b| == 2 && |c| == 2 && |d| == 2
    requires AllDigits(y) && AllDigits(a) && AllDigits(b) && AllDigits(c) && AllDigits(d)
    ensures ReadsAsStamp(y + "-" + a + "-" + b + " " + c + ":" + d,
      ParseDigits(y), ParseDigits(a), ParseDigits(b), ParseDigits(c), ParseDigits(d))
  {
    StampLayout(y, a, b, c, d);
  }

  /** The stamp can be read back: every field sits at a fixed position
      and reads back as the value it was built from. */
  lemma StampFields(year: int, month: int, day: int, hours: int, minutes: int)
    requires 0 <= year
    requires 0 <= month < 100 && 0 <= day < 100 && 0 <= hours < 100 && 0 <= minutes < 100
    ensures ReadsAsStamp(Stamp(year, month, day, hours, minutes), year, month, day, hours, minutes)
  {
    var y, a, b, c, d := NatToString(year), Pad2(month), Pad2(day), Pad2(hours), Pad2(minutes);
    Pad2Digits(month);
    Pad2Digits(day);
    Pad2Digits(hours);
    Pad2Digits(minutes);
    ParseNatToString(year);
    assert Stamp(year, month, day, hours, minutes) == y + "-" + a + "-" + b + " " + c + ":" + d;
    StampRead(y, a, b, c, d);
  }
}
