/**
 * Text helpers the document engine relies on: JavaScript's decimal rendering of
 * integers (`n + ''`), printf's `%010d`, `Array.prototype.join`, the engine's
 * habit of writing every chunk followed by a newline, `toLowerCase` on the
 * ASCII names the engine compares against, and "this text sits at that offset".
 */
module Strings {

  // ---------------------------------------------------------------------------
  // Decimal integers
  // ---------------------------------------------------------------------------

  predicate IsDigit(c: char) {
    '0' <= c <= '9'
  }

  predicate IsDigits(s: string) {
    forall i :: 0 <= i < |s| ==> IsDigit(s[i])
  }

  function DigitChar(d: nat): (c: char)
    requires d < 10
    ensures IsDigit(c) && c as int - '0' as int == d
  {
    ('0' as int + d) as char
  }

  function DigitValue(c: char): nat
    requires IsDigit(c)
  {
    c as int - '0' as int
  }

  /** How JavaScript renders a non-negative integer when it is concatenated to a string. */
  function NatToString(n: nat): (s: string)
    ensures 1 <= |s| && IsDigits(s)
  {
    if n < 10 then [DigitChar(n)] else NatToString(n / 10) + [DigitChar(n % 10)]
  }

  /** The number a string of decimal digits denotes (what a PDF reader parses). */
  function DecimalValue(s: string): nat
    requires IsDigits(s)
  {
    if s == [] then 0 else DecimalValue(s[..|s| - 1]) * 10 + DigitValue(s[|s| - 1])
  }

  lemma {:induction false} NatToStringRoundTrip(n: nat)
    ensures DecimalValue(NatToString(n)) == n
  {
    var s := NatToString(n);
    if n >= 10 {
      NatToStringRoundTrip(n / 10);
      assert s[..|s| - 1] == NatToString(n / 10);
    }
  }

  lemma {:induction false} NatToStringInjective(a: nat, b: nat)
    requires NatToString(a) == NatToString(b)
    ensures a == b
  {
    NatToStringRoundTrip(a);
    NatToStringRoundTrip(b);
  }

  function Pow10(d: nat): (p: nat)
    ensures p >= 1
  {
    if d == 0 then 1 else 10 * Pow10(d - 1)
  }

  lemma {:induction false} NatToStringLength(n: nat, d: nat)
    requires 1 <= d && n < Pow10(d)
    ensures |NatToString(n)| <= d
  {
    if n >= 10 {
      assert d >= 2 && n / 10 < Pow10(d - 1);
      NatToStringLength(n / 10, d - 1);
    }
  }

  function Zeros(count: nat): (z: string)
    ensures |z| == count && IsDigits(z)
  {
    seq(count, _ => '0')
  }

  /** printf's `%0<width>d`: left-padded with zeros, never truncated. */
  function ZeroPad(n: nat, width: nat): string {
    var s := NatToString(n);
    if |s| < width then Zeros(width - |s|) + s else s
  }

  lemma {:induction false} LeadingZerosValue(z: nat, s: string)
    requires IsDigits(s)
    ensures IsDigits(Zeros(z) + s) && DecimalValue(Zeros(z) + s) == DecimalValue(s)
  {
    if s == [] {
      LeadingZerosValueOnly(z);
      assert Zeros(z) + s == Zeros(z);
    } else {
      var t := Zeros(z) + s;
      assert t[..|t| - 1] == Zeros(z) + s[..|s| - 1];
      LeadingZerosValue(z, s[..|s| - 1]);
    }
  }

  lemma {:induction false} LeadingZerosValueOnly(z: nat)
    ensures DecimalValue(Zeros(z)) == 0
  {
    if z > 0 {
      assert Zeros(z)[..z - 1] == Zeros(z - 1);
      LeadingZerosValueOnly(z - 1);
    }
  }

  /** `%010d` of a number below ten billion is exactly ten digits and reads back as the number. */
  lemma {:induction false} ZeroPadTen(n: nat)
    requires n < Pow10(10)
    ensures |ZeroPad(n, 10)| == 10
    ensures IsDigits(ZeroPad(n, 10)) && DecimalValue(ZeroPad(n, 10)) == n
  {
    NatToStringLength(n, 10);
    NatToStringRoundTrip(n);
    var s := NatToString(n);
    if |s| < 10 {
      LeadingZerosValue(10 - |s|, s);
    }
  }

  // ---------------------------------------------------------------------------
  // Joining and line output
  // ---------------------------------------------------------------------------

  /** `Array.prototype.join(sep)`: the parts with `sep` between neighbours; "" for no parts. */
  function Join(parts: seq<string>, sep: string): string {
    if |parts| == 0 then ""
    else if |parts| == 1 then parts[0]
    else Join(parts[..|parts| - 1], sep) + sep + parts[|parts| - 1]
  }

  function TotalLength(parts: seq<string>): nat {
    if parts == [] then 0 else TotalLength(parts[..|parts| - 1]) + |parts[|parts| - 1]|
  }

  lemma {:induction false} JoinLength(parts: seq<string>, sep: string)
    requires |parts| >= 1
    ensures |Join(parts, sep)| == TotalLength(parts) + (|parts| - 1) * |sep|
  {
    if |parts| > 1 {
      var init := parts[..|parts| - 1];
      JoinLength(init, sep);
    } else {
      assert parts[..0] == [];
    }
  }

  /** Every chunk the engine writes to its main buffer is followed by one newline. */
  function Unlines(lines: seq<string>): string {
    if lines == [] then "" else lines[0] + "\n" + Unlines(lines[1..])
  }

  lemma {:induction false} UnlinesSnoc(lines: seq<string>, line: string)
    ensures Unlines(lines + [line]) == Unlines(lines) + line + "\n"
  {
    if lines == [] {
      assert lines + [line] == [line];
      assert [line][1..] == [];
    } else {
      assert (lines + [line])[1..] == lines[1..] + [line];
      UnlinesSnoc(lines[1..], line);
    }
  }

  lemma {:induction false} UnlinesAppend(a: seq<string>, b: seq<string>)
    ensures Unlines(a + b) == Unlines(a) + Unlines(b)
  {
    if a == [] {
      assert a + b == b;
    } else {
      assert (a + b)[1..] == a[1..] + b;
      UnlinesAppend(a[1..], b);
    }
  }

  /** Writing `a` and then `b` after `prefix` is writing `a + b` after it. */
  lemma {:induction false} UnlinesAfter(prefix: string, a: seq<string>, b: seq<string>)
    ensures prefix + Unlines(a) + Unlines(b) == prefix + Unlines(a + b)
  {
    UnlinesAppend(a, b);
    assert prefix + Unlines(a) + Unlines(b) == prefix + (Unlines(a) + Unlines(b));
  }

  /** Writing one line and then `rest` after `prefix` is writing `[line] + rest` after it. */
  lemma {:induction false} UnlinesAfterLine(prefix: string, line: string, rest: seq<string>)
    ensures prefix + line + "\n" + Unlines(rest) == prefix + Unlines([line] + rest)
  {
    UnlinesSnoc([], line);
    assert [] + [line] == [line];
    UnlinesAfter(prefix, [line], rest);
  }

  // ---------------------------------------------------------------------------
  // Case folding of the ASCII names the engine compares against
  // ---------------------------------------------------------------------------

  function LowerChar(c: char): char {
    if 'A' <= c <= 'Z' then (c as int + 32) as char else c
  }

  /** `toLowerCase`, restricted to ASCII letters. */
  function Lower(s: string): (r: string)
    ensures |r| == |s|
  {
    seq(|s|, i requires 0 <= i < |s| => LowerChar(s[i]))
  }

  predicate IsLowerAscii(s: string) {
    forall i :: 0 <= i < |s| ==> !('A' <= s[i] <= 'Z')
  }

  lemma {:induction false} LowerIsLower(s: string)
    ensures IsLowerAscii(Lower(s))
  {
  }

  /** Lowering a name that is already lower case leaves it alone. */
  lemma {:induction false} LowerFixesLower(s: string)
    requires IsLowerAscii(s)
    ensures Lower(s) == s
  {
  }

  // ---------------------------------------------------------------------------
  // Positions in the output
  // ---------------------------------------------------------------------------

  /** The text `x` occurs in `buf` starting at offset `p`. */
  predicate StartsAt(buf: string, p: nat, x: string) {
    p + |x| <= |buf| && buf[p..p + |x|] == x
  }

  predicate EndsWith(s: string, t: string) {
    |t| <= |s| && s[|s| - |t|..] == t
  }

  lemma {:induction false} StartsAtPrefix(b1: string, b2: string, p: nat, x: string)
    requires StartsAt(b1, p, x) && b1 <= b2
    ensures StartsAt(b2, p, x)
  {
    assert b2[p..p + |x|] == b1[p..p + |x|];
  }

  lemma {:induction false} StartsAtHead(x: string, rest: string)
    ensures StartsAt(x + rest, 0, x)
  {
    assert (x + rest)[0..|x|] == x;
  }

  lemma {:induction false} StartsAtAppended(b: string, x: string, rest: string)
    ensures StartsAt(b + x + rest, |b|, x)
  {
    assert (b + x + rest)[|b|..|b| + |x|] == x;
  }

  /** A text found inside a piece is found, shifted, inside anything built around that piece. */
  lemma {:induction false} StartsAtShift(pre: string, x: string, post: string, p: nat, y: string)
    requires StartsAt(x, p, y)
    ensures StartsAt(pre + x + post, |pre| + p, y)
  {
    assert (pre + x + post)[|pre| + p..|pre| + p + |y|] == x[p..p + |y|];
  }

  lemma {:induction false} StartsAtSplit(b: string, p: nat, x: string, y: string)
    requires StartsAt(b, p, x + y)
    ensures StartsAt(b, p, x) && StartsAt(b, p + |x|, y)
  {
    assert b[p..p + |x|] == (x + y)[..|x|];
    assert b[p + |x|..p + |x| + |y|] == (x + y)[|x|..];
  }

  lemma {:induction false} StartsAtFirst(b: string, p: nat, x: string, y: string)
    requires StartsAt(b, p, x + y)
    ensures StartsAt(b, p, x)
  {
    StartsAtSplit(b, p, x, y);
  }


  lemma {:induction false} EndsWithExtended(a: string, s: string, t: string)
    requires EndsWith(s, t)
    ensures EndsWith(a + s, t)
  {
    assert (a + s)[|a + s| - |t|..] == s[|s| - |t|..];
  }
}
