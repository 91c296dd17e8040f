/**
 * `pdfEscape` (jspdf.js:450-452) and the per-line escaping of multi-line text
 * (jspdf.js:489-499). A PDF literal string is delimited by parentheses and uses
 * the backslash as its escape character, so those three characters are escaped.
 */
module Escape {
  import opened Strings

  predicate IsSpecial(c: char) {
    c == '\\' || c == '(' || c == ')'
  }

  function CountOf(s: string, c: char): nat {
    if s == [] then 0 else (if s[0] == c then 1 else 0) + CountOf(s[1..], c)
  }

  function CountSpecial(s: string): nat {
    if s == [] then 0 else (if IsSpecial(s[0]) then 1 else 0) + CountSpecial(s[1..])
  }

  /** One `replace(/c/g, '\\' + c)`: every occurrence of `c` gets a backslash in front. */
  function EscapeChar(s: string, c: char): (r: string)
    ensures |r| == |s| + CountOf(s, c)
  {
    if s == [] then [] else (if s[0] == c then ['\\', c] else [s[0]]) + EscapeChar(s[1..], c)
  }

  /** The source's chain: backslashes first, then `(`, then `)`. */
  function PdfEscape(s: string): string {
    EscapeChar(EscapeChar(EscapeChar(s, '\\'), '('), ')')
  }

  /** Reference definition: a single left-to-right pass escaping each special character once. */
  function EscapeOnce(s: string): (r: string)
    ensures |r| == |s| + CountSpecial(s)
  {
    if s == [] then [] else (if IsSpecial(s[0]) then ['\\', s[0]] else [s[0]]) + EscapeOnce(s[1..])
  }

  /**
   * The backslash decoding of a literal string's inside: `\x` stands for `x`.
   * A reader's end-of-line rule (an unescaped CR or CR LF reads as LF) is not part of it.
   */
  function Unescape(t: string): string
    decreases |t|
  {
    if t == [] then []
    else if t[0] == '\\' && |t| >= 2 then [t[1]] + Unescape(t[2..])
    else [t[0]] + Unescape(t[1..])
  }

  /**
   * Reading `t` as the inside of a literal string never meets an unescaped
   * parenthesis and never ends on a dangling backslash.
   */
  predicate NoBareDelimiters(t: string)
    decreases |t|
  {
    if t == [] then true
    else if t[0] == '\\' then |t| >= 2 && NoBareDelimiters(t[2..])
    else t[0] != '(' && t[0] != ')' && NoBareDelimiters(t[1..])
  }

  lemma {:induction false} EscapeCharAppend(a: string, b: string, c: char)
    ensures EscapeChar(a + b, c) == EscapeChar(a, c) + EscapeChar(b, c)
  {
    if a != [] {
      assert (a + b)[1..] == a[1..] + b;
      EscapeCharAppend(a[1..], b, c);
    } else {
      assert a + b == b;
    }
  }

  /** The three-pass chain equals the one-pass reference: no introduced backslash is escaped again. */
  lemma {:induction false} PdfEscapeIsOnePass(s: string)
    ensures PdfEscape(s) == EscapeOnce(s)
  {
    if s != [] {
      var x, rest := s[0], s[1..];
      assert s == [x] + rest;
      PdfEscapeIsOnePass(rest);
      EscapeCharAppend([x], rest, '\\');
      var a1, b1 := EscapeChar([x], '\\'), EscapeChar(rest, '\\');
      EscapeCharAppend(a1, b1, '(');
      var a2, b2 := EscapeChar(a1, '('), EscapeChar(b1, '(');
      EscapeCharAppend(a2, b2, ')');
      assert EscapeChar([x], '\\') == (if x == '\\' then ['\\', '\\'] else [x]);
      if x == '\\' {
        assert EscapeChar(['\\', '\\'], '(') == ['\\', '\\'];
        assert EscapeChar(['\\', '\\'], ')') == ['\\', '\\'];
      } else if x == '(' {
        assert EscapeChar(['('], '(') == ['\\', '('];
        assert EscapeChar(['\\', '('], ')') == ['\\', '('];
      } else if x == ')' {
        assert EscapeChar([')'], '(') == [')'];
        assert EscapeChar([')'], ')') == ['\\', ')'];
      } else {
        assert EscapeChar([x], '(') == [x];
        assert EscapeChar([x], ')') == [x];
      }
    }
  }

  /** The output is longer than the input by exactly the number of `\`, `(` and `)`. */
  lemma {:induction false} PdfEscapeLength(s: string)
    ensures |PdfEscape(s)| == |s| + CountSpecial(s)
  {
    PdfEscapeIsOnePass(s);
  }

  lemma {:induction false} EscapeOnceRoundTrip(s: string)
    ensures Unescape(EscapeOnce(s)) == s
    ensures NoBareDelimiters(EscapeOnce(s))
  {
    if s != [] {
      EscapeOnceRoundTrip(s[1..]);
      var e := EscapeOnce(s);
      if IsSpecial(s[0]) {
        assert e == ['\\', s[0]] + EscapeOnce(s[1..]);
        assert e[2..] == EscapeOnce(s[1..]);
      } else {
        assert e == [s[0]] + EscapeOnce(s[1..]);
        assert e[1..] == EscapeOnce(s[1..]);
      }
    }
  }

  /** Backslash decoding recovers the original text, and the escaped text cannot close the literal early. */
  lemma {:induction false} PdfEscapeRoundTrip(s: string)
    ensures Unescape(PdfEscape(s)) == s
    ensures NoBareDelimiters(PdfEscape(s))
  {
    PdfEscapeIsOnePass(s);
    EscapeOnceRoundTrip(s);
  }

  lemma {:induction false} PdfEscapeExample(s: string)
    requires s == "a(b)c\\d"
    ensures PdfEscape(s) == "a\\(b\\)c\\\\d"
  {
    EscapeExampleHead();
    EscapeExampleTail();
    assert s == "a(b" + ")c\\d";
    PdfEscapeHalves("a(b", ")c\\d", "a\\(b", "\\)c\\\\d");
    assert "a\\(b" + "\\)c\\\\d" == "a\\(b\\)c\\\\d";
  }

  /** Escaping two halves separately and joining them is escaping the whole. */
  lemma {:induction false} PdfEscapeHalves(a: string, b: string, ea: string, eb: string)
    requires EscapeOnce(a) == ea && EscapeOnce(b) == eb
    ensures PdfEscape(a + b) == ea + eb
  {
    PdfEscapeIsOnePass(a + b);
    EscapeOnceAppend(a, b);
  }

  lemma {:induction false} EscapeExampleHead()
    ensures EscapeOnce("a(b") == "a\\(b"
  {
    assert "a(b" == ['a'] + (['('] + ['b']);
    EscapeOnceCons('a', ['('] + ['b']);
    EscapeOnceCons('(', ['b']);
    EscapeOnceCons('b', []);
  }

  lemma {:induction false} EscapeExampleTail()
    ensures EscapeOnce(")c\\d") == "\\)c\\\\d"
  {
    assert ")c\\d" == [')'] + (['c'] + (['\\'] + ['d']));
    EscapeOnceCons(')', ['c'] + (['\\'] + ['d']));
    EscapeOnceCons('c', ['\\'] + ['d']);
    EscapeOnceCons('\\', ['d']);
    EscapeOnceCons('d', []);
  }

  lemma {:induction false} EscapeOnceAppend(a: string, b: string)
    ensures EscapeOnce(a + b) == EscapeOnce(a) + EscapeOnce(b)
  {
    if a != [] {
      assert (a + b)[1..] == a[1..] + b;
      EscapeOnceAppend(a[1..], b);
    } else {
      assert a + b == b;
    }
  }

  lemma {:induction false} EscapeOnceCons(c: char, rest: string)
    ensures EscapeOnce([c] + rest) == (if IsSpecial(c) then ['\\', c] else [c]) + EscapeOnce(rest)
  {
    assert ([c] + rest)[1..] == rest;
  }

  /** Escaping is not idempotent: escaped text escaped again is escaped twice. */
  lemma {:induction false} PdfEscapeDoubles(s: string)
    requires s == "("
    ensures PdfEscape(s) == "\\("
    ensures PdfEscape(PdfEscape(s)) == "\\\\\\("
  {
    PdfEscapeIsOnePass(s);
    EscapeOnceCons('(', []);
    assert s == ['('] + [];
    var t := PdfEscape(s);
    assert t == ['\\'] + (['('] + []);
    PdfEscapeIsOnePass(t);
    EscapeOnceCons('\\', ['('] + []);
    EscapeOnceCons('(', []);
  }

  // ---------------------------------------------------------------------------
  // Multi-line text
  // ---------------------------------------------------------------------------

  /** What the source joins the escaped lines with: end one line, go to the next, start another. */
  const LineBreak: string := ") Tj\nT* ("

  function MapEscape(lines: seq<string>): (r: seq<string>)
    ensures |r| == |lines|
  {
    seq(|lines|, i requires 0 <= i < |lines| => PdfEscape(lines[i]))
  }

  /**
   * The loop at jspdf.js:496-498 on a copy of the caller's array: from the last
   * element down to the first, each element is replaced by its escaped form.
   */
  method EscapeLines(lines: seq<string>) returns (escaped: seq<string>)
    ensures |escaped| == |lines|
    ensures forall i :: 0 <= i < |lines| ==> escaped[i] == PdfEscape(lines[i])
  {
    var copy := new string[|lines|](i requires 0 <= i < |lines| => lines[i]);
    var i: int := |lines| - 1;
    while i != -1
      invariant -1 <= i < |lines|
      invariant forall j :: 0 <= j <= i ==> copy[j] == lines[j]
      invariant forall j :: i < j < |lines| ==> copy[j] == PdfEscape(lines[j])
      decreases i + 1
    {
      copy[i] := PdfEscape(copy[i]);
      i := i - 1;
    }
    escaped := copy[..];
  }

  lemma {:induction false} CountSpecialAppend(a: string, b: string)
    ensures CountSpecial(a + b) == CountSpecial(a) + CountSpecial(b)
  {
    if a == [] {
      assert a + b == b;
    } else {
      assert (a + b)[1..] == a[1..] + b;
      CountSpecialAppend(a[1..], b);
    }
  }

  lemma {:induction false} CountSpecialJoin(lines: seq<string>)
    requires |lines| >= 1
    ensures CountSpecial(Join(lines, LineBreak))
            == TotalSpecial(lines) + 2 * (|lines| - 1)
  {
    if |lines| > 1 {
      var init := lines[..|lines| - 1];
      CountSpecialJoin(init);
      CountSpecialAppend(Join(init, LineBreak), LineBreak);
      CountSpecialAppend(Join(init, LineBreak) + LineBreak, lines[|lines| - 1]);
      assert CountSpecial(LineBreak) == 2;
    } else {
      assert lines[..0] == [];
    }
  }

  function TotalSpecial(lines: seq<string>): nat {
    if lines == [] then 0 else TotalSpecial(lines[..|lines| - 1]) + CountSpecial(lines[|lines| - 1])
  }

  lemma {:induction false} TotalLengthOfEscaped(lines: seq<string>)
    ensures TotalLength(MapEscape(lines)) == TotalLength(lines) + TotalSpecial(lines)
  {
    if lines != [] {
      var init := lines[..|lines| - 1];
      TotalLengthOfEscaped(init);
      assert MapEscape(lines)[..|lines| - 1] == MapEscape(init);
      PdfEscapeLength(lines[|lines| - 1]);
    }
  }

  /**
   * Why each line is escaped before the join: escaping after the join would also
   * escape the parentheses of every separator, and the text operators would break.
   */
  lemma {:induction false} EscapeBeforeJoinMatters(lines: seq<string>)
    requires |lines| >= 2
    ensures Join(MapEscape(lines), LineBreak) != PdfEscape(Join(lines, LineBreak))
  {
    JoinLength(MapEscape(lines), LineBreak);
    JoinLength(lines, LineBreak);
    TotalLengthOfEscaped(lines);
    PdfEscapeLength(Join(lines, LineBreak));
    CountSpecialJoin(lines);
  }

  /** A single-element array prints exactly like the same text given as a string. */
  lemma {:induction false} SingleLineAsString(line: string)
    ensures Join(MapEscape([line]), LineBreak) == PdfEscape(line)
  {
  }
}
