/**
 * The content-stream operators the drawing calls emit (jspdf.js:473-565,
 * 613-644): which paint operator a style selects, which colour operator a
 * colour selects, and the order of the numeric operands around them.
 *
 * Numbers are printed by `sprintf('%.Nf')` and by JavaScript's own number
 * rendering, neither of which is part of this model: they are the parameters
 * `fixed` and `show` of `Numerics`. The Bezier constant 4/3 (sqrt 2 - 1) of the
 * ellipse, which the source computes in floating point, is `kappa`.
 */
module Operators {
  import opened Wrappers
  import opened Strings
  import opened Escape

  datatype Numerics = Numerics(fixed: (nat, real) -> string, show: real -> string, kappa: real)

  // ---------------------------------------------------------------------------
  // Coordinates
  // ---------------------------------------------------------------------------

  /**
   * User space has its origin at the top left, PDF space at the bottom left and
   * is measured in points: x is scaled, y is flipped against the page height.
   */
  function ToPdf(k: real, pageHeight: real, p: (real, real)): (real, real) {
    (p.0 * k, (pageHeight - p.1) * k)
  }

  /**
   * The flip against the page height matches the page box: the top edge of the
   * page is the top of the MediaBox, the bottom edge is 0, further down the page
   * is lower in PDF space, and x keeps its order.
   */
  lemma {:induction false} FlipMatchesPageBox(k: real, pageHeight: real, p: (real, real), q: (real, real))
    requires k > 0.0
    ensures p.1 == 0.0 ==> ToPdf(k, pageHeight, p).1 == pageHeight * k
    ensures p.1 == pageHeight ==> ToPdf(k, pageHeight, p).1 == 0.0
    ensures p.1 < q.1 <==> ToPdf(k, pageHeight, p).1 > ToPdf(k, pageHeight, q).1
    ensures p.0 < q.0 <==> ToPdf(k, pageHeight, p).0 < ToPdf(k, pageHeight, q).0
  {
    var dp, dq := pageHeight - p.1, pageHeight - q.1;
    assert p.1 < q.1 <==> dp > dq;
    assert dp > dq <==> dp * k > dq * k;
    assert p.0 < q.0 <==> p.0 * k < q.0 * k;
  }

  /** A point as two `%.2f` operands in PDF space. */
  function Point(num: Numerics, k: real, pageHeight: real, p: (real, real)): string {
    var q := ToPdf(k, pageHeight, p);
    num.fixed(2, q.0) + " " + num.fixed(2, q.1)
  }

  // ---------------------------------------------------------------------------
  // Paint operators
  // ---------------------------------------------------------------------------

  predicate Fills(op: string) {
    op == "f" || op == "B"
  }

  predicate Strokes(op: string) {
    op == "S" || op == "B"
  }

  /** jspdf.js:525-530 and 535-540: `'F'` fills, `'FD'`/`'DF'` fill and stroke, anything else strokes. */
  function PaintOperator(style: Option<string>): (op: string)
    ensures op == "S" || op == "f" || op == "B"
    ensures Fills(op) <==> style == Some("F") || style == Some("FD") || style == Some("DF")
    ensures Strokes(op) <==> style != Some("F")
  {
    if style == Some("F") then "f"
    else if style == Some("FD") || style == Some("DF") then "B"
    else "S"
  }

  // ---------------------------------------------------------------------------
  // Path operators
  // ---------------------------------------------------------------------------

  /** jspdf.js:520: move to the first point, line to the second, stroke. */
  function LineOperator(num: Numerics, k: real, pageHeight: real, p1: (real, real), p2: (real, real)): string {
    Point(num, k, pageHeight, p1) + " m " + Point(num, k, pageHeight, p2) + " l S"
  }

  /** jspdf.js:531: the corner, the width and the (negated, because y is flipped) height, then paint. */
  function RectOperator(num: Numerics, k: real, pageHeight: real, x: real, y: real, w: real, h: real,
                        style: Option<string>): string
  {
    Point(num, k, pageHeight, (x, y)) + " " + num.fixed(2, w * k) + " " + num.fixed(2, -h * k)
      + " re " + PaintOperator(style)
  }

  /**
   * The operands of `re` describe the user-space rectangle from (x, y) to
   * (x + w, y + h): the first corner in PDF space, then the offsets that reach
   * the opposite corner in PDF space, then the paint operator of the style.
   */
  lemma {:induction false} RectOperatorSpans(num: Numerics, k: real, pageHeight: real, x: real, y: real, w: real, h: real,
                          style: Option<string>)
    ensures var corner, far := ToPdf(k, pageHeight, (x, y)), ToPdf(k, pageHeight, (x + w, y + h));
      RectOperator(num, k, pageHeight, x, y, w, h, style)
      == Point(num, k, pageHeight, (x, y)) + " " + num.fixed(2, far.0 - corner.0) + " "
         + num.fixed(2, far.1 - corner.1) + " re " + PaintOperator(style)
  {
    var corner, far := ToPdf(k, pageHeight, (x, y)), ToPdf(k, pageHeight, (x + w, y + h));
    assert far.0 - corner.0 == (x + w) * k - x * k == w * k;
    assert far.1 - corner.1 == (pageHeight - (y + h)) * k - (pageHeight - y) * k == -h * k;
  }

  /**
   * The thirteen points of the four cubic Bezier segments of jspdf.js:541-560,
   * in user space: start at the right end of the horizontal axis and go round
   * through the top, left and bottom extremes back to the start. Points
   * 0, 3, 6, 9 and 12 are on the curve; the others are control points.
   */
  function EllipsePath(x: real, y: real, rx: real, ry: real, kappa: real): (path: seq<(real, real)>)
    ensures |path| == 13
  {
    var lx := kappa * rx;
    var ly := kappa * ry;
    [ (x + rx, y),
      (x + rx, y - ly), (x + lx, y - ry), (x, y - ry),
      (x - lx, y - ry), (x - rx, y - ly), (x - rx, y),
      (x - rx, y + ly), (x - lx, y + ry), (x, y + ry),
      (x + lx, y + ry), (x + rx, y + ly), (x + rx, y) ]
  }

  /** The four operators the ellipse writes: a move and three curves, then a fourth curve and the paint operator. */
  function EllipseOperators(num: Numerics, k: real, pageHeight: real, x: real, y: real, rx: real, ry: real,
                            style: Option<string>): (ops: seq<string>)
    ensures |ops| == 4
  {
    var path := EllipsePath(x, y, rx, ry, num.kappa);
    var P := (i: nat) requires i < 13 => Point(num, k, pageHeight, path[i]);
    [ P(0) + " m " + P(1) + " " + P(2) + " " + P(3) + " c",
      P(4) + " " + P(5) + " " + P(6) + " c",
      P(7) + " " + P(8) + " " + P(9) + " c",
      P(10) + " " + P(11) + " " + P(12) + " c " + PaintOperator(style) ]
  }

  predicate OnEllipse(x: real, y: real, rx: real, ry: real, p: (real, real))
    requires rx != 0.0 && ry != 0.0
  {
    ((p.0 - x) / rx) * ((p.0 - x) / rx) + ((p.1 - y) / ry) * ((p.1 - y) / ry) == 1.0
  }

  /**
   * The path is closed, its on-curve points are the four extremes of the
   * ellipse, and at each of them both neighbouring control points lie on the
   * tangent, so consecutive segments join smoothly. This holds for any `kappa`.
   */
  lemma {:induction false} EllipsePathShape(x: real, y: real, rx: real, ry: real, kappa: real)
    requires rx != 0.0 && ry != 0.0
    ensures var path := EllipsePath(x, y, rx, ry, kappa);
      && path[12] == path[0]
      && OnEllipse(x, y, rx, ry, path[0]) && OnEllipse(x, y, rx, ry, path[3])
      && OnEllipse(x, y, rx, ry, path[6]) && OnEllipse(x, y, rx, ry, path[9])
      && path[11].0 == path[0].0 == path[1].0
      && path[2].1 == path[3].1 == path[4].1
      && path[5].0 == path[6].0 == path[7].0
      && path[8].1 == path[9].1 == path[10].1
  {
    var path := EllipsePath(x, y, rx, ry, kappa);
    assert (path[0].0 - x) / rx == 1.0;
    assert (path[6].0 - x) / rx == -1.0;
    assert (path[3].1 - y) / ry == -1.0;
    assert (path[9].1 - y) / ry == 1.0;
  }

  /** Only the last operator of an ellipse paints, with the operator the style selects. */
  lemma {:induction false} EllipsePaintsOnce(num: Numerics, k: real, pageHeight: real, x: real, y: real, rx: real, ry: real,
                          style: Option<string>)
    ensures var ops := EllipseOperators(num, k, pageHeight, x, y, rx, ry, style);
      EndsWith(ops[0], " c") && EndsWith(ops[1], " c") && EndsWith(ops[2], " c")
      && EndsWith(ops[3], " c " + PaintOperator(style))
  {
    var ops := EllipseOperators(num, k, pageHeight, x, y, rx, ry, style);
    var path := EllipsePath(x, y, rx, ry, num.kappa);
    var P := (i: nat) requires i < 13 => Point(num, k, pageHeight, path[i]);
    EndsWithAppended(P(0) + " m " + P(1) + " " + P(2) + " " + P(3), " c");
    EndsWithAppended(P(4) + " " + P(5) + " " + P(6), " c");
    EndsWithAppended(P(7) + " " + P(8) + " " + P(9), " c");
    EndsWithAppended(P(10) + " " + P(11) + " " + P(12), " c " + PaintOperator(style));
  }

  lemma {:induction false} EndsWithSecondLast(s: string, t: string)
    requires |t| >= 2
    ensures EndsWith(s, t) ==> |s| >= 2 && s[|s| - 2] == t[|t| - 2]
  {
    if EndsWith(s, t) {
      assert s[|s| - 2] == s[|s| - |t|..][|t| - 2];
    }
  }

  lemma {:induction false} EndsWithAppended(s: string, t: string)
    ensures EndsWith(s + t, t)
  {
    assert (s + t)[|s + t| - |t|..] == t;
  }

  // ---------------------------------------------------------------------------
  // Graphics state operators
  // ---------------------------------------------------------------------------

  /** jspdf.js:428 and 614: a line width in user units, printed in points. */
  function LineWidthOperator(num: Numerics, k: real, width: real): string {
    num.fixed(2, width * k) + " w"
  }

  /** A colour call of one channel (gray level) or three (red, green, blue), each 0..255. */
  datatype ColorArgs = OneChannel(r: real) | ThreeChannels(r: real, g: real, b: real)

  /** jspdf.js:619, 629, 638: one channel, or all three zero, selects the gray operator. */
  predicate IsGrayscale(c: ColorArgs) {
    c.OneChannel? || (c.r == 0.0 && c.g == 0.0 && c.b == 0.0)
  }

  function ColorOperator(num: Numerics, c: ColorArgs, grayOp: string, rgbOp: string): string {
    if IsGrayscale(c) then num.fixed(3, c.r / 255.0) + " " + grayOp
    else num.fixed(3, c.r / 255.0) + " " + num.fixed(3, c.g / 255.0) + " " + num.fixed(3, c.b / 255.0)
         + " " + rgbOp
  }

  /** Stroke colour (`setDrawColor`): `G` or `RG`. */
  function StrokeColorOperator(num: Numerics, c: ColorArgs): string {
    ColorOperator(num, c, "G", "RG")
  }

  /** Fill colour (`setFillColor`, and the colour `setTextColor` stores): `g` or `rg`. */
  function FillColorOperator(num: Numerics, c: ColorArgs): string {
    ColorOperator(num, c, "g", "rg")
  }

  /** The operator a colour call writes is the gray one exactly when the call is grayscale. */
  lemma {:induction false} ColorOperatorChoice(num: Numerics, c: ColorArgs)
    ensures EndsWith(StrokeColorOperator(num, c), " G") <==> IsGrayscale(c)
    ensures EndsWith(StrokeColorOperator(num, c), " RG") <==> !IsGrayscale(c)
    ensures EndsWith(FillColorOperator(num, c), " g") <==> IsGrayscale(c)
    ensures EndsWith(FillColorOperator(num, c), " rg") <==> !IsGrayscale(c)
  {
    var s := StrokeColorOperator(num, c);
    var f := FillColorOperator(num, c);
    if IsGrayscale(c) {
      var head := num.fixed(3, c.r / 255.0);
      EndsWithAppended(head, " G");
      EndsWithAppended(head, " g");
      assert s == head + " G" && f == head + " g";
      assert s[|s| - 2] == ' ' && f[|f| - 2] == ' ';
      EndsWithSecondLast(s, " RG");
      EndsWithSecondLast(f, " rg");
    } else {
      var head := num.fixed(3, c.r / 255.0) + " " + num.fixed(3, c.g / 255.0) + " " + num.fixed(3, c.b / 255.0);
      EndsWithAppended(head, " RG");
      EndsWithAppended(head, " rg");
      assert s == head + " RG" && f == head + " rg";
      assert s[|s| - 2] == 'R' && f[|f| - 2] == 'r';
      EndsWithSecondLast(s, " G");
      EndsWithSecondLast(f, " g");
    }
  }

  /** Three zero channels are indistinguishable from a single zero channel (the source does not emit `0 0 0 RG`). */
  lemma {:induction false} BlackIsGray(num: Numerics)
    ensures StrokeColorOperator(num, ThreeChannels(0.0, 0.0, 0.0)) == StrokeColorOperator(num, OneChannel(0.0))
    ensures FillColorOperator(num, ThreeChannels(0.0, 0.0, 0.0)) == FillColorOperator(num, OneChannel(0.0))
  {
  }

  // ---------------------------------------------------------------------------
  // Text
  // ---------------------------------------------------------------------------

  /** The `text` argument: one string, or an array of strings printed on successive lines. */
  datatype TextArg = Single(text: string) | Lines(lines: seq<string>)

  /** What goes between the parentheses of the first `Tj` (jspdf.js:489-500). */
  function TextPayload(t: TextArg): string {
    match t
    case Single(s) => PdfEscape(s)
    case Lines(ls) => Join(MapEscape(ls), LineBreak)
  }

  /**
   * jspdf.js:508-516: a text object that restates font, size, leading and
   * colour, positions the first line and shows it; further lines follow `T*`.
   */
  function TextOperator(num: Numerics, fontKey: string, fontSize: real, textColor: string,
                        k: real, pageHeight: real, x: real, y: real, payload: string): string
  {
    "BT\n/" + fontKey + " "
      + (num.show(fontSize) + " Tf\n" + num.show(fontSize) + " TL\n" + textColor + "\n"
         + Point(num, k, pageHeight, (x, y)) + " Td\n")
      + ("(" + payload + ") Tj\nET")
  }

  /**
   * A text object opens with `BT` and the selected font, and closes with the
   * escaped payload shown by `Tj` and `ET`.
   */
  lemma {:induction false} TextOperatorShape(num: Numerics, fontKey: string, fontSize: real, textColor: string,
                          k: real, pageHeight: real, x: real, y: real, t: TextArg)
    ensures var op := TextOperator(num, fontKey, fontSize, textColor, k, pageHeight, x, y, TextPayload(t));
      "BT\n/" + fontKey + " " <= op && EndsWith(op, "(" + TextPayload(t) + ") Tj\nET")
  {
    var payload := TextPayload(t);
    var head := "BT\n/" + fontKey + " ";
    var middle := num.show(fontSize) + " Tf\n" + num.show(fontSize) + " TL\n" + textColor
      + "\n" + Point(num, k, pageHeight, (x, y)) + " Td\n";
    var tail := "(" + payload + ") Tj\nET";
    var op := TextOperator(num, fontKey, fontSize, textColor, k, pageHeight, x, y, payload);
    assert op[..|head|] == head;
    EndsWithAppended(head + middle, tail);
  }
}
