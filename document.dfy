/**
 * The `jsPDF` closure (jspdf.js:32-647) as a class: the drawing calls append
 * operator strings to the open page, and `BuildDocument` serialises the pages,
 * fonts, resources, info and catalog into one flat PDF file with its
 * cross-reference table and trailer.
 */
module Document {
  import opened Wrappers
  import opened Strings
  import opened Escape
  import opened Geometry
  import opened Operators
  import opened Fonts
  import opened Layout
  import opened Assembly

  /** `drawColor` (jspdf.js:88): no call assigns it, so every page starts with it. */
  const DrawColor: string := "0 G"
  /** `lineWidth` (jspdf.js:95), in user units; no call assigns it either. */
  const DefaultLineWidth: real := 0.200025

  /**
   * The source's `state` (jspdf.js:91): 0 before the first page, 2 while a page
   * is open, 1 while `buildDocument` writes the file, 3 once it is done.
   */
  datatype State = Initial | Building | PageOpen | Finished

  class Document {
    const num: Numerics
    const k: real
    const pageWidth: real
    const pageHeight: real
    const orientation: Orientation

    /** The file being assembled; written only while building. */
    var buffer: string
    /** Page i (0-based) holds the operators of the source's `pages[i + 1]`. */
    var pages: seq<seq<string>>
    /** Object number to the buffer offset of its declaration line. */
    var offsets: map<nat, nat>
    var objectNumber: nat
    var state: State
    var page: nat
    var fonts: seq<Font>
    var fontName: string
    var fontType: string
    var fontSize: real
    var textColor: string
    var properties: Properties

    /** Nothing has been written to the file yet: objects 1 and 2 are reserved and unused. */
    ghost predicate Unbuilt()
      reads this
    {
      buffer == "" && objectNumber == 2 && offsets == map[]
    }

    /** What every operation keeps: the page count, the reserved object numbers, a valid font and style. */
    ghost predicate Valid()
      reads this
    {
      k > 0.0
      && |pages| == page
      && objectNumber >= 2
      && Registered(fonts)
      && IsFamily(fontName) && IsStyle(fontType)
      && (state == PageOpen ==> page >= 1 && |fonts| == |StandardFaces| && Unbuilt())
    }

    /**
     * What the file-writing steps of `buildDocument` need and keep: the state
     * says the file is being written, the page count agrees with the pages, and
     * objects 1 and 2 are reserved.
     */
    ghost predicate Writing()
      reads this`state, this`pages, this`page, this`objectNumber
    {
      state == Building && |pages| == page && objectNumber >= 2
    }

    /** The last operator on the open page is `op`, appended to what was there; no other page changed. */
    ghost predicate Appended(before: seq<seq<string>>, ops: seq<string>)
      reads this
    {
      1 <= page == |before| == |pages|
      && pages[..page - 1] == before[..page - 1] && pages[page - 1] == before[page - 1] + ops
    }

    /** The state `_addPage` can run from: the first page, or another page before any output. */
    ghost predicate CanOpenPage()
      reads this
    {
      state == PageOpen || (state == Initial && Unbuilt() && |fonts| == |StandardFaces|)
    }

    // -------------------------------------------------------------------------
    // Construction
    // -------------------------------------------------------------------------

    /**
     * Field initialisation (jspdf.js:76-104), `addFonts` and the first page
     * (jspdf.js:446-447), for a geometry that `NewDocument` has resolved.
     */
    constructor (geometry: Geometry, num: Numerics)
      requires geometry.k > 0.0
      ensures Valid() && state == PageOpen && page == 1 && Unbuilt()
      ensures pages == [[LineWidthOperator(num, geometry.k, DefaultLineWidth), DrawColor]]
      ensures |fonts| == |StandardFaces|
      ensures forall i :: 0 <= i < |fonts| ==> fonts[i] == Font(FontKey(i), 2, StandardFaces[i])
      ensures fontName == HELVETICA && fontType == NORMAL && fontSize == 16.0 && textColor == "0 g"
      ensures properties == NoProperties
      ensures this.num == num && k == geometry.k
      ensures pageWidth == geometry.pageWidth && pageHeight == geometry.pageHeight
      ensures orientation == geometry.orientation
    {
      this.num := num;
      k := geometry.k;
      pageWidth := geometry.pageWidth;
      pageHeight := geometry.pageHeight;
      orientation := geometry.orientation;
      buffer := "";
      pages := [];
      offsets := map[];
      objectNumber := 2;
      state := Initial;
      page := 0;
      fonts := [];
      fontName := HELVETICA;
      fontType := NORMAL;
      fontSize := 16.0;
      textColor := "0 g";
      properties := NoProperties;
      new;
      AddFonts();
      OpenPage();
    }

    /** `addFont` (jspdf.js:269-271): the next key, and the current object number as a placeholder. */
    method AddFont(name: string, family: string, style: string)
      requires Valid() && state == Initial && |fonts| < |StandardFaces|
      requires StandardFaces[|fonts|] == FontFace(name, family, style)
      modifies this`fonts
      ensures Valid()
      ensures fonts == old(fonts) + [Font(FontKey(|old(fonts)|), objectNumber, FontFace(name, family, style))]
    {
      fonts := fonts + [Font(FontKey(|fonts|), objectNumber, FontFace(name, family, style))];
    }

    /** `addFonts` (jspdf.js:251-264): the twelve standard fonts, in the order of the standard table. */
    method AddFonts()
      requires Valid() && state == Initial && fonts == []
      modifies this`fonts
      ensures Valid() && |fonts| == |StandardFaces|
      ensures forall i :: 0 <= i < |fonts| ==> fonts[i] == Font(FontKey(i), objectNumber, StandardFaces[i])
    {
      var i := 0;
      while i < |StandardFaces|
        invariant 0 <= i <= |StandardFaces| && |fonts| == i && Valid()
        invariant forall j :: 0 <= j < i ==> fonts[j] == Font(FontKey(j), objectNumber, StandardFaces[j])
      {
        var face := StandardFaces[i];
        AddFont(face.name, face.fontName, face.fontType);
        i := i + 1;
      }
    }

    // -------------------------------------------------------------------------
    // Output routing and the object ledger
    // -------------------------------------------------------------------------

    /** `out` (jspdf.js:414-420): to the open page while a page is open, otherwise to the file. */
    method Out(s: string)
      requires |pages| == page && (state == PageOpen ==> page >= 1)
      modifies this`buffer, this`pages
      ensures |pages| == page && (old(Valid()) ==> Valid())
      ensures state == PageOpen ==> Appended(old(pages), [s]) && buffer == old(buffer)
      ensures state != PageOpen ==> buffer == old(buffer) + s + "\n" && pages == old(pages)
    {
      if state == PageOpen {
        pages := pages[page - 1 := pages[page - 1] + [s]];
      } else {
        buffer := buffer + s + "\n";
      }
    }

    /** Consecutive `out` calls while the file is written. */
    method OutLines(lines: seq<string>)
      requires Writing()
      modifies this`buffer, this`pages
      ensures Writing() && pages == old(pages)
      ensures buffer == old(buffer) + Unlines(lines)
    {
      var i := 0;
      while i < |lines|
        invariant 0 <= i <= |lines|
        invariant Writing() && pages == old(pages)
        invariant buffer == old(buffer) + Unlines(lines[..i])
      {
        Out(lines[i]);
        UnlinesSnoc(lines[..i], lines[i]);
        assert lines[..i + 1] == lines[..i] + [lines[i]];
        i := i + 1;
      }
      assert lines[..|lines|] == lines;
    }

    /**
     * `newObject` (jspdf.js:151-156): claim the next number, record the
     * current length of the file as its offset, and write its declaration.
     * No other offset changes.
     */
    method NewObject()
      requires Writing()
      modifies this`buffer, this`pages, this`objectNumber, this`offsets
      ensures Writing() && pages == old(pages)
      ensures objectNumber == old(objectNumber) + 1
      ensures offsets == old(offsets)[objectNumber := |old(buffer)|]
      ensures buffer == old(buffer) + Header(objectNumber) + "\n"
    {
      objectNumber := objectNumber + 1;
      offsets := offsets[objectNumber := |buffer|];
      Out(NatToString(objectNumber) + " 0 obj");
    }

    // -------------------------------------------------------------------------
    // Pages
    // -------------------------------------------------------------------------

    /** `beginPage` (jspdf.js:404-409): a new, empty page becomes the open one. */
    method BeginPage()
      requires Valid() && CanOpenPage()
      modifies this`page, this`state, this`pages
      ensures Valid() && state == PageOpen
      ensures page == old(page) + 1 && pages == old(pages) + [[]]
    {
      page := page + 1;
      state := PageOpen;
      pages := pages + [[]];
    }

    /** `_addPage` (jspdf.js:425-431): every page starts with the line width and the draw colour. */
    method OpenPage()
      requires Valid() && CanOpenPage()
      modifies this`page, this`state, this`pages, this`buffer
      ensures Valid() && state == PageOpen && buffer == old(buffer)
      ensures page == old(page) + 1
      ensures pages == old(pages) + [[LineWidthOperator(num, k, DefaultLineWidth), DrawColor]]
    {
      BeginPage();
      ghost var blank := pages;
      Out(LineWidthOperator(num, k, DefaultLineWidth));
      ghost var first := pages;
      Out(DrawColor);
      ghost var width := LineWidthOperator(num, k, DefaultLineWidth);
      assert blank == old(pages) + [[]] && blank[page - 1] == [];
      assert first == blank[page - 1 := [] + [width]];
      assert first == old(pages) + [[width]] by {
        assert [] + [width] == [width];
        assert |first| == |old(pages) + [[width]]|;
        forall i | 0 <= i < |first| ensures first[i] == (old(pages) + [[width]])[i] {
        }
      }
      assert first[page - 1] + [DrawColor] == [LineWidthOperator(num, k, DefaultLineWidth), DrawColor];
    }

    /** `addPage` (jspdf.js:460-463). */
    method AddPage()
      requires Valid() && state == PageOpen
      modifies this`page, this`state, this`pages, this`buffer
      ensures Valid() && state == PageOpen && buffer == old(buffer)
      ensures page == old(page) + 1
      ensures pages == old(pages) + [[LineWidthOperator(num, k, DefaultLineWidth), DrawColor]]
    {
      OpenPage();
    }

    // -------------------------------------------------------------------------
    // Fonts and settings
    // -------------------------------------------------------------------------

    /**
     * `getFont` (jspdf.js:436-443): the key of the first registered font of the
     * current family and style. With the full registry that is always found,
     * at position 4 * family + style.
     */
    method GetFont() returns (key: string)
      requires Valid()
      ensures key == FontKeyFor(fonts, fontName, fontType)
      ensures |fonts| == |StandardFaces| ==> key == FontKey(4 * FamilyIndex(fontName) + StyleIndex(fontType))
    {
      var i := 0;
      while i < |fonts| && !Matches(fonts[i], fontName, fontType)
        invariant 0 <= i <= |fonts|
        invariant forall j :: 0 <= j < i ==> !Matches(fonts[j], fontName, fontType)
      {
        i := i + 1;
      }
      if i < |fonts| {
        FirstMatchAt(fonts, fontName, fontType, i);
        key := fonts[i].key;
      } else {
        key := "F1";
      }
      if |fonts| == |StandardFaces| {
        FontAlwaysFound(fonts, fontName, fontType);
      }
    }

    /** `setFont` (jspdf.js:586-598): only a recognised family, compared in lower case, is taken. */
    method SetFont(name: string)
      requires Valid()
      modifies this`fontName
      ensures Valid()
      ensures IsFamily(Lower(name)) ==> fontName == Lower(name)
      ensures !IsFamily(Lower(name)) ==> fontName == old(fontName)
    {
      var lower := Lower(name);
      if lower == HELVETICA || lower == TIMES || lower == COURIER {
        fontName := lower;
      }
    }

    /** `setFontType` (jspdf.js:599-612): only a recognised style, compared in lower case, is taken. */
    method SetFontType(style: string)
      requires Valid()
      modifies this`fontType
      ensures Valid()
      ensures IsStyle(Lower(style)) ==> fontType == Lower(style)
      ensures !IsStyle(Lower(style)) ==> fontType == old(fontType)
    {
      var lower := Lower(style);
      if lower == NORMAL || lower == BOLD || lower == ITALIC || lower == BOLD_ITALIC {
        fontType := lower;
      }
    }

    /** `setFontSize` (jspdf.js:582-585). */
    method SetFontSize(size: real)
      requires Valid()
      modifies this`fontSize
      ensures Valid() && fontSize == size
    {
      fontSize := size;
    }

    /** `setTextColor` (jspdf.js:637-644): stored, and restated by every later text object. */
    method SetTextColor(color: ColorArgs)
      requires Valid()
      modifies this`textColor
      ensures Valid() && textColor == FillColorOperator(num, color)
    {
      textColor := FillColorOperator(num, color);
    }

    /** `setProperties` (jspdf.js:566-569). */
    method SetProperties(p: Properties)
      requires Valid()
      modifies this`properties
      ensures Valid() && properties == p
    {
      properties := p;
    }

    // -------------------------------------------------------------------------
    // Drawing: each call appends its operators to the open page
    // -------------------------------------------------------------------------

    /** `text` (jspdf.js:473-518). */
    method Text(x: real, y: real, text: TextArg)
      requires Valid() && state == PageOpen
      modifies this`buffer, this`pages
      ensures Valid() && buffer == old(buffer)
      ensures Appended(old(pages), [TextOperator(num, FontKeyFor(fonts, fontName, fontType), fontSize,
                                                 textColor, k, pageHeight, x, y, TextPayload(text))])
    {
      var str: string;
      match text {
        case Single(s) =>
          str := PdfEscape(s);
        case Lines(ls) =>
          var escaped := EscapeLines(ls);
          assert escaped == MapEscape(ls);
          str := Join(escaped, LineBreak);
      }
      var key := GetFont();
      Out(TextOperator(num, key, fontSize, textColor, k, pageHeight, x, y, str));
    }

    /** `line` (jspdf.js:519-523). */
    method Line(x1: real, y1: real, x2: real, y2: real)
      requires Valid() && state == PageOpen
      modifies this`buffer, this`pages
      ensures Valid() && buffer == old(buffer)
      ensures Appended(old(pages), [LineOperator(num, k, pageHeight, (x1, y1), (x2, y2))])
    {
      Out(LineOperator(num, k, pageHeight, (x1, y1), (x2, y2)));
    }

    /** `rect` (jspdf.js:524-533). */
    method Rect(x: real, y: real, w: real, h: real, style: Option<string>)
      requires Valid() && state == PageOpen
      modifies this`buffer, this`pages
      ensures Valid() && buffer == old(buffer)
      ensures Appended(old(pages), [RectOperator(num, k, pageHeight, x, y, w, h, style)])
    {
      Out(RectOperator(num, k, pageHeight, x, y, w, h, style));
    }

    /** `ellipse` (jspdf.js:534-562): four operators, in order. */
    method Ellipse(x: real, y: real, rx: real, ry: real, style: Option<string>)
      requires Valid() && state == PageOpen
      modifies this`buffer, this`pages
      ensures Valid() && buffer == old(buffer)
      ensures Appended(old(pages), EllipseOperators(num, k, pageHeight, x, y, rx, ry, style))
    {
      var ops := EllipseOperators(num, k, pageHeight, x, y, rx, ry, style);
      Out(ops[0]);
      Out(ops[1]);
      Out(ops[2]);
      Out(ops[3]);
      assert old(pages)[page - 1] + ops == old(pages)[page - 1] + [ops[0]] + [ops[1]] + [ops[2]] + [ops[3]];
    }

    /** `circle` (jspdf.js:563-565): an ellipse with equal radii. */
    method Circle(x: real, y: real, r: real, style: Option<string>)
      requires Valid() && state == PageOpen
      modifies this`buffer, this`pages
      ensures Valid() && buffer == old(buffer)
      ensures Appended(old(pages), EllipseOperators(num, k, pageHeight, x, y, r, r, style))
    {
      Ellipse(x, y, r, r, style);
    }

    /** `setLineWidth` (jspdf.js:613-616): written to the page; `lineWidth` itself is not changed. */
    method SetLineWidth(width: real)
      requires Valid() && state == PageOpen
      modifies this`buffer, this`pages
      ensures Valid() && buffer == old(buffer)
      ensures Appended(old(pages), [LineWidthOperator(num, k, width)])
    {
      Out(LineWidthOperator(num, k, width));
    }

    /** `setDrawColor` (jspdf.js:617-626): written to the page; `drawColor` itself is not changed. */
    method SetDrawColor(color: ColorArgs)
      requires Valid() && state == PageOpen
      modifies this`buffer, this`pages
      ensures Valid() && buffer == old(buffer)
      ensures Appended(old(pages), [StrokeColorOperator(num, color)])
    {
      Out(StrokeColorOperator(num, color));
    }

    /** `setFillColor` (jspdf.js:627-636). */
    method SetFillColor(color: ColorArgs)
      requires Valid() && state == PageOpen
      modifies this`buffer, this`pages
      ensures Valid() && buffer == old(buffer)
      ensures Appended(old(pages), [FillColorOperator(num, color)])
    {
      Out(FillColorOperator(num, color));
    }

    // -------------------------------------------------------------------------
    // Assembling the file
    // -------------------------------------------------------------------------

    /** `putHeader` (jspdf.js:161-163). */
    method PutHeader()
      requires Writing()
      modifies this`buffer, this`pages
      ensures Writing() && pages == old(pages)
      ensures buffer == old(buffer) + FileHeader
    {
      Out("%PDF-" + PdfVersion);
    }

    /** `putStream` (jspdf.js:206-210). */
    method PutStream(str: string)
      requires Writing()
      modifies this`buffer, this`pages
      ensures Writing() && pages == old(pages)
      ensures buffer == old(buffer) + Unlines(["stream", str, "endstream"])
    {
      OutLines(["stream", str, "endstream"]);
    }

    /** A page dictionary (jspdf.js:175-180) as the next object; its contents are the object after it. */
    method PutPageDictionary()
      requires Writing()
      modifies this`buffer, this`pages, this`objectNumber, this`offsets
      ensures Writing() && pages == old(pages)
      ensures objectNumber == old(objectNumber) + 1
      ensures Wrote(old(buffer), old(offsets), buffer, offsets,
                    [Object(objectNumber, PageDictionary(objectNumber, objectNumber + 1))])
    {
      NewObject();
      var dict := ["<</Type /Page", "/Parent 1 0 R", "/Resources 2 0 R",
                   "/Contents " + NatToString(objectNumber + 1) + " 0 R>>", "endobj"];
      OutLines(dict);
      UnlinesAfterLine(old(buffer), Header(objectNumber), dict);
      assert [Header(objectNumber)] + dict == PageDictionary(objectNumber, objectNumber + 1);
      WroteOne(old(buffer), old(offsets), Object(objectNumber, PageDictionary(objectNumber, objectNumber + 1)));
    }

    /** A content stream (jspdf.js:183-187) as the next object: the operators joined by newlines, and their length. */
    method PutContentStream(ops: seq<string>)
      requires Writing()
      modifies this`buffer, this`pages, this`objectNumber, this`offsets
      ensures Writing() && pages == old(pages)
      ensures objectNumber == old(objectNumber) + 1
      ensures Wrote(old(buffer), old(offsets), buffer, offsets, [Object(objectNumber, ContentStream(objectNumber, ops))])
    {
      var p := Join(ops, "\n");
      NewObject();
      var lengthLine := "<</Length " + NatToString(|p|) + ">>";
      OutLines([lengthLine]);
      UnlinesAfterLine(old(buffer), Header(objectNumber), [lengthLine]);
      PutStream(p);
      UnlinesAfter(old(buffer), [Header(objectNumber)] + [lengthLine], ["stream", p, "endstream"]);
      OutLines(["endobj"]);
      UnlinesAfter(old(buffer), [Header(objectNumber)] + [lengthLine] + ["stream", p, "endstream"], ["endobj"]);
      assert [Header(objectNumber)] + [lengthLine] + ["stream", p, "endstream"] + ["endobj"]
          == ContentStream(objectNumber, ops);
      WroteOne(old(buffer), old(offsets), Object(objectNumber, ContentStream(objectNumber, ops)));
    }

    /**
     * One round of the loop of `putPages` (jspdf.js:174-188): page `n`
     * (0-based) as two consecutive objects, the dictionary and then its
     * content stream.
     */
    method PutPage(n: nat)
      requires Writing() && n < |pages|
      modifies this`buffer, this`pages, this`objectNumber, this`offsets
      ensures Writing() && pages == old(pages)
      ensures objectNumber == old(objectNumber) + 2
      ensures Wrote(old(buffer), old(offsets), buffer, offsets,
                    [Object(objectNumber - 1, PageDictionary(objectNumber - 1, objectNumber)),
                     Object(objectNumber, ContentStream(objectNumber, pages[n]))])
    {
      PutPageDictionary();
      ghost var dict := Object(objectNumber, PageDictionary(objectNumber, objectNumber + 1));
      ghost var b1, o1 := buffer, offsets;
      PutContentStream(pages[n]);
      ghost var stream := Object(objectNumber, ContentStream(objectNumber, pages[n]));
      WroteThen(old(buffer), old(offsets), b1, o1, buffer, offsets, [dict], [stream]);
      assert [dict] + [stream] == [dict, stream];
    }

    /** The `/Kids` loop of `putPages` (jspdf.js:192-195). */
    method ListKids() returns (kids: string)
      ensures kids + "]" == KidsLine(page)
    {
      kids := "/Kids [";
      var i := 0;
      while i < page
        invariant 0 <= i <= page
        invariant kids == "/Kids [" + RefList(PageObjectNumbers(i))
      {
        KidsInOrder(i);
        kids := kids + NatToString(3 + 2 * i) + " 0 R ";
        i := i + 1;
      }
    }

    /** The page size in points, as the page tree root states it. */
    ghost function MediaBox(): string {
      MediaBoxLine(num, pageWidth * k, pageHeight * k)
    }

    /** The page tree root (jspdf.js:189-200), object 1, at the current end of the file. */
    method PutPagesRoot()
      requires Writing()
      modifies this`buffer, this`pages, this`offsets
      ensures Writing() && pages == old(pages)
      ensures Wrote(old(buffer), old(offsets), buffer, offsets, [Object(1, PagesRoot(page, MediaBox()))])
    {
      var widthPt := pageWidth * k;
      var heightPt := pageHeight * k;
      var root: nat := 1;
      offsets := offsets[root := |buffer|];
      Out("1 0 obj");
      assert Header(root) == "1 0 obj" by {
        assert NatToString(1) == [DigitChar(1)];
      }
      OutLines(["<</Type /Pages"]);
      UnlinesAfterLine(old(buffer), Header(root), ["<</Type /Pages"]);
      var kids := ListKids();
      var tail := [kids + "]", "/Count " + NatToString(page), MediaBoxLine(num, widthPt, heightPt), ">>", "endobj"];
      OutLines(tail);
      UnlinesAfter(old(buffer), [Header(root)] + ["<</Type /Pages"], tail);
      assert [Header(root)] + ["<</Type /Pages"] + tail == PagesRoot(page, MediaBox());
      WroteOne(old(buffer), old(offsets), Object(1, PagesRoot(page, MediaBox())));
    }

    /**
     * `putPages` (jspdf.js:168-201): page i is object 3 + 2i with its content
     * stream right after it; then the page tree, object 1, is written last.
     */
    method PutPages()
      requires Writing() && objectNumber == 2
      modifies this`buffer, this`pages, this`objectNumber, this`offsets
      ensures Writing() && pages == old(pages)
      ensures objectNumber == 2 + 2 * page
      ensures Wrote(old(buffer), old(offsets), buffer, offsets,
                    PageObjects(pages, page) + [Object(1, PagesRoot(page, MediaBox()))])
    {
      var n := 0;
      while n < page
        invariant 0 <= n <= page
        invariant Writing() && pages == old(pages)
        invariant objectNumber == 2 + 2 * n
        invariant Wrote(old(buffer), old(offsets), buffer, offsets, PageObjects(pages, n))
      {
        ghost var b1, o1 := buffer, offsets;
        PutPage(n);
        WrotePage(old(buffer), old(offsets), b1, o1, buffer, offsets, pages, n);
        n := n + 1;
      }
      ghost var b1, o1 := buffer, offsets;
      PutPagesRoot();
      WroteThen(old(buffer), old(offsets), b1, o1, buffer, offsets, PageObjects(pages, page),
                [Object(1, PagesRoot(page, MediaBox()))]);
    }

    /** `putFont` (jspdf.js:240-246): the font's object number is assigned only now. */
    method PutFont(i: nat)
      requires Writing() && i < |fonts|
      modifies this`buffer, this`pages, this`objectNumber, this`offsets, this`fonts
      ensures Writing() && pages == old(pages)
      ensures objectNumber == old(objectNumber) + 1
      ensures fonts == old(fonts)[i := old(fonts)[i].(number := objectNumber)]
      ensures Wrote(old(buffer), old(offsets), buffer, offsets,
                    [Object(objectNumber, FontObject(objectNumber, old(fonts)[i].face.name))])
    {
      NewObject();
      fonts := fonts[i := fonts[i].(number := objectNumber)];
      var lines := ["<</BaseFont/" + fonts[i].face.name + "/Type/Font", "/Subtype/Type1>>", "endobj"];
      OutLines(lines);
      UnlinesAfterLine(old(buffer), Header(objectNumber), lines);
      assert [Header(objectNumber)] + lines == FontObject(objectNumber, fonts[i].face.name);
      WroteOne(old(buffer), old(offsets), Object(objectNumber, FontObject(objectNumber, old(fonts)[i].face.name)));
    }

    /** `putFonts` (jspdf.js:231-235): the fonts get consecutive object numbers in registration order. */
    method PutFonts()
      requires Writing()
      modifies this`buffer, this`pages, this`objectNumber, this`offsets, this`fonts
      ensures Writing() && pages == old(pages)
      ensures objectNumber == old(objectNumber) + |old(fonts)|
      ensures fonts == Numbered(old(fonts), old(objectNumber) + 1)
      ensures Wrote(old(buffer), old(offsets), buffer, offsets,
                    FontObjects(old(fonts), old(objectNumber) + 1, |old(fonts)|))
    {
      var i := 0;
      while i < |fonts|
        invariant 0 <= i <= |fonts| == |old(fonts)|
        invariant Writing() && pages == old(pages)
        invariant objectNumber == old(objectNumber) + i
        invariant forall j :: 0 <= j < i ==> fonts[j] == old(fonts)[j].(number := old(objectNumber) + 1 + j)
        invariant forall j :: i <= j < |fonts| ==> fonts[j] == old(fonts)[j]
        invariant Wrote(old(buffer), old(offsets), buffer, offsets, FontObjects(old(fonts), old(objectNumber) + 1, i))
      {
        ghost var b1, o1 := buffer, offsets;
        PutFont(i);
        WroteThen(old(buffer), old(offsets), b1, o1, buffer, offsets, FontObjects(old(fonts), old(objectNumber) + 1, i),
                  [Object(objectNumber, FontObject(objectNumber, old(fonts)[i].face.name))]);
        i := i + 1;
      }
      assert fonts == Numbered(old(fonts), old(objectNumber) + 1);
    }

    /** `putResourceDictionary` (jspdf.js:283-296); `putXobjectDict` writes nothing. */
    method PutResourceDictionary()
      requires Writing()
      modifies this`buffer, this`pages
      ensures Writing() && pages == old(pages)
      ensures buffer == old(buffer) + Unlines(ResourceEntries(fonts))
    {
      var head := ["/ProcSet [/PDF /Text /ImageB /ImageC /ImageI]", "/Font <<"];
      OutLines(head);
      var i := 0;
      while i < |fonts|
        invariant 0 <= i <= |fonts|
        invariant Writing() && pages == old(pages)
        invariant buffer == old(buffer) + Unlines(head + FontEntries(fonts)[..i])
      {
        var entry := "/" + fonts[i].key + " " + NatToString(fonts[i].number) + " 0 R";
        OutLines([entry]);
        UnlinesAfter(old(buffer), head + FontEntries(fonts)[..i], [entry]);
        assert head + FontEntries(fonts)[..i] + [entry] == head + FontEntries(fonts)[..i + 1];
        i := i + 1;
      }
      var tail := [">>", "/XObject <<", ">>"];
      OutLines(tail);
      UnlinesAfter(old(buffer), head + FontEntries(fonts)[..|fonts|], tail);
      assert head + FontEntries(fonts)[..|fonts|] + tail == ResourceEntries(fonts);
    }

    /** The resource dictionary (jspdf.js:219-225), object 2, at the current end of the file. */
    method PutResourceObject()
      requires Writing()
      modifies this`buffer, this`pages, this`offsets
      ensures Writing() && pages == old(pages)
      ensures Wrote(old(buffer), old(offsets), buffer, offsets, [Object(2, ResourceDictionary(fonts))])
    {
      var resources: nat := 2;
      offsets := offsets[resources := |buffer|];
      Out("2 0 obj");
      assert Header(resources) == "2 0 obj" by {
        assert NatToString(2) == [DigitChar(2)];
      }
      OutLines(["<<"]);
      UnlinesAfterLine(old(buffer), Header(resources), ["<<"]);
      PutResourceDictionary();
      UnlinesAfter(old(buffer), [Header(resources)] + ["<<"], ResourceEntries(fonts));
      OutLines([">>", "endobj"]);
      UnlinesAfter(old(buffer), [Header(resources)] + ["<<"] + ResourceEntries(fonts), [">>", "endobj"]);
      assert [Header(resources)] + ["<<"] + ResourceEntries(fonts) + [">>", "endobj"] == ResourceDictionary(fonts);
      WroteOne(old(buffer), old(offsets), Object(2, ResourceDictionary(fonts)));
    }

    /** `putResources` (jspdf.js:215-226): the font objects, then the resource dictionary as object 2. */
    method PutResources()
      requires Writing()
      modifies this`buffer, this`pages, this`objectNumber, this`offsets, this`fonts
      ensures Writing() && pages == old(pages)
      ensures objectNumber == old(objectNumber) + |old(fonts)|
      ensures fonts == Numbered(old(fonts), old(objectNumber) + 1)
      ensures Wrote(old(buffer), old(offsets), buffer, offsets,
                    FontObjects(old(fonts), old(objectNumber) + 1, |old(fonts)|) + [Object(2, ResourceDictionary(fonts))])
    {
      PutFonts();
      ghost var b1, o1 := buffer, offsets;
      PutResourceObject();
      WroteThen(old(buffer), old(offsets), b1, o1, buffer, offsets,
                FontObjects(old(fonts), old(objectNumber) + 1, |old(fonts)|), [Object(2, ResourceDictionary(fonts))]);
    }

    /** `putInfo` (jspdf.js:309-334): each property only when set; the timestamp is a parameter. */
    method PutInfo(created: string)
      requires Writing()
      modifies this`buffer, this`pages
      ensures Writing() && pages == old(pages)
      ensures buffer == old(buffer) + Unlines(InfoEntries(properties, created))
    {
      var producer := ["/Producer (jsPDF " + ProducerVersion + ")"];
      var title := PropertyLine("Title", properties.title);
      var subject := PropertyLine("Subject", properties.subject);
      var author := PropertyLine("Author", properties.author);
      var keywords := PropertyLine("Keywords", properties.keywords);
      var creator := PropertyLine("Creator", properties.creator);
      var date := ["/CreationDate (D:" + created + ")"];
      OutLines(producer);
      OutLines(title);
      UnlinesAfter(old(buffer), producer, title);
      OutLines(subject);
      UnlinesAfter(old(buffer), producer + title, subject);
      OutLines(author);
      UnlinesAfter(old(buffer), producer + title + subject, author);
      OutLines(keywords);
      UnlinesAfter(old(buffer), producer + title + subject + author, keywords);
      OutLines(creator);
      UnlinesAfter(old(buffer), producer + title + subject + author + keywords, creator);
      OutLines(date);
      UnlinesAfter(old(buffer), producer + title + subject + author + keywords + creator, date);
    }

    /** The info block of `buildDocument` (jspdf.js:366-371). */
    method PutInfoObject(created: string)
      requires Writing()
      modifies this`buffer, this`pages, this`objectNumber, this`offsets
      ensures Writing() && pages == old(pages)
      ensures objectNumber == old(objectNumber) + 1
      ensures Wrote(old(buffer), old(offsets), buffer, offsets,
                    [Object(objectNumber, InfoObject(objectNumber, properties, created))])
    {
      NewObject();
      OutLines(["<<"]);
      UnlinesAfterLine(old(buffer), Header(objectNumber), ["<<"]);
      PutInfo(created);
      var entries := InfoEntries(properties, created);
      UnlinesAfter(old(buffer), [Header(objectNumber)] + ["<<"], entries);
      OutLines([">>", "endobj"]);
      UnlinesAfter(old(buffer), [Header(objectNumber)] + ["<<"] + entries, [">>", "endobj"]);
      assert [Header(objectNumber)] + ["<<"] + entries + [">>", "endobj"] == InfoObject(objectNumber, properties, created);
      WroteOne(old(buffer), old(offsets), Object(objectNumber, InfoObject(objectNumber, properties, created)));
    }

    /** `putCatalog` (jspdf.js:339-345). */
    method PutCatalog()
      requires Writing()
      modifies this`buffer, this`pages
      ensures Writing() && pages == old(pages)
      ensures buffer == old(buffer) + Unlines(CatalogEntries)
    {
      OutLines(["/Type /Catalog", "/Pages 1 0 R", "/OpenAction [3 0 R /FitH null]", "/PageLayout /OneColumn"]);
    }

    /** The catalog block of `buildDocument` (jspdf.js:373-378). */
    method PutCatalogObject()
      requires Writing()
      modifies this`buffer, this`pages, this`objectNumber, this`offsets
      ensures Writing() && pages == old(pages)
      ensures objectNumber == old(objectNumber) + 1
      ensures Wrote(old(buffer), old(offsets), buffer, offsets, [Object(objectNumber, CatalogObject(objectNumber))])
    {
      NewObject();
      OutLines(["<<"]);
      UnlinesAfterLine(old(buffer), Header(objectNumber), ["<<"]);
      PutCatalog();
      UnlinesAfter(old(buffer), [Header(objectNumber)] + ["<<"], CatalogEntries);
      OutLines([">>", "endobj"]);
      UnlinesAfter(old(buffer), [Header(objectNumber)] + ["<<"] + CatalogEntries, [">>", "endobj"]);
      assert [Header(objectNumber)] + ["<<"] + CatalogEntries + [">>", "endobj"] == CatalogObject(objectNumber);
      WroteOne(old(buffer), old(offsets), Object(objectNumber, CatalogObject(objectNumber)));
    }

    /**
     * The cross-reference table of `buildDocument` (jspdf.js:381-387): one
     * entry for every object 1..objectNumber, in ascending order. Returns
     * where the table starts.
     */
    method PutXref() returns (start: nat)
      requires Writing() && AllRecorded(offsets, objectNumber)
      modifies this`buffer, this`pages
      ensures Writing() && pages == old(pages)
      ensures start == |old(buffer)|
      ensures buffer == old(buffer) + Unlines(XrefSection(offsets, objectNumber))
    {
      start := |buffer|;
      var head := ["xref", "0 " + NatToString(objectNumber + 1), FreeEntry];
      OutLines(head);
      assert head + XrefEntries(offsets, 0) == head;
      var i := 1;
      while i <= objectNumber
        invariant 1 <= i <= objectNumber + 1
        invariant Writing() && pages == old(pages)
        invariant buffer == old(buffer) + Unlines(head + XrefEntries(offsets, i - 1))
      {
        OutLines([XrefEntry(offsets[i])]);
        UnlinesAfter(old(buffer), head + XrefEntries(offsets, i - 1), [XrefEntry(offsets[i])]);
        assert head + XrefEntries(offsets, i - 1) + [XrefEntry(offsets[i])] == head + XrefEntries(offsets, i);
        i := i + 1;
      }
    }

    /** `putTrailer` (jspdf.js:350-354). */
    method PutTrailer()
      requires Writing()
      modifies this`buffer, this`pages
      ensures Writing() && pages == old(pages)
      ensures buffer == old(buffer) + Unlines(TrailerEntries(objectNumber))
    {
      var lines := ["/Size " + NatToString(objectNumber + 1), "/Root " + NatToString(objectNumber) + " 0 R",
                    "/Info " + NatToString(objectNumber - 1) + " 0 R"];
      OutLines(lines);
      assert lines == TrailerEntries(objectNumber);
    }

    /** The trailer block of `buildDocument` (jspdf.js:389-395), given where the table started. */
    method PutTrailerBlock(xref: nat)
      requires Writing()
      modifies this`buffer, this`pages
      ensures Writing() && pages == old(pages)
      ensures buffer == old(buffer) + Unlines(Trailer(objectNumber, xref))
    {
      OutLines(["trailer", "<<"]);
      PutTrailer();
      UnlinesAfter(old(buffer), ["trailer", "<<"], TrailerEntries(objectNumber));
      var tail := [">>", "startxref", NatToString(xref), "%%EOF"];
      OutLines(tail);
      UnlinesAfter(old(buffer), ["trailer", "<<"] + TrailerEntries(objectNumber), tail);
      assert ["trailer", "<<"] + TrailerEntries(objectNumber) + tail == Trailer(objectNumber, xref);
    }

    /**
     * The first stage of `buildDocument` after the header (jspdf.js:362-364):
     * the pages and the page tree, then the fonts and the resource dictionary.
     */
    method PutPagesAndResources()
      requires Writing() && objectNumber == 2
      modifies this`buffer, this`pages, this`objectNumber, this`offsets, this`fonts
      ensures Writing() && pages == old(pages)
      ensures objectNumber == LastObject(page, |old(fonts)|) - 2
      ensures fonts == Numbered(old(fonts), FirstFont(page))
      ensures Wrote(old(buffer), old(offsets), buffer, offsets,
                    PageObjects(pages, page) + [Object(1, PagesRoot(page, MediaBox()))]
                    + (FontObjects(old(fonts), FirstFont(page), |old(fonts)|)
                       + [Object(2, ResourceDictionary(Numbered(old(fonts), FirstFont(page))))]))
    {
      PutPages();
      ghost var b1, o1 := buffer, offsets;
      PutResources();
      WroteThen(old(buffer), old(offsets), b1, o1, buffer, offsets,
                PageObjects(pages, page) + [Object(1, PagesRoot(page, MediaBox()))],
                FontObjects(old(fonts), FirstFont(page), |old(fonts)|) + [Object(2, ResourceDictionary(fonts))]);
    }

    /** The info and catalog blocks of `buildDocument` (jspdf.js:366-378): the last two objects. */
    method PutInfoAndCatalog(created: string)
      requires Writing()
      modifies this`buffer, this`pages, this`objectNumber, this`offsets
      ensures Writing() && pages == old(pages)
      ensures objectNumber == old(objectNumber) + 2
      ensures Wrote(old(buffer), old(offsets), buffer, offsets,
                    [Object(objectNumber - 1, InfoObject(objectNumber - 1, properties, created)),
                     Object(objectNumber, CatalogObject(objectNumber))])
    {
      PutInfoObject(created);
      ghost var info := Object(objectNumber, InfoObject(objectNumber, properties, created));
      ghost var b1, o1 := buffer, offsets;
      PutCatalogObject();
      ghost var catalog := Object(objectNumber, CatalogObject(objectNumber));
      WroteThen(old(buffer), old(offsets), b1, o1, buffer, offsets, [info], [catalog]);
      assert [info] + [catalog] == [info, catalog];
    }

    /**
     * The objects of `buildDocument` (jspdf.js:362-378): the pages and the page
     * tree, the fonts and the resource dictionary, the info and the catalog, in
     * that order; they are the objects of `PdfFile`.
     */
    method PutObjects(created: string)
      requires Writing() && objectNumber == 2
      modifies this`buffer, this`pages, this`objectNumber, this`offsets, this`fonts
      ensures Writing() && pages == old(pages)
      ensures objectNumber == LastObject(page, |old(fonts)|) && fonts == Numbered(old(fonts), FirstFont(page))
      ensures Wrote(old(buffer), old(offsets), buffer, offsets, FileObjects(pages, MediaBox(), old(fonts), properties, created))
    {
      PutPagesAndResources();
      ghost var b1, o1 := buffer, offsets;
      PutInfoAndCatalog(created);
      assert page == |pages| && objectNumber == LastObject(|pages|, |old(fonts)|);
      WroteStages(old(buffer), old(offsets), b1, o1, buffer, offsets, pages, MediaBox(), old(fonts), properties, created,
                  PageObjects(pages, page) + [Object(1, PagesRoot(page, MediaBox()))]
                  + (FontObjects(old(fonts), FirstFont(page), |old(fonts)|)
                     + [Object(2, ResourceDictionary(Numbered(old(fonts), FirstFont(page))))]),
                  [Object(objectNumber - 1, InfoObject(objectNumber - 1, properties, created)),
                   Object(objectNumber, CatalogObject(objectNumber))]);
    }

    /**
     * `buildDocument` up to the cross-reference table (jspdf.js:361-378): the
     * header, then the objects. What is written is the body of `PdfFile`, and
     * the offsets are the ones it records.
     */
    method PutBody(created: string)
      requires Writing() && Unbuilt()
      modifies this`buffer, this`pages, this`objectNumber, this`offsets, this`fonts
      ensures Writing() && pages == old(pages)
      ensures objectNumber == LastObject(page, |fonts|) && fonts == Numbered(old(fonts), FirstFont(page))
      ensures buffer == BodyText(pages, MediaBox(), old(fonts), properties, created)
      ensures offsets == BodyOffsets(pages, MediaBox(), old(fonts), properties, created)
    {
      PutHeader();
      assert buffer == FileHeader;
      PutObjects(created);
    }

    /**
     * The end of `buildDocument` (jspdf.js:380-395): the cross-reference
     * table, then the trailer, whose `startxref` is where the table starts.
     */
    method PutXrefAndTrailer()
      requires Writing() && AllRecorded(offsets, objectNumber)
      modifies this`buffer, this`pages
      ensures Writing() && pages == old(pages)
      ensures buffer == old(buffer) + Unlines(XrefSection(offsets, objectNumber) + Trailer(objectNumber, |old(buffer)|))
    {
      var o := PutXref();
      PutTrailerBlock(o);
      UnlinesAfter(old(buffer), XrefSection(offsets, objectNumber), Trailer(objectNumber, o));
    }

    /**
     * The writing part of `buildDocument` (jspdf.js:361-395): the body, then
     * the cross-reference table and the trailer. What is written is `PdfFile`
     * of the pages, the page size, the registered fonts and the properties.
     */
    method WriteFile(created: string) returns (pdf: string)
      requires Writing() && Unbuilt()
      modifies this`buffer, this`pages, this`objectNumber, this`offsets, this`fonts
      ensures Writing() && pdf == buffer && pages == old(pages)
      ensures objectNumber == LastObject(page, |old(fonts)|)
      ensures fonts == Numbered(old(fonts), FirstFont(page))
      ensures offsets == BodyOffsets(pages, MediaBox(), old(fonts), properties, created)
      ensures pdf == PdfFile(pages, MediaBox(), old(fonts), properties, created)
    {
      PutBody(created);
      BodyOffsetsKeys(pages, MediaBox(), old(fonts), properties, created);
      PutXrefAndTrailer();
      pdf := buffer;
    }

    /**
     * `buildDocument` (jspdf.js:360-399): state 1 while the file is written,
     * state 3 after. The lemmas of module Assembly say where each object of
     * the result is and what its cross-reference table records.
     */
    method BuildDocument(created: string) returns (pdf: string)
      requires Valid() && state == PageOpen
      modifies this`buffer, this`pages, this`objectNumber, this`offsets, this`fonts, this`state
      ensures Valid() && state == Finished && pdf == buffer && pages == old(pages)
      ensures objectNumber == LastObject(page, |StandardFaces|)
      ensures fonts == Numbered(old(fonts), FirstFont(page))
      ensures offsets == BodyOffsets(pages, MediaBox(), old(fonts), properties, created)
      ensures pdf == PdfFile(pages, MediaBox(), old(fonts), properties, created)
    {
      state := Building;
      pdf := WriteFile(created);
      NumberedRegistered(old(fonts), FirstFont(page));
      state := Finished;
    }
  }

  /**
   * `new jsPDF(orientation, unit, format)` (jspdf.js:32-447): the set-up either
   * throws, here the error `ResolveGeometry` reports, or yields a new document
   * with the resolved scale, page size and orientation, the initial state the
   * constructor establishes and its first page open.
   */
  method NewDocument(orientation: Option<string>, unit: Option<string>, format: Option<FormatArg>, num: Numerics)
    returns (r: Result<Document, ConfigError>)
    ensures r.Failure? <==> ResolveGeometry(orientation, unit, format).Failure?
    ensures r.Failure? ==> r.error == ResolveGeometry(orientation, unit, format).error
    ensures r.Success? ==>
      var g := ResolveGeometry(orientation, unit, format).value;
      && fresh(r.value) && r.value.Valid() && r.value.state == PageOpen && r.value.page == 1
      && r.value.k == g.k && r.value.pageWidth == g.pageWidth && r.value.pageHeight == g.pageHeight
      && r.value.orientation == g.orientation
      && r.value.Unbuilt() && r.value.num == num
      && r.value.pages == [[LineWidthOperator(num, g.k, DefaultLineWidth), DrawColor]]
      && |r.value.fonts| == |StandardFaces|
      && (forall i :: 0 <= i < |r.value.fonts| ==> r.value.fonts[i] == Font(FontKey(i), 2, StandardFaces[i]))
      && r.value.fontName == HELVETICA && r.value.fontType == NORMAL && r.value.fontSize == 16.0
      && r.value.textColor == "0 g" && r.value.properties == NoProperties
  {
    var g := ResolveGeometry(orientation, unit, format);
    if g.Failure? {
      return Failure(g.error);
    }
    var d := new Document(g.value, num);
    return Success(d);
  }
}
