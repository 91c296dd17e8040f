# jsPDF document assembly, modelled in Dafny

jsPDF (version 20120220) builds a PDF in memory. Its constructor sets up three things:
- a scale factor from the unit name;
- a page size from the format;
- an orientation.

It also registers the twelve standard Type 1 fonts and opens the first page. Each drawing call (`text`, `line`, `rect`, `ellipse`, `circle`, `setLineWidth`, `setDrawColor` and `setFillColor`) appends one or more PDF operator strings to the open page. `setTextColor` only stores the colour that later text objects restate. `output()` then calls `buildDocument`, which writes a classic flat PDF 1.3 file in this order:
- the header;
- the pages, each a page dictionary followed by its content stream;
- the page tree (object 1);
- the fonts;
- the resource dictionary (object 2);
- the information dictionary;
- the catalog;
- the cross-reference table;
- the trailer.

The model follows the source's structure:

- `Document.Document` is a class over the source's mutable state. Its fields are the buffer, the pages, the offsets, the object counter, the state, the page count, the fonts and the current settings. Its methods mirror `out`, `newObject`, `_addPage`, `putPages`, `putFonts`, `putResources`, `buildDocument`, `getFont` and the public calls. Each method states its whole new state.
- `Layout` gives the lines of every kind of PDF object, the cross-reference table and the trailer.
- `Assembly` describes the complete file as a function: `PdfFile` of the pages, the page size, the registered fonts and the properties. Its lemmas say where every object lies in that file and what the cross-reference table records. `Document.Document.BuildDocument` is proved to return exactly `PdfFile`, so these lemmas apply to what the engine writes.
- `Escape` covers `pdfEscape` and the per-line escaping of multi-line text. `Operators` covers the choice and order of drawing operators. `Fonts` covers the font registry and lookup. `Geometry` covers the unit, format and orientation set-up, with its errors as `Result` values. `Strings` holds the text helpers: decimal printing, `%010d`, `join`, line output and ASCII lower-casing.

Inputs from outside are parameters:
- `Operators.Numerics` carries how `sprintf` and JavaScript print non-integer numbers, and the ellipse constant;
- the creation timestamp (the text written after `D:`) is the `created` argument of `BuildDocument`.

## Model

| member | source | states |
|---|---|---|
| Document.NewDocument | jspdf.js:32-447 | `new jsPDF(orientation, unit, format)` fails exactly when the set-up does, with the same error. Otherwise it gives a new document with the resolved scale, page size and orientation, and with the constructor's whole initial state. Its one open page holds the line-width operator for 0.200025 and `0 G`. F1..F12 are registered in table order with placeholder number 2. The font is Helvetica normal at 16 with text colour `0 g`. No properties are set, nothing is written, and `num` is the one given. |
| Document.Document.constructor | jspdf.js:87-104 | A new document has one open page. That page holds exactly the line-width operator for 0.200025 and `0 G`. The twelve standard fonts are registered as F1..F12 in table order. The current font is Helvetica normal at size 16 with text colour `0 g`. No properties are set, the object counter is 2 and nothing has been written. |
| Document.Document.AddFont | jspdf.js:269-271 | Appends one font. Its key is `F` followed by the new font count, and its number is the current object counter as a placeholder. The earlier fonts are unchanged. |
| Document.Document.AddFonts | jspdf.js:251-264 | Afterwards there are exactly twelve fonts. Font i has key `F<i+1>` and the i-th face of the standard table. |
| Document.Document.Out | jspdf.js:414-420 | While a page is open, the string becomes the last operator of the open page, and the other pages and the file are unchanged. Otherwise the file grows by exactly the string plus a newline, and no page changes. |
| Document.Document.OutLines | jspdf.js:414-420 | Consecutive `out` calls while the file is written add each line plus a newline, in order, and change no page. |
| Document.Document.NewObject | jspdf.js:151-156 | The counter goes up by exactly 1. The new number's offset is the file length before its line `n 0 obj`. Every other offset is unchanged, and the file grows by exactly that line. |
| Document.Document.BeginPage | jspdf.js:404-409 | The page count goes up by 1, the state becomes "page open", and an empty page is appended. |
| Document.Document.OpenPage | jspdf.js:425-431 | The new page holds exactly two operators: the fixed line width, then `0 G`. The earlier pages and the file are unchanged. |
| Document.Document.AddPage | jspdf.js:460-463 | Satisfies the same contract as `_addPage`. |
| Document.Document.GetFont | jspdf.js:436-443 | Returns the key of the first font whose family and style are the current ones, and `F1` when there is none. With the full registry the result is the key at position 4·family + style, so the fallback is never used. |
| Document.Document.SetFont | jspdf.js:586-598 | The lower-cased name is taken exactly when it is helvetica, times or courier. Otherwise the family is unchanged. |
| Document.Document.SetFontType | jspdf.js:599-612 | The lower-cased style is taken exactly when it is normal, bold, italic or bolditalic. Otherwise the style is unchanged. |
| Document.Document.SetFontSize | jspdf.js:582-585 | The font size becomes the argument. |
| Document.Document.SetTextColor | jspdf.js:637-644 | Stores the fill-colour operator (`g` or `rg`) for later text objects. Nothing is written. |
| Document.Document.SetProperties | jspdf.js:566-569 | The properties become the argument. |
| Document.Document.Text | jspdf.js:473-518 | Appends one text object to the open page. It names the font `getFont` selects, at the current size and colour, and shows the escaped payload. |
| Document.Document.Line | jspdf.js:519-523 | Appends one `m … l S` operator to the open page. |
| Document.Document.Rect | jspdf.js:524-533 | Appends one `re` operator, with the paint operator chosen from the style. |
| Document.Document.Ellipse | jspdf.js:534-562 | Appends exactly four Bezier operators, in order, to the open page. |
| Document.Document.Circle | jspdf.js:563-565 | Appends the operators of the ellipse with both radii equal to r. |
| Document.Document.SetLineWidth | jspdf.js:613-616 | Appends one `w` operator. The default line width that new pages use is unchanged. |
| Document.Document.SetDrawColor | jspdf.js:617-626 | Appends one stroke-colour operator (`G` or `RG`). The `0 G` that new pages use is unchanged. |
| Document.Document.SetFillColor | jspdf.js:627-636 | Appends one fill-colour operator (`g` or `rg`). |
| Document.Document.PutHeader | jspdf.js:161-163 | The file grows by exactly `%PDF-1.3` and a newline. |
| Document.Document.PutStream | jspdf.js:206-210 | The file grows by `stream`, the data and `endstream`, each followed by a newline. |
| Document.Document.PutPageDictionary | jspdf.js:175-180 | Writes one object: the page dictionary with parent 1, resources 2 and `/Contents` one past its own number. Its offset is recorded at its start. |
| Document.Document.PutContentStream | jspdf.js:182-187 | Writes one object: the operators joined by newlines, with `/Length` equal to that text's length. |
| Document.Document.PutPage | jspdf.js:174-188 | Writes exactly two consecutive objects: the page dictionary, then that page's content stream. |
| Document.Document.ListKids | jspdf.js:192-195 | Completed with `]`, the kids line lists `3 + 2i 0 R` for every page i, in order. |
| Document.Document.PutPagesRoot | jspdf.js:189-200 | Writes object 1 at the current end of the file. It lists the kids in order, a `/Count` equal to the page count, and the MediaBox in points. |
| Document.Document.PutPages | jspdf.js:168-201 | Page i becomes object 3 + 2i, and its content stream becomes 4 + 2i. Then the page tree is written as object 1. The counter ends at 2 + 2·pages. |
| Document.Document.PutFont | jspdf.js:240-246 | The font gets the next object number, and only its number changes. Writes its font object. |
| Document.Document.PutFonts | jspdf.js:231-235 | Font i gets number first + i, in registration order. Its object is written in that order. |
| Document.Document.PutResourceDictionary | jspdf.js:283-296 | Writes the ProcSet line, and then one `/Fk n 0 R` entry for each font with that font's current number. The XObject dictionary is left empty. |
| Document.Document.PutResourceObject | jspdf.js:219-225 | Writes object 2, the resource dictionary, at the current end of the file and records its offset there. |
| Document.Document.PutResources | jspdf.js:215-226 | Writes the font objects, then object 2, whose entries give the fonts' new numbers. |
| Document.Document.PutInfo | jspdf.js:309-334 | Writes the producer line, one line for each property that is set (escaped), and the creation date. |
| Document.Document.PutInfoObject | jspdf.js:366-371 | Writes the information dictionary as the next object. |
| Document.Document.PutCatalog | jspdf.js:339-345 | Writes the four catalog entries: the page tree 1, and the open action on object 3. |
| Document.Document.PutCatalogObject | jspdf.js:373-378 | Writes the catalog as the next object. |
| Document.Document.PutXref | jspdf.js:381-387 | Returns the file length before `xref`. Writes `0 N+1`, the free entry, and then one entry for each object 1..N in ascending order. |
| Document.Document.PutTrailer | jspdf.js:350-354 | Writes `/Size N+1`, `/Root N 0 R` and `/Info N-1 0 R`. |
| Document.Document.PutTrailerBlock | jspdf.js:389-395 | Writes the trailer dictionary, then `startxref`, the given offset and `%%EOF`. |
| Document.Document.PutPagesAndResources | jspdf.js:362-365 | Writes the page objects, the page tree, the font objects and the resource dictionary, in that order. |
| Document.Document.PutInfoAndCatalog | jspdf.js:366-378 | Writes the info dictionary and the catalog as the last two objects. |
| Document.Document.PutObjects | jspdf.js:362-378 | Writes exactly the objects of `FileObjects`, in order. The counter ends at 4 + 2·pages + fonts, and the fonts carry their final numbers. |
| Document.Document.PutBody | jspdf.js:361-378 | The file is exactly the header followed by the objects. The recorded offsets are the ones `BodyOffsets` gives. |
| Document.Document.PutXrefAndTrailer | jspdf.js:380-395 | Writes the table, then the trailer, whose `startxref` is the length of the file before `xref`. |
| Document.Document.WriteFile | jspdf.js:361-395 | The file written is exactly `PdfFile` of the pages, the page size, the fonts and the properties. |
| Document.Document.BuildDocument | jspdf.js:360-399 | The returned text is the buffer and equals `PdfFile`. The state is "finished", the pages are unchanged, and the counter is 4 + 2·pages + 12, the catalog's number. |
| Assembly.OffsetsKeys | jspdf.js:151-156 | Writing objects records an offset for exactly the numbers written. Every other recorded offset is kept. |
| Assembly.OffsetsAt | jspdf.js:151-156 | Take an object whose number no later object reuses. Its recorded offset is where its text starts. |
| Assembly.PageObjectsAt | jspdf.js:174-188 | Page i is written as dictionary 3 + 2i, whose `/Contents` is 4 + 2i, followed by content stream 4 + 2i holding that page's operators. |
| Assembly.FontObjectsAt | jspdf.js:231-235 | Font i is written as object first + i with its own base font name. |
| Assembly.NumberedRegistered | jspdf.js:240-246 | Giving fonts their object numbers changes neither their keys nor their faces. |
| Assembly.FilePageObjects | jspdf.js:168-188 | Page i's two objects are at positions 2i and 2i + 1 of the file's object list. |
| Assembly.FileFontObject | jspdf.js:231-246 | Font i's object follows the page tree. It is at position 2P + 1 + i and has number 3 + 2P + i. |
| Assembly.FileOtherObjects | jspdf.js:360-378 | The page tree follows the pages. The resource dictionary follows the fonts. The info and catalog objects come last, numbered N - 1 and N. |
| Assembly.FileObjectNumber | jspdf.js:360-378 | The object at position j of the file has number `NumberAt(j)`. |
| Assembly.PositionOf | jspdf.js:360-378 | Every object number 1..N has a position in the file that holds it. |
| Assembly.FileNumbers | jspdf.js:360-378 | No number is used twice, and the numbers used are exactly 1..N. |
| Assembly.BodyOffsetsKeys | jspdf.js:381-387 | An offset is recorded for every object 1..N, including objects 1 and 2, and for no other number. So every table entry has an offset. |
| Assembly.FileObjectPlaced | jspdf.js:151-156 | Every object of the finished file starts at the offset recorded for its number. |
| Assembly.PagesPlaced | jspdf.js:168-188 | Page i's dictionary (object 3 + 2i) and content stream (4 + 2i) are each at their recorded offset in the file. |
| Assembly.FontsPlaced | jspdf.js:240-246 | Font i gets number 3 + 2P + i, the number the resource dictionary lists. Its object is at that number's recorded offset. |
| Assembly.PageTreeAfterFirstPage | jspdf.js:174-200 | With at least one page, the page tree (object 1) has a larger offset than the first page dictionary (object 3), which sits right after the header. Offsets do not grow with the object number. |
| Assembly.FixedObjectsPlaced | jspdf.js:189-225 | The page tree (1), the resource dictionary (2), the info (N - 1) and the catalog (N) are each at their recorded offset. This holds although objects 1 and 2 come after the pages. |
| Assembly.FileObjectDeclares | jspdf.js:151-156 | Every object of the file opens with the line `n 0 obj` for its own number. |
| Assembly.OffsetPointsAtDeclaration | jspdf.js:381-387 | The offset in object k's table entry is exactly where `k 0 obj` begins in the file. |
| Assembly.PdfFileParts | jspdf.js:360-399 | The file is the body, then the cross-reference table, then the trailer. The trailer is given the body's length. |
| Assembly.FileStartsWithHeader | jspdf.js:161-163 | The file begins with `%PDF-1.3` and a newline. |
| Assembly.CrossReferenceTable | jspdf.js:381-387 | The table starts right after the body. It has N + 3 lines: `xref`, `0 N+1`, the free entry, and then object k's entry on line k + 2 for k in 1..N. |
| Assembly.FileEndsWithStartxref | jspdf.js:389-395 | The file ends with `startxref`, the table's offset and `%%EOF`. The printed offset reads back as that number. |
| Assembly.KidsLeadToPages | jspdf.js:174-195 | The number in the i-th `/Kids` entry is page i's dictionary. The object at its recorded offset is that dictionary, and its `/Contents` is the next object, page i's content stream. |
| Layout.PageObjectNumbers | jspdf.js:174-195 | One number per page, strictly increasing, odd and at least 3. So no page object takes the page tree's number 1 or the resources' number 2. |
| Layout.KidsInOrder | jspdf.js:192-195 | Each pass of the kids loop appends the next page's reference, in page order. |
| Layout.ContentLengthExact | jspdf.js:183-187 | The stream data is the operators joined by newlines, and the `/Length` printed reads back as exactly its length. |
| Layout.XrefEntriesAt | jspdf.js:385-387 | There are exactly N entries, and entry i is object i + 1's offset. |
| Layout.XrefEntryFormat | jspdf.js:384-386 | When an offset is below 10^10, its entry is 20 characters long, as the free entry is. Its first ten characters are digits that read back as the offset. |
| Layout.XrefCounts | jspdf.js:351-387 | The subsection header's count and the trailer's `/Size` both equal the number of entries, the free entry included. |
| Layout.TrailerEnds | jspdf.js:389-395 | The trailer ends with `startxref`, the offset and `%%EOF`. |
| Fonts.FirstMatch | jspdf.js:436-443 | The index found holds a font of that family and style, and no earlier font matches. No index means no font matches. |
| Fonts.FirstMatchAt | jspdf.js:436-443 | The first match found by the search loop is the one `FirstMatch` specifies. |
| Fonts.StandardFacePosition | jspdf.js:251-264 | In the standard table, family f and style s are found at position 4f + s and nowhere else. |
| Fonts.FontAlwaysFound | jspdf.js:436-443 | With the full registry and a valid family and style, the search always succeeds, at 4f + s. The `F1` fallback is never reached. |
| Fonts.FontKeysDistinct | jspdf.js:270 | No two fonts share a key. |
| Fonts.FirstAndLastKeys | jspdf.js:270 | The keys run from `F1` to `F12`. |
| Escape.EscapeChar | jspdf.js:451 | One `replace` pass lengthens the text by the number of occurrences of its character. |
| Escape.PdfEscapeIsOnePass | jspdf.js:450-452 | The three-pass chain, backslash first, equals one left-to-right pass that escapes each `\`, `(` and `)` exactly once. |
| Escape.PdfEscapeLength | jspdf.js:450-452 | The output is longer than the input by exactly the number of `\`, `(` and `)`. |
| Escape.PdfEscapeRoundTrip | jspdf.js:450-452 | Backslash decoding (`\x` stands for `x`) turns the escaped text back into the original. The escaped text has no bare parenthesis and no dangling backslash. |
| Escape.PdfEscapeExample | jspdf.js:450-452 | `a(b)c\d` escapes to `a\(b\)c\\d`. |
| Escape.PdfEscapeDoubles | jspdf.js:450-452 | Escaping is not idempotent: `(` escapes to `\(`, and escaping that again gives `\\\(`. |
| Escape.EscapeLines | jspdf.js:496-498 | The loop that walks the copy backwards ends with element i equal to the escape of line i, for every i. |
| Escape.CountSpecialJoin | jspdf.js:499 | The separator `) Tj\nT* (` adds exactly two special characters per join. |
| Escape.TotalLengthOfEscaped | jspdf.js:496-499 | Escaping each line adds, in total, each line's number of special characters. |
| Escape.EscapeBeforeJoinMatters | jspdf.js:494-499 | With two or more lines, escaping each line and then joining differs from escaping the joined text. The separator's own parentheses must stay unescaped. |
| Escape.SingleLineAsString | jspdf.js:489-499 | A one-line array gives the same payload as the plain string. |
| Geometry.ScaleFactor | jspdf.js:107-117 | The unit succeeds exactly for `pt`, `mm`, `cm` and `in`, with a positive factor. Anything else fails with `Invalid unit`. |
| Geometry.PageSize | jspdf.js:120-132 | The size succeeds exactly for a table name (compared in lower case) or an explicit pair. A table size times k gives back the table's points. An explicit pair is the size unchanged, so it is in user units and not divided by k. |
| Geometry.ParseOrientation | jspdf.js:134-144 | `p`/`portrait` gives portrait and `l`/`landscape` gives landscape, both compared in lower case. Anything else fails. |
| Geometry.ResolveSucceedsIff | jspdf.js:71-144 | Set-up succeeds exactly when the defaulted unit, format and orientation are all valid. |
| Geometry.ResolveErrorOrder | jspdf.js:107-144 | A bad unit is reported first, then a bad format, then a bad orientation, which is reported in lower case. |
| Geometry.DefaultGeometry | jspdf.js:71-73 | With no arguments the set-up is A4 portrait, in millimetres. |
| Geometry.LandscapeSwaps | jspdf.js:137-141 | Landscape has the same scale as portrait, with width and height swapped. |
| Geometry.TableFormatInPoints | jspdf.js:121-123 | With the default portrait orientation, a table format converted back to points is the table's size in points. In landscape the two sides swap, by `LandscapeSwaps`. |
| Geometry.ExplicitFormatInUserUnits | jspdf.js:125-129 | An explicit `[w, h]` format, in the default portrait orientation, gives page width w and height h in the chosen unit. The scale is that unit's, so the page box in points is w·k by h·k. |
| Operators.FlipMatchesPageBox | jspdf.js:513 | User-space y is measured down from the page top. y = 0 becomes the top of the MediaBox, y = page height becomes 0, lower on the page means lower in PDF space, and x keeps its order. |
| Operators.RectOperatorSpans | jspdf.js:531 | The `re` operands are the corner (x, y) in PDF space and then the offsets to the opposite corner (x + w, y + h) in PDF space, followed by the style's paint operator. |
| Operators.PaintOperator | jspdf.js:525-530 | `F` fills only. `FD` or `DF` fills and strokes. Every other style, including none, strokes only. |
| Operators.EllipsePathShape | jspdf.js:541-560 | The four Bezier curves close the path. Their ends are the ellipse's four axis points, and the control points keep each joint's tangent. |
| Operators.EllipsePaintsOnce | jspdf.js:543-560 | The first three operators are plain curves. Only the last one paints. |
| Operators.ColorOperatorChoice | jspdf.js:617-644 | The gray operator is written exactly when the call has one channel or three zero channels. Otherwise the RGB operator is written. |
| Operators.BlackIsGray | jspdf.js:619 | Black given as three channels writes the same operator as black given as one. |
| Operators.TextOperatorShape | jspdf.js:508-516 | A text object opens with `BT` and the font key, and closes with the payload in parentheses and `Tj ET`. |
| Strings.NatToStringRoundTrip | jspdf.js:155 | An integer printed in decimal reads back as the same integer. |
| Strings.NatToStringInjective | jspdf.js:155 | Different integers print differently. |
| Strings.ZeroPadTen | jspdf.js:386 | `%010d` prints a number below 10^10 as exactly ten digits that read back as the number. |
| Strings.JoinLength | jspdf.js:183-185 | The joined text's length is the sum of the parts' lengths plus one separator between each pair of neighbours. |
| Strings.LowerIsLower | jspdf.js:587 | Lower-casing leaves no upper-case ASCII letter. |
| Strings.LowerFixesLower | jspdf.js:587-591 | A name that is already lower case is unchanged by lower-casing. |
| Escape.PdfEscape | jspdf.js:450-452 | Definition: three global replaces, `\` first, then `(`, then `)`. Its meaning is given by `PdfEscapeIsOnePass` and `PdfEscapeRoundTrip`. |
| Geometry.ResolveGeometry | jspdf.js:71-144 | Definition: fill in the defaults `p`, `mm` and `a4`, then resolve the unit, the format and the orientation in that order, stopping at the first error. Landscape swaps width and height. A successful result has a positive scale. |
| Operators.LineOperator | jspdf.js:520 | Definition: the first point, `m`, the second point, `l S`. |
| Operators.RectOperator | jspdf.js:531 | Definition: the corner, `w·k`, `-h·k`, `re` and the paint operator. `RectOperatorSpans` gives its meaning. |
| Operators.EllipseOperators | jspdf.js:543-560 | Definition: four `c` operators over the thirteen path points, the last followed by the paint operator. |
| Operators.LineWidthOperator | jspdf.js:614 | Definition: the width times k, then `w`. The same text is written by `_addPage` at jspdf.js:428. |
| Operators.ColorOperator | jspdf.js:617-644 | Definition: one `/255` channel and the gray operator when the call is grayscale, otherwise three channels and the RGB operator. |
| Operators.StrokeColorOperator | jspdf.js:618-623 | Definition: `ColorOperator` with `G`/`RG`. |
| Operators.FillColorOperator | jspdf.js:628-633 | Definition: `ColorOperator` with `g`/`rg`, which is also the text colour `setTextColor` stores. |
| Operators.TextPayload | jspdf.js:489-500 | Definition: the escaped string, or the escaped lines joined by `) Tj\nT* (`. |
| Operators.TextOperator | jspdf.js:508-516 | Definition: `BT`, the font key and size `Tf`, the size `TL`, the colour, the position `Td`, then the payload in parentheses with `Tj` and `ET`. |
| Layout.PageDictionary | jspdf.js:175-180 | Definition: the declaration line, `/Type /Page`, parent 1, resources 2, `/Contents` and `endobj`. |
| Layout.ContentStream | jspdf.js:183-187 | Definition: the declaration line, `/Length` of the operators joined by newlines, the stream, and `endobj`. |
| Layout.PagesRoot | jspdf.js:189-200 | Definition: object 1 with the kids line, `/Count` and the MediaBox. |
| Layout.FontObject | jspdf.js:241-245 | Definition: the declaration line, the base font, `/Subtype/Type1` and `endobj`. |
| Layout.ResourceDictionary | jspdf.js:220-225 | Definition: object 2 holding the ProcSet line, one entry per font and an empty XObject dictionary. |
| Layout.InfoObject | jspdf.js:366-371 | Definition: the declaration line, then the info entries between `<<` and `>>`. |
| Layout.CatalogObject | jspdf.js:373-378 | Definition: the declaration line, then the catalog entries between `<<` and `>>`. |
| Layout.XrefSection | jspdf.js:381-387 | Definition: `xref`, `0 N+1`, the free entry, and then one `%010d 00000 n ` entry per object 1..N. |
| Layout.Trailer | jspdf.js:389-395 | Definition: `trailer`, the `/Size`, `/Root` and `/Info` entries, `startxref`, the offset and `%%EOF`. |
| Assembly.FileObjects | jspdf.js:362-378 | Definition: the objects in the order `buildDocument` writes them. Its lemmas give the position, number and placement of each object. |
| Assembly.PdfFile | jspdf.js:360-399 | Definition: the header, the objects, the table built from the offsets they were recorded at, and the trailer given the body's length. `BuildDocument` is proved to write exactly it. |

## Left out

- Printing non-integer numbers is left out. `sprintf('%.2f')` and `%.3f`, and JavaScript's printing of the font size, are the `fixed` and `show` functions of `Operators.Numerics`, and their digits are not modelled. `sprintf` is not part of this model. Integers (object numbers, lengths, offsets, `%010d`) are printed exactly.
- Floating-point arithmetic is left out. Coordinates, the scale factor and page sizes are exact reals, while the source uses IEEE doubles.
- The ellipse constant 4/3·(√2 − 1) (jspdf.js:541-542) is the parameter `kappa`. There is no square root over the reals, and `EllipsePathShape` holds for any value.
- The creation date is left out because it reads the clock (jspdf.js:326-333). `BuildDocument` takes the timestamp text written after `D:` as its `created` argument.
- The format fallback of jspdf.js:125-131 is handled differently. The source lets a string outside the table be indexed as `format[1]`/`format[0]`. The model reports `InvalidFormat` for such a name instead. An explicit width/height pair is taken as given, in user units and not in points: the page box in points is the pair times k (`ExplicitFormatInUserUnits`).
- `output('datauri')` (jspdf.js:577-579) is left out: it navigates the browser and uses a Base64 library that is not part of this model.
- `addImage`, `putImages` and `putXobjectDict` (jspdf.js:276-278, 301-303, 570-572) are empty in the source. The model writes nothing for them.
- Document.Document.BuildDocument: requires an open page. A second `output()` is not modelled: it would start writing again onto the same buffer with the counter continuing.
- Document.Document.Text: requires an open page, as do Line, Rect, Ellipse, Circle, SetLineWidth, SetDrawColor and SetFillColor. Drawing after `output()`, when the source's `out` writes into the finished buffer, is not modelled.
- Document.Document.NewObject: requires the file to be being written. The source only calls it from `buildDocument`, while `state` is 1.
- Document.Document.AddFont: requires the face to be the next entry of the standard table. `addFonts` is its only caller and adds the faces in that order.
- Colour calls with two channels, where the third is `undefined` and prints as NaN, are left out. `ColorArgs` has one channel or three.
- `text` with an argument that is neither a string nor an array is left out, because `TextArg` has those two cases.
- `toLowerCase` is modelled on ASCII letters only. All the names it is compared against are ASCII, and no non-ASCII character lower-cases to one of them, so every decision agrees.
- `/Length` and the offsets count string elements, as JavaScript's `length` counts UTF-16 code units. The model uses `seq<char>` lengths, which agree for text within the Basic Multilingual Plane. Byte lengths are not modelled.
- Pages are numbered from 0 in the model, where the source's `pages` array starts at index 1.
- The document properties are the five keys `putInfo` reads. Other keys of the object passed to `setProperties` are ignored, as in the source.
- Document.Document.SetProperties: takes the properties by value, as of the call. The source keeps a reference to the caller's object (jspdf.js:567), and `putInfo` reads its fields only when the file is written (jspdf.js:311-325). A change the caller makes to that object after `setProperties` reaches the Info dictionary in the source, but not in the model.
- Escape.Unescape: models only the backslash decoding of a literal string. A reader's end-of-line rule is not modelled: ISO 32000-1, section 7.3.4.2, reads an unescaped CR or CR LF inside a literal string as one LF. `pdfEscape` does not escape CR (jspdf.js:450-452), so a CR in `text` does not survive into what a reader decodes. `PdfEscapeRoundTrip` is a round trip through `Unescape`, not through a reader.
- New pages always begin with the fixed line width 0.200025 and `0 G` (jspdf.js:428-429). They do not restate a width set by `setLineWidth` or a colour set by `setDrawColor`. `OpenPage` states exactly this.
