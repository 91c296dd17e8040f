/**
 * The text of every indirect object `buildDocument` writes (jspdf.js:161-399),
 * as the list of chunks passed to `out`, each of which lands in the file
 * followed by a newline; and what it means for an object to sit at its
 * recorded offset. The file follows the classic layout of ISO 32000-1:
 * header (section 7.5.2), body, cross-reference table (section 7.5.4) and
 * trailer (section 7.5.5).
 */
module Layout {
  import opened Wrappers
  import opened Strings
  import opened Escape
  import opened Fonts
  import opened Operators

  const PdfVersion: string := "1.3"
  const ProducerVersion: string := "20120220"

  /** The declaration line `newObject` writes (jspdf.js:155). */
  function Header(n: nat): string {
    NatToString(n) + " 0 obj"
  }

  // ---------------------------------------------------------------------------
  // Pages
  // ---------------------------------------------------------------------------

  /** A page dictionary (jspdf.js:175-180): parent 1, resources 2, and its content stream. */
  function PageDictionary(n: nat, contents: nat): seq<string> {
    [Header(n), "<</Type /Page", "/Parent 1 0 R", "/Resources 2 0 R", "/Contents " + NatToString(contents) + " 0 R>>", "endobj"]
  }

  /** A page's content stream (jspdf.js:183-187): its operators joined by newlines, with their length. */
  function ContentStream(n: nat, ops: seq<string>): seq<string> {
    var data := Join(ops, "\n");
    [Header(n), "<</Length " + NatToString(|data|) + ">>", "stream", data, "endstream", "endobj"]
  }

  /** Page i (0-based) is object 3 + 2i: objects 1 and 2 are reserved, and every page takes two numbers. */
  function PageObjectNumbers(count: nat): (ns: seq<nat>)
    ensures |ns| == count
    ensures forall i, j :: 0 <= i < j < count ==> ns[i] < ns[j]
    ensures forall i :: 0 <= i < count ==> ns[i] % 2 == 1 && ns[i] >= 3
  {
    seq(count, i => 3 + 2 * i)
  }

  function RefList(ns: seq<nat>): string {
    if ns == [] then "" else RefList(ns[..|ns| - 1]) + NatToString(ns[|ns| - 1]) + " 0 R "
  }

  function KidsLine(count: nat): string {
    "/Kids [" + RefList(PageObjectNumbers(count)) + "]"
  }

  function MediaBoxLine(num: Numerics, widthPt: real, heightPt: real): string {
    "/MediaBox [0 0 " + num.fixed(2, widthPt) + " " + num.fixed(2, heightPt) + "]"
  }

  /** The page tree root, object 1 (jspdf.js:189-200). */
  function PagesRoot(count: nat, mediaBox: string): seq<string> {
    [Header(1), "<</Type /Pages", KidsLine(count), "/Count " + NatToString(count), mediaBox, ">>", "endobj"]
  }

  // ---------------------------------------------------------------------------
  // Resources
  // ---------------------------------------------------------------------------

  /** A standard Type 1 font object (jspdf.js:241-245). */
  function FontObject(n: nat, baseFont: string): seq<string> {
    [Header(n), "<</BaseFont/" + baseFont + "/Type/Font", "/Subtype/Type1>>", "endobj"]
  }

  function FontEntry(f: Font): string {
    "/" + f.key + " " + NatToString(f.number) + " 0 R"
  }

  function FontEntries(fonts: seq<Font>): (es: seq<string>)
    ensures |es| == |fonts|
  {
    seq(|fonts|, i requires 0 <= i < |fonts| => FontEntry(fonts[i]))
  }

  /** The body of the resource dictionary (jspdf.js:284-295); the XObject dictionary stays empty. */
  function ResourceEntries(fonts: seq<Font>): seq<string> {
    ["/ProcSet [/PDF /Text /ImageB /ImageC /ImageI]", "/Font <<"] + FontEntries(fonts) + [">>", "/XObject <<", ">>"]
  }

  /** The resource dictionary, object 2 (jspdf.js:220-225). */
  function ResourceDictionary(fonts: seq<Font>): seq<string> {
    [Header(2), "<<"] + ResourceEntries(fonts) + [">>", "endobj"]
  }

  // ---------------------------------------------------------------------------
  // Info and catalog
  // ---------------------------------------------------------------------------

  /** What `setProperties` stores; an absent entry is one the caller did not set. */
  datatype Properties = Properties(
    title: Option<string>, subject: Option<string>, author: Option<string>,
    keywords: Option<string>, creator: Option<string>)

  const NoProperties: Properties := Properties(None, None, None, None, None)

  function PropertyLine(name: string, value: Option<string>): seq<string> {
    if value.Some? then ["/" + name + " (" + PdfEscape(value.value) + ")"] else []
  }

  /**
   * The entries of the document information dictionary (jspdf.js:310-333); the
   * creation date is the timestamp text the caller supplies, written after `D:`.
   */
  function InfoEntries(props: Properties, created: string): seq<string> {
    ["/Producer (jsPDF " + ProducerVersion + ")"]
      + PropertyLine("Title", props.title) + PropertyLine("Subject", props.subject)
      + PropertyLine("Author", props.author) + PropertyLine("Keywords", props.keywords)
      + PropertyLine("Creator", props.creator)
      + ["/CreationDate (D:" + created + ")"]
  }

  function InfoObject(n: nat, props: Properties, created: string): seq<string> {
    [Header(n), "<<"] + InfoEntries(props, created) + [">>", "endobj"]
  }

  /** The catalog entries (jspdf.js:340-344): the page tree and the first page, object 3. */
  const CatalogEntries: seq<string> :=
    ["/Type /Catalog", "/Pages 1 0 R", "/OpenAction [3 0 R /FitH null]", "/PageLayout /OneColumn"]

  function CatalogObject(n: nat): seq<string> {
    [Header(n), "<<"] + CatalogEntries + [">>", "endobj"]
  }

  // ---------------------------------------------------------------------------
  // Cross-reference table and trailer
  // ---------------------------------------------------------------------------

  const FreeEntry: string := "0000000000 65535 f "

  /** `sprintf('%010d 00000 n ', offset)` (jspdf.js:386). */
  function XrefEntry(offset: nat): string {
    ZeroPad(offset, 10) + " 00000 n "
  }

  predicate AllRecorded(offsets: map<nat, nat>, count: nat) {
    forall n :: 1 <= n <= count ==> n in offsets
  }

  /** One in-use entry per object 1..count, in ascending object order. */
  function XrefEntries(offsets: map<nat, nat>, count: nat): seq<string>
    requires AllRecorded(offsets, count)
  {
    if count == 0 then [] else XrefEntries(offsets, count - 1) + [XrefEntry(offsets[count])]
  }

  /** jspdf.js:382-387: the keyword, the subsection header "0 size", the free entry, the entries. */
  function XrefSection(offsets: map<nat, nat>, count: nat): seq<string>
    requires AllRecorded(offsets, count)
  {
    ["xref", "0 " + NatToString(count + 1), FreeEntry] + XrefEntries(offsets, count)
  }

  /** The trailer (jspdf.js:350-354, 389-395): the last object is the catalog, the one before it the info. */
  function TrailerEntries(count: nat): seq<string>
    requires count >= 1
  {
    ["/Size " + NatToString(count + 1), "/Root " + NatToString(count) + " 0 R", "/Info " + NatToString(count - 1) + " 0 R"]
  }

  function Trailer(count: nat, xrefStart: nat): seq<string>
    requires count >= 1
  {
    ["trailer", "<<"] + TrailerEntries(count) + [">>", "startxref", NatToString(xrefStart), "%%EOF"]
  }

  /** The trailer's last three lines: `startxref`, the table's position, `%%EOF`. */
  lemma {:induction false} TrailerEnds(count: nat, xrefStart: nat)
    requires count >= 1
    ensures EndsWith(Unlines(Trailer(count, xrefStart)), "startxref\n" + NatToString(xrefStart) + "\n%%EOF\n")
  {
    var n := NatToString(xrefStart);
    var head := ["trailer", "<<"] + TrailerEntries(count) + [">>"];
    assert Trailer(count, xrefStart) == (head + ["startxref", n]) + ["%%EOF"];
    UnlinesSnoc(head + ["startxref", n], "%%EOF");
    assert head + ["startxref", n] == (head + ["startxref"]) + [n];
    UnlinesSnoc(head + ["startxref"], n);
    UnlinesSnoc(head, "startxref");
    var tail := "startxref\n" + n + "\n%%EOF\n";
    assert Unlines(Trailer(count, xrefStart)) == Unlines(head) + tail;
    assert Unlines(Trailer(count, xrefStart))[|Unlines(head)|..] == tail;
  }

  // ---------------------------------------------------------------------------
  // Objects at their offsets
  // ---------------------------------------------------------------------------

  /** Object `n` was recorded, and its text starts at the recorded offset. */
  predicate Placed(buf: string, offsets: map<nat, nat>, n: nat, lines: seq<string>) {
    n in offsets && StartsAt(buf, offsets[n], Unlines(lines))
  }

  lemma {:induction false} UnlinesCons(line: string, rest: seq<string>)
    ensures Unlines([line] + rest) == line + "\n" + Unlines(rest)
  {
    assert ([line] + rest)[1..] == rest;
  }

  // ---------------------------------------------------------------------------
  // Properties of the layout
  // ---------------------------------------------------------------------------

  lemma {:induction false} UnlinesHead(lines: seq<string>)
    requires |lines| > 0
    ensures Unlines(lines) == (lines[0] + "\n") + Unlines(lines[1..])
  {
  }

  /** The lines before a line, the line, and the lines after it. */
  lemma {:induction false} UnlinesSplit(before: seq<string>, line: string, after: seq<string>)
    ensures Unlines(before + [line] + after) == Unlines(before) + line + "\n" + Unlines(after)
  {
    assert before + [line] + after == before + ([line] + after);
    UnlinesAppend(before, [line] + after);
    UnlinesCons(line, after);
  }

  /**
   * The `/Length` of a content stream is exactly the number of characters
   * between the end of the `stream` line and the newline before `endstream`:
   * the stream data is the fourth line, and the second line gives its length.
   */
  lemma {:induction false} ContentLengthExact(n: nat, ops: seq<string>)
    ensures var c := ContentStream(n, ops);
      var data := Join(ops, "\n");
      Unlines(c) == Unlines(c[..3]) + data + "\n" + Unlines(c[4..])
      && c[2] == "stream" && c[4] == "endstream"
      && c[1] == "<</Length " + NatToString(|data|) + ">>"
      && DecimalValue(NatToString(|data|)) == |data|
  {
    var c := ContentStream(n, ops);
    UnlinesSplit(c[..3], c[3], c[4..]);
    assert c[..3] + [c[3]] + c[4..] == c;
    NatToStringRoundTrip(|Join(ops, "\n")|);
  }

  lemma {:induction false} XrefEntriesAt(offsets: map<nat, nat>, count: nat, i: nat)
    requires AllRecorded(offsets, count) && i < count
    ensures |XrefEntries(offsets, count)| == count
    ensures XrefEntries(offsets, count)[i] == XrefEntry(offsets[i + 1])
  {
    if i < count - 1 {
      XrefEntriesAt(offsets, count - 1, i);
    } else {
      XrefEntriesLength(offsets, count - 1);
    }
  }

  lemma {:induction false} XrefEntriesLength(offsets: map<nat, nat>, count: nat)
    requires AllRecorded(offsets, count)
    ensures |XrefEntries(offsets, count)| == count
  {
    if count > 0 {
      XrefEntriesLength(offsets, count - 1);
    }
  }

  /**
   * Each in-use entry, with its newline, is exactly 20 characters
   * (ISO 32000-1 section 7.5.4) and its first ten digits read back as the offset.
   */
  lemma {:induction false} XrefEntryFormat(offset: nat)
    requires offset < Pow10(10)
    ensures |XrefEntry(offset) + "\n"| == 20 && |FreeEntry + "\n"| == 20
    ensures IsDigits(XrefEntry(offset)[..10]) && DecimalValue(XrefEntry(offset)[..10]) == offset
  {
    ZeroPadTen(offset);
    assert XrefEntry(offset)[..10] == ZeroPad(offset, 10);
  }

  /** The size in the subsection header and in the trailer is the number of entries, free entry included. */
  lemma {:induction false} XrefCounts(offsets: map<nat, nat>, count: nat)
    requires AllRecorded(offsets, count) && count >= 1
    ensures |XrefSection(offsets, count)| == 3 + count
    ensures XrefSection(offsets, count)[1] == "0 " + NatToString(|XrefSection(offsets, count)| - 2)
    ensures TrailerEntries(count)[0] == "/Size " + NatToString(|XrefSection(offsets, count)| - 2)
  {
    XrefEntriesLength(offsets, count);
  }

  /** /Kids lists the page object numbers in page order. */
  lemma {:induction false} KidsInOrder(count: nat)
    ensures RefList(PageObjectNumbers(count + 1)) == RefList(PageObjectNumbers(count)) + NatToString(3 + 2 * count) + " 0 R "
  {
    assert PageObjectNumbers(count + 1)[..count] == PageObjectNumbers(count);
  }
}
