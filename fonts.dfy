/**
 * The font registry (jspdf.js:38-68, 251-271, 436-443, 586-612): twelve
 * standard Type 1 fonts registered in a fixed order under the resource keys
 * F1..F12, and the lookup of the key for the current family and style.
 */
module Fonts {
  import opened Wrappers
  import opened Strings

  const HELVETICA: string := "helvetica"
  const TIMES: string := "times"
  const COURIER: string := "courier"
  const NORMAL: string := "normal"
  const BOLD: string := "bold"
  const ITALIC: string := "italic"
  const BOLD_ITALIC: string := "bolditalic"

  /** The PDF base-font name, and the family and style the drawing calls select it by. */
  datatype FontFace = FontFace(name: string, fontName: string, fontType: string)

  /** A registered font: its resource key and the object number it is (or will be) written as. */
  datatype Font = Font(key: string, number: nat, face: FontFace)

  /** Registration order of `addFonts` (jspdf.js:252-263). */
  const StandardFaces: seq<FontFace> := [
    FontFace("Helvetica", HELVETICA, NORMAL),
    FontFace("Helvetica-Bold", HELVETICA, BOLD),
    FontFace("Helvetica-Oblique", HELVETICA, ITALIC),
    FontFace("Helvetica-BoldOblique", HELVETICA, BOLD_ITALIC),
    FontFace("Courier", COURIER, NORMAL),
    FontFace("Courier-Bold", COURIER, BOLD),
    FontFace("Courier-Oblique", COURIER, ITALIC),
    FontFace("Courier-BoldOblique", COURIER, BOLD_ITALIC),
    FontFace("Times-Roman", TIMES, NORMAL),
    FontFace("Times-Bold", TIMES, BOLD),
    FontFace("Times-Italic", TIMES, ITALIC),
    FontFace("Times-BoldItalic", TIMES, BOLD_ITALIC)
  ]

  /** The key `addFont` gives the font registered when `count` fonts already exist. */
  function FontKey(count: nat): string {
    "F" + NatToString(count + 1)
  }

  predicate IsFamily(name: string) {
    name == HELVETICA || name == TIMES || name == COURIER
  }

  predicate IsStyle(fontType: string) {
    fontType == NORMAL || fontType == BOLD || fontType == ITALIC || fontType == BOLD_ITALIC
  }

  /** The fonts registered so far are the first entries of the standard table, keyed in order. */
  predicate Registered(fonts: seq<Font>) {
    |fonts| <= |StandardFaces|
    && forall i :: 0 <= i < |fonts| ==> fonts[i].key == FontKey(i) && fonts[i].face == StandardFaces[i]
  }

  predicate Matches(f: Font, fontName: string, fontType: string) {
    f.face.fontName == fontName && f.face.fontType == fontType
  }

  /** Index of the first font of the given family and style, if any. */
  function FirstMatch(fonts: seq<Font>, fontName: string, fontType: string): (r: Option<nat>)
    ensures r.Some? ==> r.value < |fonts| && Matches(fonts[r.value], fontName, fontType)
                        && forall j :: 0 <= j < r.value ==> !Matches(fonts[j], fontName, fontType)
    ensures r.None? ==> forall j :: 0 <= j < |fonts| ==> !Matches(fonts[j], fontName, fontType)
  {
    if fonts == [] then None
    else if Matches(fonts[0], fontName, fontType) then Some(0)
    else match FirstMatch(fonts[1..], fontName, fontType)
      case Some(i) => Some(i + 1)
      case None => None
  }

  /** A match with no match before it is the first match. */
  lemma {:induction false} FirstMatchAt(fonts: seq<Font>, fontName: string, fontType: string, i: nat)
    requires i < |fonts| && Matches(fonts[i], fontName, fontType)
    requires forall j :: 0 <= j < i ==> !Matches(fonts[j], fontName, fontType)
    ensures FirstMatch(fonts, fontName, fontType) == Some(i)
  {
  }

  /** What `getFont` returns: the key of the first match, or 'F1' when nothing matches. */
  function FontKeyFor(fonts: seq<Font>, fontName: string, fontType: string): string {
    match FirstMatch(fonts, fontName, fontType)
    case Some(i) => fonts[i].key
    case None => "F1"
  }

  function FamilyIndex(name: string): nat
    requires IsFamily(name)
  {
    if name == HELVETICA then 0 else if name == COURIER then 1 else 2
  }

  function StyleIndex(fontType: string): nat
    requires IsStyle(fontType)
  {
    if fontType == NORMAL then 0 else if fontType == BOLD then 1 else if fontType == ITALIC then 2 else 3
  }

  /** Each (family, style) pair occurs in the standard table once, at a computable place. */
  lemma {:induction false} StandardFacePosition(j: nat, fontName: string, fontType: string)
    requires j < |StandardFaces| && IsFamily(fontName) && IsStyle(fontType)
    ensures StandardFaces[j].fontName == fontName && StandardFaces[j].fontType == fontType
        <==> j == 4 * FamilyIndex(fontName) + StyleIndex(fontType)
  {
  }

  /**
   * With the full registry, every recognised family and style is found, so the
   * 'F1' fallback of `getFont` is never taken ("shouldn't happen", jspdf.js:442),
   * and the key is F(4 * family + style + 1).
   */
  lemma {:induction false} FontAlwaysFound(fonts: seq<Font>, fontName: string, fontType: string)
    requires Registered(fonts) && |fonts| == |StandardFaces|
    requires IsFamily(fontName) && IsStyle(fontType)
    ensures FirstMatch(fonts, fontName, fontType) == Some(4 * FamilyIndex(fontName) + StyleIndex(fontType))
    ensures FontKeyFor(fonts, fontName, fontType) == FontKey(4 * FamilyIndex(fontName) + StyleIndex(fontType))
  {
    var want := 4 * FamilyIndex(fontName) + StyleIndex(fontType);
    StandardFacePosition(want, fontName, fontType);
    var r := FirstMatch(fonts, fontName, fontType);
    if r.Some? {
      StandardFacePosition(r.value, fontName, fontType);
    }
  }

  /** The twelve keys are pairwise distinct, so the resource dictionary maps each to one font. */
  lemma {:induction false} FontKeysDistinct(i: nat, j: nat)
    requires FontKey(i) == FontKey(j)
    ensures i == j
  {
    assert NatToString(i + 1) == FontKey(i)[1..];
    assert NatToString(j + 1) == FontKey(j)[1..];
    NatToStringInjective(i + 1, j + 1);
  }

  lemma {:induction false} FirstAndLastKeys()
    ensures FontKey(0) == "F1" && FontKey(11) == "F12"
  {
    assert NatToString(12) == NatToString(1) + [DigitChar(2)];
  }
}
