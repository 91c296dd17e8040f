/**
 * Construction-time configuration (jspdf.js:71-73, 80-86, 106-144): the scale
 * factor `k` (points per user unit) from the unit name, the page size in user
 * units from the format, and the orientation, which swaps width and height for
 * landscape. Each step can throw; the thrown message becomes a `ConfigError`.
 *
 * Numbers are exact reals here; the source computes them in IEEE doubles.
 */
module Geometry {
  import opened Wrappers
  import opened Strings

  datatype ConfigError =
    | InvalidUnit(unit: string)
    | InvalidFormat(format: string)
    | InvalidOrientation(orientation: string)

  datatype Orientation = Portrait | Landscape

  /** A format is a name from the page-format table or an explicit `[width, height]` pair. */
  datatype FormatArg = Named(name: string) | Dimensions(width: real, height: real)

  datatype Geometry = Geometry(k: real, pageWidth: real, pageHeight: real, orientation: Orientation)

  predicate IsUnit(unit: string) {
    unit == "pt" || unit == "mm" || unit == "cm" || unit == "in"
  }

  /** The unit dispatch of jspdf.js:107-117; unit names are compared case-sensitively. */
  function ScaleFactor(unit: string): (r: Result<real, ConfigError>)
    ensures r.Success? <==> IsUnit(unit)
    ensures r.Success? ==> r.value > 0.0
    ensures r.Failure? ==> r.error == InvalidUnit(unit)
  {
    if unit == "pt" then Success(1.0)
    else if unit == "mm" then Success(72.0 / 25.4)
    else if unit == "cm" then Success(72.0 / 2.54)
    else if unit == "in" then Success(72.0)
    else Failure(InvalidUnit(unit))
  }

  /** The page-format table of jspdf.js:80-86, in points: (width, height). */
  function PageFormat(name: string): Option<(real, real)> {
    if name == "a3" then Some((841.89, 1190.55))
    else if name == "a4" then Some((595.28, 841.89))
    else if name == "a5" then Some((420.94, 595.28))
    else if name == "letter" then Some((612.0, 792.0))
    else if name == "legal" then Some((612.0, 1008.0))
    else None
  }

  predicate IsFormat(format: FormatArg) {
    format.Named? ==> PageFormat(Lower(format.name)).Some?
  }

  /**
   * Page (width, height) in user units (jspdf.js:120-132). A table format is
   * divided by `k`; an explicit pair is taken as it is, already in user units.
   */
  function PageSize(format: FormatArg, k: real): (r: Result<(real, real), ConfigError>)
    requires k > 0.0
    ensures r.Success? <==> IsFormat(format)
    ensures format.Named? && r.Success? ==>
      var size := PageFormat(Lower(format.name)).value;
      r.value.0 * k == size.0 && r.value.1 * k == size.1
    ensures format.Dimensions? ==> r == Success((format.width, format.height))
  {
    match format
    case Named(name) =>
      (match PageFormat(Lower(name))
       case Some(size) => Success((size.0 / k, size.1 / k))
       case None => Failure(InvalidFormat(name)))
    case Dimensions(w, h) => Success((w, h))
  }

  predicate IsPortrait(o: string) {
    Lower(o) == "p" || Lower(o) == "portrait"
  }

  predicate IsLandscape(o: string) {
    Lower(o) == "l" || Lower(o) == "landscape"
  }

  /** Orientation normalisation of jspdf.js:134-144. */
  function ParseOrientation(o: string): (r: Result<Orientation, ConfigError>)
    ensures r == Success(Portrait) <==> IsPortrait(o)
    ensures r == Success(Landscape) <==> IsLandscape(o)
    ensures r.Failure? <==> !IsPortrait(o) && !IsLandscape(o)
  {
    var lower := Lower(o);
    if lower == "p" || lower == "portrait" then Success(Portrait)
    else if lower == "l" || lower == "landscape" then Success(Landscape)
    else Failure(InvalidOrientation(lower))
  }

  function GetOrDefault<T>(arg: Option<T>, default: T): T {
    if arg.Some? then arg.value else default
  }

  /**
   * The whole configuration step: defaults for omitted arguments ('p', 'mm',
   * 'a4'), then unit, format and orientation, in that order, each of which may fail.
   */
  function ResolveGeometry(orientation: Option<string>, unit: Option<string>, format: Option<FormatArg>)
    : (r: Result<Geometry, ConfigError>)
    ensures r.Success? ==> r.value.k > 0.0
  {
    var o := GetOrDefault(orientation, "p");
    var u := GetOrDefault(unit, "mm");
    var f := GetOrDefault(format, Named("a4"));
    match ScaleFactor(u)
    case Failure(e) => Failure(e)
    case Success(k) =>
      match PageSize(f, k)
      case Failure(e) => Failure(e)
      case Success(size) =>
        match ParseOrientation(o)
        case Failure(e) => Failure(e)
        case Success(Portrait) => Success(Geometry(k, size.0, size.1, Portrait))
        case Success(Landscape) => Success(Geometry(k, size.1, size.0, Landscape))
  }

  // ---------------------------------------------------------------------------
  // Properties of the configuration step
  // ---------------------------------------------------------------------------

  /** Configuration succeeds exactly when all three arguments are recognised. */
  lemma {:induction false} ResolveSucceedsIff(orientation: Option<string>, unit: Option<string>, format: Option<FormatArg>)
    ensures ResolveGeometry(orientation, unit, format).Success?
        <==> IsUnit(GetOrDefault(unit, "mm"))
             && IsFormat(GetOrDefault(format, Named("a4")))
             && (IsPortrait(GetOrDefault(orientation, "p")) || IsLandscape(GetOrDefault(orientation, "p")))
  {
  }

  /** Errors are reported in the source's order: the unit first, then the format, then the orientation. */
  lemma {:induction false} ResolveErrorOrder(orientation: Option<string>, unit: Option<string>, format: Option<FormatArg>)
    ensures !IsUnit(GetOrDefault(unit, "mm"))
        ==> ResolveGeometry(orientation, unit, format) == Failure(InvalidUnit(GetOrDefault(unit, "mm")))
    ensures IsUnit(GetOrDefault(unit, "mm")) && !IsFormat(GetOrDefault(format, Named("a4")))
        ==> ResolveGeometry(orientation, unit, format).Failure?
            && ResolveGeometry(orientation, unit, format).error.InvalidFormat?
    ensures IsUnit(GetOrDefault(unit, "mm")) && IsFormat(GetOrDefault(format, Named("a4")))
            && !IsPortrait(GetOrDefault(orientation, "p")) && !IsLandscape(GetOrDefault(orientation, "p"))
        ==> ResolveGeometry(orientation, unit, format)
            == Failure(InvalidOrientation(Lower(GetOrDefault(orientation, "p"))))
  {
  }

  /** The defaults give an A4 portrait page measured in millimetres. */
  lemma {:induction false} DefaultGeometry()
    ensures ResolveGeometry(None, None, None)
         == Success(Geometry(72.0 / 25.4, 595.28 / (72.0 / 25.4), 841.89 / (72.0 / 25.4), Portrait))
  {
    assert Lower("p") == "p";
    assert Lower("a4") == "a4";
  }

  /** A landscape document is the portrait one with width and height exchanged. */
  lemma {:induction false} LandscapeSwaps(portrait: string, landscape: string, unit: Option<string>, format: Option<FormatArg>)
    requires IsPortrait(portrait) && IsLandscape(landscape)
    ensures ResolveGeometry(Some(portrait), unit, format).Success?
        <==> ResolveGeometry(Some(landscape), unit, format).Success?
    ensures ResolveGeometry(Some(portrait), unit, format).Success? ==>
      var p := ResolveGeometry(Some(portrait), unit, format).value;
      var l := ResolveGeometry(Some(landscape), unit, format).value;
      l.k == p.k && l.pageWidth == p.pageHeight && l.pageHeight == p.pageWidth
      && p.orientation == Portrait && l.orientation == Landscape
  {
  }

  /** For a table format the page box in points is exactly the table entry, whatever the unit. */
  lemma {:induction false} TableFormatInPoints(unit: Option<string>, name: string)
    requires IsUnit(GetOrDefault(unit, "mm")) && PageFormat(Lower(name)).Some?
    ensures ResolveGeometry(None, unit, Some(Named(name))).Success?
    ensures var g := ResolveGeometry(None, unit, Some(Named(name))).value;
      g.pageWidth * g.k == PageFormat(Lower(name)).value.0
      && g.pageHeight * g.k == PageFormat(Lower(name)).value.1
  {
  }

  /**
   * An explicit pair is a size in user units, not in points: it becomes the
   * page size unchanged, so the page box in points is the pair times `k`.
   */
  lemma {:induction false} ExplicitFormatInUserUnits(unit: Option<string>, w: real, h: real)
    requires IsUnit(GetOrDefault(unit, "mm"))
    ensures ResolveGeometry(None, unit, Some(Dimensions(w, h))).Success?
    ensures var g := ResolveGeometry(None, unit, Some(Dimensions(w, h))).value;
      && g.k == ScaleFactor(GetOrDefault(unit, "mm")).value
      && g.pageWidth == w && g.pageHeight == h && g.orientation == Portrait
  {
  }
}
