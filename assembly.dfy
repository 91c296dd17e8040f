/**
 * The whole file `buildDocument` writes (jspdf.js:360-399). The body is a list
 * of indirect objects written one after another, each recorded, when it is
 * started, at the offset where its text begins; then come the cross-reference
 * table and the trailer. The lemmas state what a reader of the file relies on:
 * every object 1..N is recorded, each sits at its recorded offset and begins
 * with its own declaration line, the table lists the offsets in object order,
 * and `startxref` gives where the table starts.
 */
module Assembly {
  import opened Strings
  import opened Fonts
  import opened Layout

  /** The header line `putHeader` writes (jspdf.js:162). */
  const FileHeader: string := "%PDF-" + PdfVersion + "\n"

  /** An indirect object as written: its number, and the chunks passed to `out` for it. */
  datatype Object = Object(number: nat, lines: seq<string>)

  // ---------------------------------------------------------------------------
  // Objects written one after another
  // ---------------------------------------------------------------------------

  /** The text of the objects, in order. */
  function Concat(objs: seq<Object>): string {
    if objs == [] then "" else Unlines(objs[0].lines) + Concat(objs[1..])
  }

  /**
   * `offsets` once `objs` are written from position `base` on, starting from
   * `m`: `newObject` records each number at the position its object starts.
   */
  function Offsets(m: map<nat, nat>, base: nat, objs: seq<Object>): map<nat, nat>
    decreases objs
  {
    if objs == [] then m
    else Offsets(m[objs[0].number := base], base + |Unlines(objs[0].lines)|, objs[1..])
  }

  function Numbers(objs: seq<Object>): seq<nat> {
    seq(|objs|, j requires 0 <= j < |objs| => objs[j].number)
  }

  /** Writing `objs` took the file and its offsets from `b0`, `o0` to `b1`, `o1`. */
  predicate Wrote(b0: string, o0: map<nat, nat>, b1: string, o1: map<nat, nat>, objs: seq<Object>) {
    b1 == b0 + Concat(objs) && o1 == Offsets(o0, |b0|, objs)
  }

  lemma {:induction false} ConcatAppend(a: seq<Object>, b: seq<Object>)
    ensures Concat(a + b) == Concat(a) + Concat(b)
  {
    if a == [] {
      assert a + b == b;
    } else {
      assert (a + b)[1..] == a[1..] + b;
      ConcatAppend(a[1..], b);
    }
  }

  lemma {:induction false} OffsetsAppend(m: map<nat, nat>, base: nat, a: seq<Object>, b: seq<Object>)
    ensures Offsets(m, base, a + b) == Offsets(Offsets(m, base, a), base + |Concat(a)|, b)
    decreases a
  {
    if a == [] {
      assert a + b == b;
    } else {
      assert (a + b)[1..] == a[1..] + b;
      OffsetsAppend(m[a[0].number := base], base + |Unlines(a[0].lines)|, a[1..], b);
    }
  }

  lemma {:induction false} ConcatOne(m: map<nat, nat>, base: nat, o: Object)
    ensures Concat([o]) == Unlines(o.lines)
    ensures Offsets(m, base, [o]) == m[o.number := base]
  {
    assert [o][1..] == [];
  }

  /** One object written at the end of the file, recorded at the old end. */
  lemma {:induction false} WroteOne(b0: string, o0: map<nat, nat>, o: Object)
    ensures Wrote(b0, o0, b0 + Unlines(o.lines), o0[o.number := |b0|], [o])
  {
    ConcatOne(o0, |b0|, o);
  }

  /** Writing `x` and then `y` is writing `x + y`. */
  lemma {:induction false} WroteThen(b0: string, o0: map<nat, nat>, b1: string, o1: map<nat, nat>, b2: string, o2: map<nat, nat>,
                  x: seq<Object>, y: seq<Object>)
    requires Wrote(b0, o0, b1, o1, x) && Wrote(b1, o1, b2, o2, y)
    ensures Wrote(b0, o0, b2, o2, x + y)
  {
    ConcatAppend(x, y);
    OffsetsAppend(o0, |b0|, x, y);
  }

  /** Object `j` is found in the text right after the objects before it. */
  lemma {:induction false} ObjectAt(objs: seq<Object>, j: nat)
    requires j < |objs|
    ensures StartsAt(Concat(objs), |Concat(objs[..j])|, Unlines(objs[j].lines))
  {
    assert objs == objs[..j] + ([objs[j]] + objs[j + 1..]);
    ConcatAppend(objs[..j], [objs[j]] + objs[j + 1..]);
    ConcatAppend([objs[j]], objs[j + 1..]);
    ConcatOne(map[], 0, objs[j]);
    StartsAtAppended(Concat(objs[..j]), Unlines(objs[j].lines), Concat(objs[j + 1..]));
  }

  /** Writing records exactly the numbers of the objects written, and leaves the others alone. */
  lemma {:induction false} OffsetsKeys(m: map<nat, nat>, base: nat, objs: seq<Object>, k: nat)
    ensures k in Offsets(m, base, objs) <==> k in m || k in Numbers(objs)
    ensures k in m && k !in Numbers(objs) ==> Offsets(m, base, objs)[k] == m[k]
    decreases objs
  {
    if objs != [] {
      OffsetsKeys(m[objs[0].number := base], base + |Unlines(objs[0].lines)|, objs[1..], k);
      assert Numbers(objs) == [objs[0].number] + Numbers(objs[1..]);
    }
  }

  /** When no later object reuses its number, object `j` is recorded where its text starts. */
  lemma {:induction false} OffsetsAt(m: map<nat, nat>, base: nat, objs: seq<Object>, j: nat)
    requires j < |objs|
    requires forall i :: j < i < |objs| ==> objs[i].number != objs[j].number
    ensures objs[j].number in Offsets(m, base, objs)
    ensures Offsets(m, base, objs)[objs[j].number] == base + |Concat(objs[..j])|
  {
    var before, o, rest := objs[..j], objs[j], objs[j + 1..];
    var m1 := Offsets(m, base, before);
    var at := base + |Concat(before)|;
    var m2 := m1[o.number := at];
    calc {
      Offsets(m, base, objs);
      { assert objs == (before + [o]) + rest; }
      Offsets(m, base, (before + [o]) + rest);
      { OffsetsAppend(m, base, before + [o], rest);
        ConcatAppend(before, [o]);
        ConcatOne(m1, at, o); }
      Offsets(Offsets(m, base, before + [o]), at + |Unlines(o.lines)|, rest);
      { OffsetsAppend(m, base, before, [o]); }
      Offsets(m2, at + |Unlines(o.lines)|, rest);
    }
    assert o.number !in Numbers(rest);
    OffsetsKeys(m2, at + |Unlines(o.lines)|, rest, o.number);
  }

  // ---------------------------------------------------------------------------
  // The objects of the file, in the order they are written
  // ---------------------------------------------------------------------------

  /** The page loop (jspdf.js:174-188): page i is the dictionary 3 + 2i, then its content stream 4 + 2i. */
  function PageObjects(pages: seq<seq<string>>, count: nat): seq<Object>
    requires count <= |pages|
  {
    if count == 0 then []
    else PageObjects(pages, count - 1)
         + [Object(1 + 2 * count, PageDictionary(1 + 2 * count, 2 + 2 * count)),
            Object(2 + 2 * count, ContentStream(2 + 2 * count, pages[count - 1]))]
  }

  /** The fonts once `putFont` has given them the consecutive numbers first, first + 1, ... */
  function Numbered(fonts: seq<Font>, first: nat): seq<Font> {
    seq(|fonts|, i requires 0 <= i < |fonts| => fonts[i].(number := first + i))
  }

  /** Numbering the fonts keeps their keys and faces, so a valid registry stays valid. */
  lemma {:induction false} NumberedRegistered(fonts: seq<Font>, first: nat)
    requires Registered(fonts)
    ensures Registered(Numbered(fonts, first))
  {
  }

  /** The `putFonts` loop (jspdf.js:231-235): font i is object first + i. */
  function FontObjects(fonts: seq<Font>, first: nat, count: nat): seq<Object>
    requires count <= |fonts|
  {
    if count == 0 then []
    else FontObjects(fonts, first, count - 1)
         + [Object(first + count - 1, FontObject(first + count - 1, fonts[count - 1].face.name))]
  }

  /** The number of the first font object, the one after the last page's content stream. */
  function FirstFont(pageCount: nat): nat {
    3 + 2 * pageCount
  }

  /** The last object number, the catalog's: pages, page tree, fonts, resources, info, catalog. */
  function LastObject(pageCount: nat, fontCount: nat): nat {
    4 + 2 * pageCount + fontCount
  }

  /** The objects of `buildDocument` (jspdf.js:362-378), in file order. */
  function FileObjects(pages: seq<seq<string>>, mediaBox: string, fonts: seq<Font>, props: Properties, created: string)
    : seq<Object>
  {
    PageObjects(pages, |pages|) + [Object(1, PagesRoot(|pages|, mediaBox))] + FontObjects(fonts, FirstFont(|pages|), |fonts|)
      + LastObjects(|pages|, fonts, props, created)
  }

  /** Everything before the cross-reference table. */
  function BodyText(pages: seq<seq<string>>, mediaBox: string, fonts: seq<Font>, props: Properties, created: string)
    : string
  {
    FileHeader + Concat(FileObjects(pages, mediaBox, fonts, props, created))
  }

  /** The offset recorded for every object while the body is written. */
  function BodyOffsets(pages: seq<seq<string>>, mediaBox: string, fonts: seq<Font>, props: Properties, created: string)
    : map<nat, nat>
  {
    Offsets(map[], |FileHeader|, FileObjects(pages, mediaBox, fonts, props, created))
  }

  /** The file `buildDocument` returns: the body, the cross-reference table and the trailer. */
  function PdfFile(pages: seq<seq<string>>, mediaBox: string, fonts: seq<Font>, props: Properties, created: string)
    : string
  {
    var body := BodyText(pages, mediaBox, fonts, props, created);
    var last := LastObject(|pages|, |fonts|);
    BodyOffsetsKeys(pages, mediaBox, fonts, props, created);
    body + Unlines(XrefSection(BodyOffsets(pages, mediaBox, fonts, props, created), last) + Trailer(last, |body|))
  }

  // ---------------------------------------------------------------------------
  // Writing the file piece by piece
  // ---------------------------------------------------------------------------

  /** Writing page n's two objects after the first n pages' objects writes the first n + 1 pages' objects. */
  lemma {:induction false} WrotePage(b0: string, o0: map<nat, nat>, b1: string, o1: map<nat, nat>, b2: string, o2: map<nat, nat>,
                  pages: seq<seq<string>>, n: nat)
    requires n < |pages|
    requires Wrote(b0, o0, b1, o1, PageObjects(pages, n))
    requires Wrote(b1, o1, b2, o2, [Object(3 + 2 * n, PageDictionary(3 + 2 * n, 4 + 2 * n)),
                                    Object(4 + 2 * n, ContentStream(4 + 2 * n, pages[n]))])
    ensures Wrote(b0, o0, b2, o2, PageObjects(pages, n + 1))
  {
    WroteThen(b0, o0, b1, o1, b2, o2, PageObjects(pages, n),
              [Object(3 + 2 * n, PageDictionary(3 + 2 * n, 4 + 2 * n)), Object(4 + 2 * n, ContentStream(4 + 2 * n, pages[n]))]);
  }

  /** The objects of the file are the stages' objects, in order. */
  lemma {:induction false} FileObjectsStages(pages: seq<seq<string>>, mediaBox: string, fonts: seq<Font>, props: Properties, created: string)
    ensures var last := LastObject(|pages|, |fonts|);
            FileObjects(pages, mediaBox, fonts, props, created)
            == (PageObjects(pages, |pages|) + [Object(1, PagesRoot(|pages|, mediaBox))]
                + (FontObjects(fonts, FirstFont(|pages|), |fonts|)
                   + [Object(2, ResourceDictionary(Numbered(fonts, FirstFont(|pages|))))]))
               + [Object(last - 1, InfoObject(last - 1, props, created)), Object(last, CatalogObject(last))]
  {
  }

  /**
   * The two stages of `buildDocument` after the header (jspdf.js:362-378),
   * one after the other, write exactly the objects of the file.
   */
  lemma {:induction false} WroteStages(b0: string, o0: map<nat, nat>, b1: string, o1: map<nat, nat>, b2: string, o2: map<nat, nat>,
                    pages: seq<seq<string>>, mediaBox: string, fonts: seq<Font>, props: Properties, created: string,
                    x: seq<Object>, y: seq<Object>)
    requires x == PageObjects(pages, |pages|) + [Object(1, PagesRoot(|pages|, mediaBox))]
                  + (FontObjects(fonts, FirstFont(|pages|), |fonts|)
                     + [Object(2, ResourceDictionary(Numbered(fonts, FirstFont(|pages|))))])
    requires y == [Object(LastObject(|pages|, |fonts|) - 1, InfoObject(LastObject(|pages|, |fonts|) - 1, props, created)),
                   Object(LastObject(|pages|, |fonts|), CatalogObject(LastObject(|pages|, |fonts|)))]
    requires Wrote(b0, o0, b1, o1, x) && Wrote(b1, o1, b2, o2, y)
    ensures Wrote(b0, o0, b2, o2, FileObjects(pages, mediaBox, fonts, props, created))
  {
    FileObjectsStages(pages, mediaBox, fonts, props, created);
    WroteThen(b0, o0, b1, o1, b2, o2, x, y);
  }

  // ---------------------------------------------------------------------------
  // Where each object of the file is
  // ---------------------------------------------------------------------------

  lemma {:induction false} PageObjectsLength(pages: seq<seq<string>>, count: nat)
    requires count <= |pages|
    ensures |PageObjects(pages, count)| == 2 * count
  {
    if count > 0 {
      PageObjectsLength(pages, count - 1);
    }
  }

  /** Round i of the page loop writes page i's dictionary, then its content stream. */
  lemma {:induction false} PageObjectsAt(pages: seq<seq<string>>, count: nat, i: nat)
    requires i < count <= |pages|
    ensures |PageObjects(pages, count)| == 2 * count
    ensures PageObjects(pages, count)[2 * i] == Object(3 + 2 * i, PageDictionary(3 + 2 * i, 4 + 2 * i))
    ensures PageObjects(pages, count)[2 * i + 1] == Object(4 + 2 * i, ContentStream(4 + 2 * i, pages[i]))
  {
    PageObjectsLength(pages, count - 1);
    if i < count - 1 {
      PageObjectsAt(pages, count - 1, i);
    }
  }

  lemma {:induction false} FontObjectsLength(fonts: seq<Font>, first: nat, count: nat)
    requires count <= |fonts|
    ensures |FontObjects(fonts, first, count)| == count
  {
    if count > 0 {
      FontObjectsLength(fonts, first, count - 1);
    }
  }

  lemma {:induction false} FontObjectsAt(fonts: seq<Font>, first: nat, count: nat, i: nat)
    requires i < count <= |fonts|
    ensures |FontObjects(fonts, first, count)| == count
    ensures FontObjects(fonts, first, count)[i] == Object(first + i, FontObject(first + i, fonts[i].face.name))
  {
    FontObjectsLength(fonts, first, count - 1);
    if i < count - 1 {
      FontObjectsAt(fonts, first, count - 1, i);
    }
  }

  /**
   * The number of the object at position j of the file: the pages' objects
   * 3, 4, ..., then the page tree 1, the fonts, the resources 2, info and catalog.
   */
  function NumberAt(pageCount: nat, fontCount: nat, j: nat): nat {
    if j < 2 * pageCount then j + 3
    else if j == 2 * pageCount then 1
    else if j <= 2 * pageCount + fontCount then j + 2
    else if j == 2 * pageCount + fontCount + 1 then 2
    else j + 1
  }

  /** The position of object k in the file, the inverse of `NumberAt`. */
  function PositionOf(pageCount: nat, fontCount: nat, k: nat): (j: nat)
    requires 1 <= k <= LastObject(pageCount, fontCount)
    ensures j < LastObject(pageCount, fontCount) && NumberAt(pageCount, fontCount, j) == k
  {
    if k == 1 then 2 * pageCount
    else if k == 2 then 2 * pageCount + fontCount + 1
    else if k < FirstFont(pageCount) then k - 3
    else if k < FirstFont(pageCount) + fontCount then k - 2
    else k - 1
  }

  /** The object's first line declares it under its own number. */
  predicate Declares(o: Object) {
    |o.lines| > 0 && o.lines[0] == Header(o.number)
  }

  lemma {:induction false} PageObjectsNumbers(pages: seq<seq<string>>, count: nat, j: nat)
    requires count <= |pages| && j < 2 * count
    ensures |PageObjects(pages, count)| == 2 * count && PageObjects(pages, count)[j].number == j + 3
    ensures Declares(PageObjects(pages, count)[j])
  {
    var i := j / 2;
    PageObjectsAt(pages, count, i);
    if j == 2 * i {
      assert PageObjects(pages, count)[j] == Object(3 + 2 * i, PageDictionary(3 + 2 * i, 4 + 2 * i));
    } else {
      assert j == 2 * i + 1;
      assert PageObjects(pages, count)[j] == Object(4 + 2 * i, ContentStream(4 + 2 * i, pages[i]));
    }
  }

  /** Splitting an index of `ps + [r] + fs + tail` into the part it falls in. */
  lemma {:induction false} IndexParts(ps: seq<Object>, r: Object, fs: seq<Object>, tail: seq<Object>, j: nat)
    requires j < |ps| + 1 + |fs| + |tail|
    ensures |ps + [r] + fs + tail| == |ps| + 1 + |fs| + |tail|
    ensures j < |ps| ==> (ps + [r] + fs + tail)[j] == ps[j]
    ensures j == |ps| ==> (ps + [r] + fs + tail)[j] == r
    ensures |ps| < j <= |ps| + |fs| ==> (ps + [r] + fs + tail)[j] == fs[j - |ps| - 1]
    ensures |ps| + |fs| < j ==> (ps + [r] + fs + tail)[j] == tail[j - |ps| - 1 - |fs|]
  {
  }

  /** The resource dictionary, the information dictionary and the catalog, which close the body. */
  function LastObjects(pageCount: nat, fonts: seq<Font>, props: Properties, created: string): seq<Object> {
    var last := LastObject(pageCount, |fonts|);
    [Object(2, ResourceDictionary(Numbered(fonts, FirstFont(pageCount)))),
     Object(last - 1, InfoObject(last - 1, props, created)),
     Object(last, CatalogObject(last))]
  }

  /** Page i's two objects are at positions 2i and 2i + 1 of the file. */
  lemma {:induction false} FilePageObjects(pages: seq<seq<string>>, mediaBox: string, fonts: seq<Font>, props: Properties, created: string,
                        i: nat)
    requires i < |pages|
    ensures |FileObjects(pages, mediaBox, fonts, props, created)| == LastObject(|pages|, |fonts|)
    ensures FileObjects(pages, mediaBox, fonts, props, created)[2 * i]
         == Object(3 + 2 * i, PageDictionary(3 + 2 * i, 4 + 2 * i))
    ensures FileObjects(pages, mediaBox, fonts, props, created)[2 * i + 1]
         == Object(4 + 2 * i, ContentStream(4 + 2 * i, pages[i]))
  {
    var P, F := |pages|, |fonts|;
    var ps, r, fs := PageObjects(pages, P), Object(1, PagesRoot(P, mediaBox)), FontObjects(fonts, FirstFont(P), F);
    PageObjectsAt(pages, P, i);
    FontObjectsLength(fonts, FirstFont(P), F);
    IndexParts(ps, r, fs, LastObjects(P, fonts, props, created), 2 * i);
    IndexParts(ps, r, fs, LastObjects(P, fonts, props, created), 2 * i + 1);
  }

  /** Font i's object is at position 2P + 1 + i, after the page tree root. */
  lemma {:induction false} FileFontObject(pages: seq<seq<string>>, mediaBox: string, fonts: seq<Font>, props: Properties, created: string,
                       i: nat)
    requires i < |fonts|
    ensures |FileObjects(pages, mediaBox, fonts, props, created)| == LastObject(|pages|, |fonts|)
    ensures FileObjects(pages, mediaBox, fonts, props, created)[2 * |pages| + 1 + i]
         == Object(FirstFont(|pages|) + i, FontObject(FirstFont(|pages|) + i, fonts[i].face.name))
  {
    var P, F := |pages|, |fonts|;
    var ps, r, fs := PageObjects(pages, P), Object(1, PagesRoot(P, mediaBox)), FontObjects(fonts, FirstFont(P), F);
    PageObjectsLength(pages, P);
    FontObjectsAt(fonts, FirstFont(P), F, i);
    IndexParts(ps, r, fs, LastObjects(P, fonts, props, created), 2 * P + 1 + i);
  }

  /** The page tree root follows the pages; resources, info and catalog close the body. */
  lemma {:induction false} FileOtherObjects(pages: seq<seq<string>>, mediaBox: string, fonts: seq<Font>, props: Properties, created: string)
    ensures var objs := FileObjects(pages, mediaBox, fonts, props, created);
      var P, F := |pages|, |fonts|;
      var last := LastObject(P, F);
      && |objs| == last
      && objs[2 * P] == Object(1, PagesRoot(P, mediaBox))
      && objs[2 * P + 1 + F] == Object(2, ResourceDictionary(Numbered(fonts, FirstFont(P))))
      && objs[last - 2] == Object(last - 1, InfoObject(last - 1, props, created))
      && objs[last - 1] == Object(last, CatalogObject(last))
  {
    var P, F := |pages|, |fonts|;
    var ps, r, fs := PageObjects(pages, P), Object(1, PagesRoot(P, mediaBox)), FontObjects(fonts, FirstFont(P), F);
    var tail := LastObjects(P, fonts, props, created);
    PageObjectsLength(pages, P);
    FontObjectsLength(fonts, FirstFont(P), F);
    IndexParts(ps, r, fs, tail, 2 * P);
    IndexParts(ps, r, fs, tail, 2 * P + 1 + F);
    IndexParts(ps, r, fs, tail, 2 * P + 2 + F);
    IndexParts(ps, r, fs, tail, 2 * P + 3 + F);
  }

  /** Object j of the file has the number `NumberAt` gives. */
  lemma {:induction false} FileObjectNumber(pages: seq<seq<string>>, mediaBox: string, fonts: seq<Font>, props: Properties, created: string,
                         j: nat)
    requires j < LastObject(|pages|, |fonts|)
    ensures |FileObjects(pages, mediaBox, fonts, props, created)| == LastObject(|pages|, |fonts|)
    ensures FileObjects(pages, mediaBox, fonts, props, created)[j].number == NumberAt(|pages|, |fonts|, j)
  {
    var P, F := |pages|, |fonts|;
    if j < 2 * P {
      FilePageObject(pages, mediaBox, fonts, props, created, j);
    } else if 2 * P < j <= 2 * P + F {
      FileFontObject(pages, mediaBox, fonts, props, created, j - 2 * P - 1);
    } else {
      FileOtherObjects(pages, mediaBox, fonts, props, created);
    }
  }

  /** No number is used twice, so each offset belongs to one object. */
  predicate Distinct(objs: seq<Object>) {
    forall j :: 0 <= j < |objs| ==> UniqueFrom(objs, j)
  }

  /** No object after position j has the number of object j. */
  predicate UniqueFrom(objs: seq<Object>, j: nat)
    requires j < |objs|
  {
    forall i :: j < i < |objs| ==> objs[i].number != objs[j].number
  }

  lemma {:induction false} FileNumbers(pages: seq<seq<string>>, mediaBox: string, fonts: seq<Font>, props: Properties, created: string)
    ensures Distinct(FileObjects(pages, mediaBox, fonts, props, created))
    ensures forall k: nat :: k in Numbers(FileObjects(pages, mediaBox, fonts, props, created))
                             <==> 1 <= k <= LastObject(|pages|, |fonts|)
  {
    var objs := FileObjects(pages, mediaBox, fonts, props, created);
    var P, F := |pages|, |fonts|;
    FileObjectNumber(pages, mediaBox, fonts, props, created, 0);
    forall j | 0 <= j < |objs|
      ensures UniqueFrom(objs, j)
    {
      forall i | j < i < |objs|
        ensures objs[i].number != objs[j].number
      {
        FileObjectNumber(pages, mediaBox, fonts, props, created, i);
        FileObjectNumber(pages, mediaBox, fonts, props, created, j);
      }
    }
    forall k: nat
      ensures k in Numbers(objs) <==> 1 <= k <= LastObject(P, F)
    {
      if 1 <= k <= LastObject(P, F) {
        FileObjectNumber(pages, mediaBox, fonts, props, created, PositionOf(P, F, k));
        assert Numbers(objs)[PositionOf(P, F, k)] == k;
      }
      if k in Numbers(objs) {
        var j :| 0 <= j < |objs| && Numbers(objs)[j] == k;
        FileObjectNumber(pages, mediaBox, fonts, props, created, j);
      }
    }
  }

  /** Every object 1..N has an offset, and no other number does. */
  lemma {:induction false} BodyOffsetsKeys(pages: seq<seq<string>>, mediaBox: string, fonts: seq<Font>, props: Properties, created: string)
    ensures forall k: nat :: k in BodyOffsets(pages, mediaBox, fonts, props, created) <==> 1 <= k <= LastObject(|pages|, |fonts|)
    ensures AllRecorded(BodyOffsets(pages, mediaBox, fonts, props, created), LastObject(|pages|, |fonts|))
  {
    FileNumbers(pages, mediaBox, fonts, props, created);
    forall k: nat
      ensures k in BodyOffsets(pages, mediaBox, fonts, props, created) <==> 1 <= k <= LastObject(|pages|, |fonts|)
    {
      OffsetsKeys(map[], |FileHeader|, FileObjects(pages, mediaBox, fonts, props, created), k);
    }
  }

  /** Objects with distinct numbers, written after `pre`, each sit at their recorded offset in anything that follows. */
  lemma {:induction false} WrittenPlaced(objs: seq<Object>, pre: string, post: string, j: nat)
    requires Distinct(objs) && j < |objs|
    ensures Placed(pre + Concat(objs) + post, Offsets(map[], |pre|, objs), objs[j].number, objs[j].lines)
  {
    assert UniqueFrom(objs, j);
    WrittenAt(objs, pre, post, j);
    OffsetsAt(map[], |pre|, objs, j);
  }

  lemma {:induction false} WrittenAt(objs: seq<Object>, pre: string, post: string, j: nat)
    requires j < |objs|
    ensures StartsAt(pre + Concat(objs) + post, |pre| + |Concat(objs[..j])|, Unlines(objs[j].lines))
  {
    ObjectAt(objs, j);
    StartsAtShift(pre, Concat(objs), post, |Concat(objs[..j])|, Unlines(objs[j].lines));
  }

  /** Object j of the finished file is where the offset recorded for its number says. */
  lemma {:induction false} FileObjectPlaced(pages: seq<seq<string>>, mediaBox: string, fonts: seq<Font>, props: Properties, created: string,
                         j: nat)
    requires j < LastObject(|pages|, |fonts|)
    ensures |FileObjects(pages, mediaBox, fonts, props, created)| == LastObject(|pages|, |fonts|)
    ensures Placed(PdfFile(pages, mediaBox, fonts, props, created), BodyOffsets(pages, mediaBox, fonts, props, created),
                   FileObjects(pages, mediaBox, fonts, props, created)[j].number,
                   FileObjects(pages, mediaBox, fonts, props, created)[j].lines)
  {
    var objs := FileObjects(pages, mediaBox, fonts, props, created);
    var last := LastObject(|pages|, |fonts|);
    FileOtherObjects(pages, mediaBox, fonts, props, created);
    BodyOffsetsKeys(pages, mediaBox, fonts, props, created);
    var post := Unlines(XrefSection(BodyOffsets(pages, mediaBox, fonts, props, created), last)
                        + Trailer(last, |BodyText(pages, mediaBox, fonts, props, created)|));
    assert PdfFile(pages, mediaBox, fonts, props, created) == FileHeader + Concat(objs) + post;
    FileNumbers(pages, mediaBox, fonts, props, created);
    WrittenPlaced(objs, FileHeader, post, j);
  }

  /** Page i's dictionary is object 3 + 2i and its content stream 4 + 2i, each at its recorded offset. */
  lemma {:induction false} PagesPlaced(pages: seq<seq<string>>, mediaBox: string, fonts: seq<Font>, props: Properties, created: string,
                    i: nat)
    requires i < |pages|
    ensures Placed(PdfFile(pages, mediaBox, fonts, props, created), BodyOffsets(pages, mediaBox, fonts, props, created),
                   3 + 2 * i, PageDictionary(3 + 2 * i, 4 + 2 * i))
    ensures Placed(PdfFile(pages, mediaBox, fonts, props, created), BodyOffsets(pages, mediaBox, fonts, props, created),
                   4 + 2 * i, ContentStream(4 + 2 * i, pages[i]))
  {
    FilePageObjects(pages, mediaBox, fonts, props, created, i);
    FileObjectPlaced(pages, mediaBox, fonts, props, created, 2 * i);
    FileObjectPlaced(pages, mediaBox, fonts, props, created, 2 * i + 1);
  }

  /**
   * The i-th reference of the page tree's `/Kids` list names page i's
   * dictionary: the object at that number's recorded offset is page i's page
   * dictionary, and its `/Contents` is the next object, page i's content stream.
   */
  lemma {:induction false} KidsLeadToPages(pages: seq<seq<string>>, mediaBox: string, fonts: seq<Font>, props: Properties,
                        created: string, i: nat)
    requires i < |pages|
    ensures var n, objs := PageObjectNumbers(|pages|)[i], FileObjects(pages, mediaBox, fonts, props, created);
      && |objs| == LastObject(|pages|, |fonts|)
      && objs[2 * i] == Object(n, PageDictionary(n, n + 1))
      && objs[2 * i + 1] == Object(n + 1, ContentStream(n + 1, pages[i]))
      && Placed(PdfFile(pages, mediaBox, fonts, props, created), BodyOffsets(pages, mediaBox, fonts, props, created),
                n, PageDictionary(n, n + 1))
  {
    assert PageObjectNumbers(|pages|)[i] == 3 + 2 * i;
    FilePageObjects(pages, mediaBox, fonts, props, created, i);
    PagesPlaced(pages, mediaBox, fonts, props, created, i);
  }

  /** Font i is object FirstFont + i, the number the resource dictionary gives it, at its recorded offset. */
  lemma {:induction false} FontsPlaced(pages: seq<seq<string>>, mediaBox: string, fonts: seq<Font>, props: Properties, created: string,
                    i: nat)
    requires i < |fonts|
    ensures Numbered(fonts, FirstFont(|pages|))[i].number == FirstFont(|pages|) + i
    ensures Placed(PdfFile(pages, mediaBox, fonts, props, created), BodyOffsets(pages, mediaBox, fonts, props, created),
                   FirstFont(|pages|) + i, FontObject(FirstFont(|pages|) + i, fonts[i].face.name))
  {
    FileFontObject(pages, mediaBox, fonts, props, created, i);
    FileObjectPlaced(pages, mediaBox, fonts, props, created, 2 * |pages| + 1 + i);
  }

  /**
   * The page tree root is object 1 and the resource dictionary object 2, as
   * every page dictionary refers to them; the information dictionary and the
   * catalog are the last two objects, as the trailer refers to them. Each is
   * at its recorded offset.
   */
  lemma {:induction false} FixedObjectsPlaced(pages: seq<seq<string>>, mediaBox: string, fonts: seq<Font>, props: Properties, created: string)
    ensures var file, offsets := PdfFile(pages, mediaBox, fonts, props, created), BodyOffsets(pages, mediaBox, fonts, props, created);
      var last := LastObject(|pages|, |fonts|);
      && Placed(file, offsets, 1, PagesRoot(|pages|, mediaBox))
      && Placed(file, offsets, 2, ResourceDictionary(Numbered(fonts, FirstFont(|pages|))))
      && Placed(file, offsets, last - 1, InfoObject(last - 1, props, created))
      && Placed(file, offsets, last, CatalogObject(last))
  {
    var P, F := |pages|, |fonts|;
    FileOtherObjects(pages, mediaBox, fonts, props, created);
    FileObjectPlaced(pages, mediaBox, fonts, props, created, 2 * P);
    FileObjectPlaced(pages, mediaBox, fonts, props, created, 2 * P + 1 + F);
    FileObjectPlaced(pages, mediaBox, fonts, props, created, LastObject(P, F) - 2);
    FileObjectPlaced(pages, mediaBox, fonts, props, created, LastObject(P, F) - 1);
  }

  /**
   * Offsets do not grow with the object number: the page tree root, object 1,
   * is written after the first page's dictionary, object 3, so its offset is
   * the larger one. The cross-reference table lists them by number all the same.
   */
  lemma {:induction false} PageTreeAfterFirstPage(pages: seq<seq<string>>, mediaBox: string, fonts: seq<Font>, props: Properties,
                               created: string)
    requires |pages| >= 1
    ensures var offsets := BodyOffsets(pages, mediaBox, fonts, props, created);
      && 1 in offsets && 3 in offsets && offsets[3] == |FileHeader| && offsets[3] < offsets[1]
  {
    var objs := FileObjects(pages, mediaBox, fonts, props, created);
    var P := |pages|;
    FileNumbers(pages, mediaBox, fonts, props, created);
    FileOtherObjects(pages, mediaBox, fonts, props, created);
    FilePageObjects(pages, mediaBox, fonts, props, created, 0);
    assert UniqueFrom(objs, 0) && UniqueFrom(objs, 2 * P);
    OffsetsAt(map[], |FileHeader|, objs, 0);
    OffsetsAt(map[], |FileHeader|, objs, 2 * P);
    var before := objs[..2 * P];
    assert before[0] == objs[0] && objs[0].lines != [];
    assert |Concat(before)| >= |Unlines(before[0].lines)| > 0;
  }

  // ---------------------------------------------------------------------------
  // The file as a reader sees it
  // ---------------------------------------------------------------------------

  lemma {:induction false} FileObjectDeclares(pages: seq<seq<string>>, mediaBox: string, fonts: seq<Font>, props: Properties, created: string,
                           j: nat)
    requires j < LastObject(|pages|, |fonts|)
    ensures |FileObjects(pages, mediaBox, fonts, props, created)| == LastObject(|pages|, |fonts|)
    ensures Declares(FileObjects(pages, mediaBox, fonts, props, created)[j])
  {
    var P, F := |pages|, |fonts|;
    if j < 2 * P {
      FilePageObject(pages, mediaBox, fonts, props, created, j);
    } else if 2 * P < j <= 2 * P + F {
      FileFontObject(pages, mediaBox, fonts, props, created, j - 2 * P - 1);
    } else {
      FileClosingDeclares(pages, mediaBox, fonts, props, created, j);
    }
  }

  /** Position j < 2P of the file holds a page object: number j + 3, opening with its declaration. */
  lemma {:induction false} FilePageObject(pages: seq<seq<string>>, mediaBox: string, fonts: seq<Font>, props: Properties, created: string,
                       j: nat)
    requires j < 2 * |pages|
    ensures |FileObjects(pages, mediaBox, fonts, props, created)| == LastObject(|pages|, |fonts|)
    ensures FileObjects(pages, mediaBox, fonts, props, created)[j].number == j + 3
    ensures Declares(FileObjects(pages, mediaBox, fonts, props, created)[j])
  {
    var P, F := |pages|, |fonts|;
    var ps, r, fs := PageObjects(pages, P), Object(1, PagesRoot(P, mediaBox)), FontObjects(fonts, FirstFont(P), F);
    PageObjectsNumbers(pages, P, j);
    FontObjectsLength(fonts, FirstFont(P), F);
    IndexParts(ps, r, fs, LastObjects(P, fonts, props, created), j);
  }

  /** The page tree root and the three closing objects start with their declarations. */
  lemma {:induction false} FileClosingDeclares(pages: seq<seq<string>>, mediaBox: string, fonts: seq<Font>, props: Properties, created: string,
                            j: nat)
    requires j == 2 * |pages| || 2 * |pages| + |fonts| < j < LastObject(|pages|, |fonts|)
    ensures |FileObjects(pages, mediaBox, fonts, props, created)| == LastObject(|pages|, |fonts|)
    ensures Declares(FileObjects(pages, mediaBox, fonts, props, created)[j])
  {
    var P, F := |pages|, |fonts|;
    FileOtherObjects(pages, mediaBox, fonts, props, created);
    var last := LastObject(P, F);
    assert ResourceDictionary(Numbered(fonts, FirstFont(P)))[0] == Header(2);
    assert InfoObject(last - 1, props, created)[0] == Header(last - 1);
    assert CatalogObject(last)[0] == Header(last);
  }

  lemma {:induction false} DeclarationAt(buf: string, p: nat, n: nat, lines: seq<string>)
    requires StartsAt(buf, p, Unlines(lines)) && |lines| > 0 && lines[0] == Header(n)
    ensures StartsAt(buf, p, Header(n) + "\n")
  {
    UnlinesHead(lines);
    StartsAtFirst(buf, p, Header(n) + "\n", Unlines(lines[1..]));
  }

  /** The offset recorded for object k, the one its cross-reference entry gives, is where `k 0 obj` is. */
  lemma {:induction false} OffsetPointsAtDeclaration(pages: seq<seq<string>>, mediaBox: string, fonts: seq<Font>, props: Properties,
                                  created: string, k: nat)
    requires 1 <= k <= LastObject(|pages|, |fonts|)
    ensures k in BodyOffsets(pages, mediaBox, fonts, props, created)
    ensures StartsAt(PdfFile(pages, mediaBox, fonts, props, created), BodyOffsets(pages, mediaBox, fonts, props, created)[k],
                     Header(k) + "\n")
  {
    var j := PositionOf(|pages|, |fonts|, k);
    FileObjectNumber(pages, mediaBox, fonts, props, created, j);
    FileObjectDeclares(pages, mediaBox, fonts, props, created, j);
    FileObjectPlaced(pages, mediaBox, fonts, props, created, j);
    var o := FileObjects(pages, mediaBox, fonts, props, created)[j];
    DeclarationAt(PdfFile(pages, mediaBox, fonts, props, created), BodyOffsets(pages, mediaBox, fonts, props, created)[k],
                  k, o.lines);
  }

  /** The file is the body, then the cross-reference table, then the trailer. */
  lemma {:induction false} PdfFileParts(pages: seq<seq<string>>, mediaBox: string, fonts: seq<Font>, props: Properties, created: string)
    ensures AllRecorded(BodyOffsets(pages, mediaBox, fonts, props, created), LastObject(|pages|, |fonts|))
    ensures var body := BodyText(pages, mediaBox, fonts, props, created);
      var last := LastObject(|pages|, |fonts|);
      PdfFile(pages, mediaBox, fonts, props, created)
      == body + Unlines(XrefSection(BodyOffsets(pages, mediaBox, fonts, props, created), last)) + Unlines(Trailer(last, |body|))
  {
    var last := LastObject(|pages|, |fonts|);
    BodyOffsetsKeys(pages, mediaBox, fonts, props, created);
    UnlinesAppend(XrefSection(BodyOffsets(pages, mediaBox, fonts, props, created), last),
                  Trailer(last, |BodyText(pages, mediaBox, fonts, props, created)|));
  }

  /** The file begins with the `%PDF-1.3` header line. */
  lemma {:induction false} FileStartsWithHeader(pages: seq<seq<string>>, mediaBox: string, fonts: seq<Font>, props: Properties, created: string)
    ensures StartsAt(PdfFile(pages, mediaBox, fonts, props, created), 0, "%PDF-1.3\n")
  {
    var body := BodyText(pages, mediaBox, fonts, props, created);
    var pdf := PdfFile(pages, mediaBox, fonts, props, created);
    StartsAtHead(FileHeader, Concat(FileObjects(pages, mediaBox, fonts, props, created)));
    assert body <= pdf;
    StartsAtPrefix(body, pdf, 0, FileHeader);
    assert FileHeader == "%PDF-1.3\n";
  }

  /**
   * The cross-reference table starts right after the body, and holds one
   * entry per object 1..N in object order, each giving that object's
   * recorded offset, after the free entry of object 0.
   */
  lemma {:induction false} CrossReferenceTable(pages: seq<seq<string>>, mediaBox: string, fonts: seq<Font>, props: Properties, created: string)
    ensures var offsets := BodyOffsets(pages, mediaBox, fonts, props, created);
      var last := LastObject(|pages|, |fonts|);
      && AllRecorded(offsets, last)
      && StartsAt(PdfFile(pages, mediaBox, fonts, props, created), |BodyText(pages, mediaBox, fonts, props, created)|,
                  Unlines(XrefSection(offsets, last)))
      && |XrefSection(offsets, last)| == last + 3
      && XrefSection(offsets, last)[2] == FreeEntry
      && (forall k :: 1 <= k <= last ==> XrefSection(offsets, last)[k + 2] == XrefEntry(offsets[k]))
  {
    var offsets := BodyOffsets(pages, mediaBox, fonts, props, created);
    var body := BodyText(pages, mediaBox, fonts, props, created);
    var last := LastObject(|pages|, |fonts|);
    PdfFileParts(pages, mediaBox, fonts, props, created);
    StartsAtAppended(body, Unlines(XrefSection(offsets, last)), Unlines(Trailer(last, |body|)));
    XrefEntriesLength(offsets, last);
    forall k | 1 <= k <= last
      ensures XrefSection(offsets, last)[k + 2] == XrefEntry(offsets[k])
    {
      XrefEntriesAt(offsets, last, k - 1);
    }
  }

  /**
   * The file ends with `startxref`, the position of the cross-reference
   * table, and `%%EOF`; the position reads back as the number it stands for.
   */
  lemma {:induction false} FileEndsWithStartxref(pages: seq<seq<string>>, mediaBox: string, fonts: seq<Font>, props: Properties, created: string)
    ensures var start := |BodyText(pages, mediaBox, fonts, props, created)|;
      && EndsWith(PdfFile(pages, mediaBox, fonts, props, created), "startxref\n" + NatToString(start) + "\n%%EOF\n")
      && DecimalValue(NatToString(start)) == start
  {
    var body := BodyText(pages, mediaBox, fonts, props, created);
    var last := LastObject(|pages|, |fonts|);
    PdfFileParts(pages, mediaBox, fonts, props, created);
    TrailerEnds(last, |body|);
    EndsWithExtended(body + Unlines(XrefSection(BodyOffsets(pages, mediaBox, fonts, props, created), last)),
                     Unlines(Trailer(last, |body|)), "startxref\n" + NatToString(|body|) + "\n%%EOF\n");
    NatToStringRoundTrip(|body|);
  }
}
