/**
 The map from subset pages to document pages. It is not stored at submission: it is read again
 from the manifest when the result arrives, so an edit in between can shift it.
 */
module PageMap {
  import opened Prelude
  import opened Normalize

  datatype OcrRoute = TEXTRACT_TABLES | TEXTRACT_TEXT | NATIVE_TEXT | SKIP

  predicate Routed(route: OcrRoute) {
    route == TEXTRACT_TABLES || route == TEXTRACT_TEXT
  }

  /** The routed pages among the first `n`, ascending; `manifest[i]` is the route of page `i + 1`. */
  function RoutedFirst(manifest: seq<OcrRoute>, n: nat): seq<int>
    requires n <= |manifest|
  {
    if n == 0 then []
    else if Routed(manifest[n - 1]) then RoutedFirst(manifest, n - 1) + [n]
    else RoutedFirst(manifest, n - 1)
  }

  function RoutedPages(manifest: seq<OcrRoute>): seq<int> {
    RoutedFirst(manifest, |manifest|)
  }

  /** They are the routed pages, each once, in ascending order. */
  lemma {:induction false} RoutedPagesAre(manifest: seq<OcrRoute>, n: nat)
    requires n <= |manifest|
    ensures forall p ::
      (p in RoutedFirst(manifest, n)
       <==> 1 <= p <= n && (manifest[p - 1] == TEXTRACT_TABLES || manifest[p - 1] == TEXTRACT_TEXT))
    ensures forall i, j :: 0 <= i < j < |RoutedFirst(manifest, n)| ==>
      RoutedFirst(manifest, n)[i] < RoutedFirst(manifest, n)[j]
  {
    if n > 0 {
      RoutedPagesAre(manifest, n - 1);
      var before := RoutedFirst(manifest, n - 1);
      assert forall i :: 0 <= i < |before| ==> before[i] in before;
    }
  }

  /** Every page of the submitted subset is mapped back to the page it was cut from. */
  ghost predicate MapsBack(submitted: seq<int>, readBack: seq<int>) {
    forall n :: 1 <= n <= |submitted| ==> GlobalPage(n, readBack) == Some(submitted[n - 1])
  }

  /** The pages are 1, 2, 3, ... */
  ghost predicate FromTheFirst(pages: seq<int>) {
    forall i :: 0 <= i < |pages| ==> pages[i] == i + 1
  }

  /**
   The map read at completion is right exactly when the submitted pages are a prefix of it, or,
   when it is empty and so passes pages through, are the first pages of the document.
   */
  lemma MapsBackIffPrefix(submitted: seq<int>, readBack: seq<int>)
    ensures MapsBack(submitted, readBack) <==>
      if readBack == [] then FromTheFirst(submitted) else submitted <= readBack
  {
    if MapsBack(submitted, readBack) {
      forall i | 0 <= i < |submitted|
        ensures if readBack == [] then submitted[i] == i + 1 else i < |readBack| && submitted[i] == readBack[i]
      {
        assert GlobalPage(i + 1, readBack) == Some(submitted[i + 1 - 1]);
      }
      if readBack != [] {
        assert |submitted| > |readBack| ==> GlobalPage(|submitted|, readBack) == None;
        assert submitted == readBack[..|submitted|];
      }
    }
  }

  /** The element has the block's text and is on the routed page the block was read from. */
  ghost predicate OnItsPage(manifest: seq<OcrRoute>, b: Block, e: Element) {
    && 1 <= b.page <= |RoutedPages(manifest)|
    && var page := RoutedPages(manifest)[b.page - 1];
    && e.pageNumber == page && e.path.page == page && e.text == b.text
    && 1 <= page <= |manifest| && Routed(manifest[page - 1])
  }

  /** Block `j`'s element is there and on its page. */
  ghost predicate LandsOnItsPage(manifest: seq<OcrRoute>, blocks: seq<Block>, t: Tables, es: seq<Element>, j: nat)
    requires j < |blocks|
  {
    var k := PlaceOf(blocks, RoutedPages(manifest), t, j);
    k < |es| && OnItsPage(manifest, blocks[j], es[k])
  }

  /** Element `i` is the element of some block. */
  ghost predicate ComesFromABlock(blocks: seq<Block>, routed: seq<int>, i: nat) {
    exists j :: 0 <= j < |blocks| && IsKept(blocks[j]) && PlaceOf(blocks, routed, ScanTables(blocks, routed), j) == i
  }

  predicate IsKept(b: Block) {
    TypeMap(b.blockType).Some?
  }

  /** Every page that is read lies in the subset submitted. */
  ghost predicate PagesLieIn(blocks: seq<Block>, routed: seq<int>) {
    forall b :: b in blocks && (IsKept(b) || b.blockType == TABLE) ==> 1 <= b.page <= |routed|
  }

  lemma {:induction false} AllMapped(blocks: seq<Block>, routed: seq<int>, tablePass: bool)
    requires PagesLieIn(blocks, routed)
    ensures FirstUnmapped(blocks, routed, tablePass) == None
    decreases |blocks|
  {
    if blocks != [] {
      assert forall b :: b in blocks[..|blocks| - 1] ==> b in blocks;
      AllMapped(blocks[..|blocks| - 1], routed, tablePass);
      assert blocks[|blocks| - 1] in blocks;
    }
  }

  lemma RoutedAt(manifest: seq<OcrRoute>, i: nat)
    requires i < |RoutedPages(manifest)|
    ensures 1 <= RoutedPages(manifest)[i] <= |manifest| && Routed(manifest[RoutedPages(manifest)[i] - 1])
  {
    RoutedPagesAre(manifest, |manifest|);
    assert RoutedPages(manifest)[i] in RoutedPages(manifest);
  }

  lemma ElementOfKept(blocks: seq<Block>, routed: seq<int>, t: Tables, j: nat)
    requires j < |blocks| && IsKept(blocks[j]) && 1 <= blocks[j].page <= |routed|
    ensures var k, es := PlaceOf(blocks, routed, t, j), Elements(blocks, routed, t);
      && k < |es| && es[k].pageNumber == routed[blocks[j].page - 1]
      && es[k].path.page == routed[blocks[j].page - 1] && es[k].text == blocks[j].text
  {
    ElementOfBlock(blocks, routed, t, j);
  }

  lemma KeptLands(manifest: seq<OcrRoute>, blocks: seq<Block>, t: Tables, j: nat)
    requires PagesLieIn(blocks, RoutedPages(manifest)) && j < |blocks| && IsKept(blocks[j])
    ensures LandsOnItsPage(manifest, blocks, t, Elements(blocks, RoutedPages(manifest), t), j)
  {
    assert blocks[j] in blocks;
    RoutedAt(manifest, blocks[j].page - 1);
    ElementOfKept(blocks, RoutedPages(manifest), t, j);
  }

  /**
   With an unchanged manifest, whatever Textract found on the pages it was sent is normalised, every
   element is on the routed page its block was read from, and every element comes from a block.
   */
  lemma UnchangedManifestMapsBack(manifest: seq<OcrRoute>, blocks: seq<Block>)
    requires PagesLieIn(blocks, RoutedPages(manifest))
    ensures Parsed(blocks, RoutedPages(manifest)).Success?
    ensures var es := Parsed(blocks, RoutedPages(manifest)).value;
      && (forall j :: 0 <= j < |blocks| && IsKept(blocks[j]) ==>
        LandsOnItsPage(manifest, blocks, ScanTables(blocks, RoutedPages(manifest)), es, j))
      && (forall i :: 0 <= i < |es| ==> ComesFromABlock(blocks, RoutedPages(manifest), i))
  {
    var routed := RoutedPages(manifest);
    var t := ScanTables(blocks, routed);
    AllMapped(blocks, routed, true);
    AllMapped(blocks, routed, false);
    forall j | 0 <= j < |blocks| && IsKept(blocks[j])
      ensures LandsOnItsPage(manifest, blocks, t, Elements(blocks, routed, t), j)
    {
      KeptLands(manifest, blocks, t, j);
    }
    forall i: nat | i < |Elements(blocks, routed, t)|
      ensures ComesFromABlock(blocks, routed, i)
    {
      var j := BlockOfElement(blocks, routed, t, i);
    }
  }

  lemma {:induction false} SameRoutedFirst(a: seq<OcrRoute>, b: seq<OcrRoute>, n: nat)
    requires n <= |a| && n <= |b| && forall i :: 0 <= i < n ==> Routed(a[i]) == Routed(b[i])
    ensures RoutedFirst(a, n) == RoutedFirst(b, n)
  {
    if n > 0 {
      SameRoutedFirst(a, b, n - 1);
    }
  }

  /** Routing one more page inserts it into the list at its place. */
  lemma {:induction false} ForceInserts(manifest: seq<OcrRoute>, p: nat, route: OcrRoute, n: nat)
    requires 1 <= p <= n <= |manifest| && !Routed(manifest[p - 1]) && Routed(route)
    ensures var pages, k := RoutedFirst(manifest, n), |RoutedFirst(manifest, p - 1)|;
      k <= |pages| && RoutedFirst(manifest[p - 1 := route], n) == pages[..k] + [p] + pages[k..]
  {
    var forced := manifest[p - 1 := route];
    if n == p {
      SameRoutedFirst(manifest, forced, p - 1);
    } else {
      ForceInserts(manifest, p, route, n - 1);
      assert forced[n - 1] == manifest[n - 1];
      InsertThenAppend(RoutedFirst(manifest, n - 1), |RoutedFirst(manifest, p - 1)|, p, n);
    }
  }

  lemma InsertThenAppend(pages: seq<int>, k: nat, p: int, n: int)
    requires k <= |pages|
    ensures (pages[..k] + [p] + pages[k..]) + [n] == (pages + [n])[..k] + [p] + (pages + [n])[k..]
  {
  }

  /** Past page `m` nothing is added exactly when nothing there is routed. */
  lemma {:induction false} NoneRoutedAfter(manifest: seq<OcrRoute>, m: nat, n: nat)
    requires m <= n <= |manifest|
    ensures |RoutedFirst(manifest, m)| <= |RoutedFirst(manifest, n)|
    ensures |RoutedFirst(manifest, m)| == |RoutedFirst(manifest, n)| <==> forall i :: m <= i < n ==> !Routed(manifest[i])
  {
    if m < n {
      NoneRoutedAfter(manifest, m, n - 1);
    }
  }

  /** A list with `p` put in at `k` continues the list exactly when `k` is its end. */
  lemma InsertedIsPrefixIff(pages: seq<int>, k: nat, p: int)
    requires k <= |pages| && p !in pages
    ensures pages <= pages[..k] + [p] + pages[k..] <==> k == |pages|
  {
    var after := pages[..k] + [p] + pages[k..];
    if k < |pages| {
      assert after[k] == p != pages[k];
    } else {
      assert after[..|pages|] == pages;
    }
  }

  /** Un-routing a routed page makes the list one shorter. */
  lemma {:induction false} UnroutingRemoves(manifest: seq<OcrRoute>, p: nat, route: OcrRoute, n: nat)
    requires 1 <= p <= n <= |manifest| && Routed(manifest[p - 1]) && !Routed(route)
    ensures |RoutedFirst(manifest[p - 1 := route], n)| == |RoutedFirst(manifest, n)| - 1
  {
    var forced := manifest[p - 1 := route];
    if n == p {
      SameRoutedFirst(manifest, forced, p - 1);
    } else {
      UnroutingRemoves(manifest, p, route, n - 1);
      assert forced[n - 1] == manifest[n - 1];
    }
  }

  /** The map survives un-routing a routed page only when that page is all there was, and the first. */
  lemma UnroutingKeepsMapIff(manifest: seq<OcrRoute>, p: nat, route: OcrRoute)
    requires 1 <= p <= |manifest| && Routed(manifest[p - 1]) && !Routed(route)
    ensures MapsBack(RoutedPages(manifest), RoutedPages(manifest[p - 1 := route])) <==> RoutedPages(manifest) == [1]
  {
    var pages, forced := RoutedPages(manifest), RoutedPages(manifest[p - 1 := route]);
    UnroutingRemoves(manifest, p, route, |manifest|);
    MapsBackIffPrefix(pages, forced);
    RoutedPagesAre(manifest, |manifest|);
    assert p in pages;
    if forced == [] {
      assert pages == [pages[0]];
    }
  }

  /**
   A page forced to any route while a job is in flight leaves the map right exactly when: it is to
   be read, and was already or comes after every routed page; or it is not to be read, and was not
   or was the only page routed and the first.
   */
  lemma ForceReadKeepsMapIff(manifest: seq<OcrRoute>, p: nat, route: OcrRoute)
    requires 1 <= p <= |manifest|
    ensures MapsBack(RoutedPages(manifest), RoutedPages(manifest[p - 1 := route])) <==>
      if Routed(route) then Routed(manifest[p - 1]) || forall i :: p <= i < |manifest| ==> !Routed(manifest[i])
      else !Routed(manifest[p - 1]) || RoutedPages(manifest) == [1]
  {
    var forced := manifest[p - 1 := route];
    if Routed(manifest[p - 1]) == Routed(route) {
      SameRoutedFirst(manifest, forced, |manifest|);
      MapsBackIffPrefix(RoutedPages(manifest), RoutedPages(manifest));
    } else if !Routed(route) {
      UnroutingKeepsMapIff(manifest, p, route);
    } else {
      ForceInserts(manifest, p, route, |manifest|);
      MapsBackIffPrefix(RoutedPages(manifest), RoutedPages(forced));
      RoutedPagesAre(manifest, |manifest|);
      InsertedIsPrefixIff(RoutedPages(manifest), |RoutedFirst(manifest, p - 1)|, p);
      NoneRoutedAfter(manifest, p - 1, |manifest|);
    }
  }

  /** Skipping page 1 of two routed pages: what was read on page 1 comes back as page 2. */
  lemma ForcedSkipMovesPages()
    ensures var manifest := [TEXTRACT_TABLES, TEXTRACT_TABLES];
      && RoutedPages(manifest) == [1, 2]
      && !MapsBack(RoutedPages(manifest), RoutedPages(manifest[0 := SKIP]))
      && GlobalPage(1, RoutedPages(manifest[0 := SKIP])) == Some(2)
  {
    var manifest := [TEXTRACT_TABLES, TEXTRACT_TABLES];
    ForceReadKeepsMapIff(manifest, 1, SKIP);
    assert RoutedFirst(manifest, 1) == [1];
    var forced := manifest[0 := SKIP];
    assert RoutedFirst(forced, 1) == [];
  }
}
