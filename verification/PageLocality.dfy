/**
 Normalisation is page-local: the identities on a page are a function of that page's blocks,
 so a page keeps them when a different subset of pages is submitted alongside it.
 */
module PageLocality {
  import opened Prelude
  import opened BlockIds
  import opened Normalize
  import opened ElementIdentity

  /** The blocks of global page `page`, as if that page had been submitted alone. */
  function OnPage(blocks: seq<Block>, submitted: seq<int>, page: int): seq<Block>
    decreases |blocks|
  {
    if blocks == [] then [] else
    var b := blocks[|blocks| - 1];
    var before := OnPage(blocks[..|blocks| - 1], submitted, page);
    if PageOf(b, submitted) == page then before + [b.(page := page)] else before
  }

  /** The elements of one page without their document-wide reading order. */
  function IdentitiesOn(es: seq<Element>, page: int): seq<Element>
    decreases |es|
  {
    if es == [] then [] else
    var e := es[|es| - 1];
    var before := IdentitiesOn(es[..|es| - 1], page);
    if e.pageNumber == page then before + [e.(readingOrder := 0)] else before
  }

  /** A table's children lie on the table's own page. */
  ghost predicate ChildrenOnOwnPage(blocks: seq<Block>, submitted: seq<int>) {
    forall t, b :: t in blocks && b in blocks && t.blockType == TABLE && b.id in t.children ==>
      PageOf(t, submitted) == PageOf(b, submitted)
  }

  /** Every table that lists `id` is on `page`. */
  ghost predicate ListedOnlyOn(blocks: seq<Block>, submitted: seq<int>, id: BlockId, page: int) {
    forall t :: t in blocks && t.blockType == TABLE && id in t.children ==> PageOf(t, submitted) == page
  }

  /** Dropping the last block drops the last block of its page's selection. */
  lemma SnocOnPage(blocks: seq<Block>, submitted: seq<int>, page: int)
    requires blocks != []
    ensures var before := OnPage(blocks[..|blocks| - 1], submitted, page);
      var here := OnPage(blocks, submitted, page);
      if PageOf(blocks[|blocks| - 1], submitted) == page
      then here != [] && here[..|here| - 1] == before && here[|here| - 1] == blocks[|blocks| - 1].(page := page)
      else here == before
  {
  }

  lemma {:induction false} PagesOnPage(blocks: seq<Block>, submitted: seq<int>, page: int)
    requires UniqueTableIds(blocks)
    ensures Pages(OnPage(blocks, submitted, page), []) ==
      map k | k in TablesOnPage(Pages(blocks, submitted), page) :: page
    decreases |blocks|
  {
    if blocks != [] {
      var n := |blocks| - 1;
      PagesOnPage(blocks[..n], submitted, page);
      SnocOnPage(blocks, submitted, page);
      if blocks[n].blockType == TABLE && blocks[n].id in Pages(blocks[..n], submitted) {
        KeyIsATable(blocks[..n], submitted, blocks[n].id);
      }
    }
  }

  lemma TablesHere(blocks: seq<Block>, submitted: seq<int>, page: int)
    requires UniqueTableIds(blocks)
    ensures TablesOnPage(Pages(OnPage(blocks, submitted, page), []), page) ==
      TablesOnPage(Pages(blocks, submitted), page)
  {
    PagesOnPage(blocks, submitted, page);
  }

  lemma {:induction false} NamesOnPage(blocks: seq<Block>, submitted: seq<int>, page: int, id: BlockId)
    requires UniqueTableIds(blocks) && id in TablesOnPage(Pages(blocks, submitted), page)
    ensures id in Names(blocks, submitted) && id in Names(OnPage(blocks, submitted, page), [])
    ensures Names(OnPage(blocks, submitted, page), [])[id] == Names(blocks, submitted)[id]
    decreases |blocks|
  {
    var n := |blocks| - 1;
    SnocOnPage(blocks, submitted, page);
    if blocks[n].blockType == TABLE && blocks[n].id == id {
      TablesHere(blocks[..n], submitted, page);
    } else {
      NamesOnPage(blocks[..n], submitted, page, id);
    }
  }

  lemma {:induction false} AdoptedAt(
      p: map<BlockId, BlockId>, q: map<BlockId, BlockId>, children: seq<BlockId>, table: BlockId, id: BlockId)
    requires SameAt(p, q, id)
    ensures SameAt(Adopted(p, children, table), Adopted(q, children, table), id)
    ensures if id in children then id in Adopted(p, children, table) && Adopted(p, children, table)[id] == table
            else SameAt(Adopted(p, children, table), p, id)
    decreases |children|
  {
    if children != [] {
      AdoptedAt(p, q, children[..|children| - 1], table, id);
    }
  }

  ghost predicate SameAt(p: map<BlockId, BlockId>, q: map<BlockId, BlockId>, id: BlockId) {
    (id in p <==> id in q) && (id in p ==> p[id] == q[id])
  }

  /** A block's parent, if it has one, is a table of its own page, and the selection agrees on it. */
  lemma {:induction false} ParentsOnPage(blocks: seq<Block>, submitted: seq<int>, page: int, id: BlockId)
    requires UniqueTableIds(blocks) && ListedOnlyOn(blocks, submitted, id, page)
    ensures SameAt(Parents(blocks), Parents(OnPage(blocks, submitted, page)), id)
    ensures id in Parents(blocks) ==> Parents(blocks)[id] in TablesOnPage(Pages(blocks, submitted), page)
    decreases |blocks|
  {
    if blocks != [] {
      var n := |blocks| - 1;
      var b := blocks[n];
      assert forall t :: t in blocks[..n] ==> t in blocks;
      ParentsOnPage(blocks[..n], submitted, page, id);
      SnocOnPage(blocks, submitted, page);
      if b.blockType == TABLE {
        AdoptedAt(Parents(blocks[..n]), Parents(OnPage(blocks[..n], submitted, page)), b.children, b.id, id);
        if b.id in Pages(blocks[..n], submitted) {
          KeyIsATable(blocks[..n], submitted, b.id);
        }
      }
    }
  }

  lemma {:induction false} CountOnPage(blocks: seq<Block>, submitted: seq<int>, page: int, elementType: ElementType)
    ensures Count(OnPage(blocks, submitted, page), [], page, elementType)
      == Count(blocks, submitted, page, elementType)
    decreases |blocks|
  {
    if blocks != [] {
      CountOnPage(blocks[..|blocks| - 1], submitted, page, elementType);
      SnocOnPage(blocks, submitted, page);
    }
  }

  /** The table facts an element of block `b` can depend on are the same in both scans. */
  ghost predicate SameTables(b: Block, t: Tables, u: Tables) {
    && ParentOf(t, b.id) == ParentOf(u, b.id)
    && (ParentOf(t, b.id).Some? ==>
      var parent := ParentOf(t, b.id).value;
      && TableRank(t.pages, parent) == TableRank(u.pages, parent)
      && parent in t.names && parent in u.names && t.names[parent] == u.names[parent])
  }

  lemma ScansAgreeOn(b: Block, blocks: seq<Block>, submitted: seq<int>, page: int)
    requires UniqueTableIds(blocks) && ListedOnlyOn(blocks, submitted, b.id, page)
    ensures SameTables(b, ScanTables(blocks, submitted), ScanTables(OnPage(blocks, submitted, page), []))
  {
    ParentsOnPage(blocks, submitted, page, b.id);
    PagesOnPage(blocks, submitted, page);
    if b.id in Parents(blocks) {
      NamesOnPage(blocks, submitted, page, Parents(blocks)[b.id]);
      TablesHere(blocks, submitted, page);
    }
  }

  lemma SnocIdentities(es: seq<Element>, e: Element, page: int)
    ensures IdentitiesOn(es + [e], page) ==
      IdentitiesOn(es, page) + if e.pageNumber == page then [e.(readingOrder := 0)] else []
  {
    assert (es + [e])[..|es|] == es;
  }

  lemma SameElement(b: Block, elementType: ElementType, page: int, index: nat, i: nat, j: nat, t: Tables, u: Tables)
    requires SameTables(b, t, u)
    ensures ElementFor(b, elementType, page, index, i, t).(readingOrder := 0)
      == ElementFor(b.(page := page), elementType, page, index, j, u).(readingOrder := 0)
  {
  }

  lemma {:induction false} ElementsOnPage(
      blocks: seq<Block>, submitted: seq<int>, page: int, t: Tables, u: Tables)
    requires forall b :: b in blocks && PageOf(b, submitted) == page ==> SameTables(b, t, u)
    ensures IdentitiesOn(Elements(blocks, submitted, t), page)
      == IdentitiesOn(Elements(OnPage(blocks, submitted, page), [], u), page)
    decreases |blocks|
  {
    if blocks != [] {
      var n := |blocks| - 1;
      assert forall c :: c in blocks[..n] ==> c in blocks;
      ElementsOnPage(blocks[..n], submitted, page, t, u);
      ElementsOnPageStep(blocks, submitted, page, t, u);
    }
  }

  lemma ElementsOnPageStep(blocks: seq<Block>, submitted: seq<int>, page: int, t: Tables, u: Tables)
    requires blocks != []
    requires PageOf(blocks[|blocks| - 1], submitted) == page ==> SameTables(blocks[|blocks| - 1], t, u)
    requires IdentitiesOn(Elements(blocks[..|blocks| - 1], submitted, t), page)
      == IdentitiesOn(Elements(OnPage(blocks[..|blocks| - 1], submitted, page), [], u), page)
    ensures IdentitiesOn(Elements(blocks, submitted, t), page)
      == IdentitiesOn(Elements(OnPage(blocks, submitted, page), [], u), page)
  {
    var n := |blocks| - 1;
    var b := blocks[n];
    SnocOnPage(blocks, submitted, page);
    var es := Elements(blocks[..n], submitted, t);
    var fs := Elements(OnPage(blocks[..n], submitted, page), [], u);
    match TypeMap(b.blockType)
    case None =>
    case Some(elementType) =>
      var p := PageOf(b, submitted);
      var index := Count(blocks[..n], submitted, p, elementType);
      var e := ElementFor(b, elementType, p, index, |es|, t);
      assert Elements(blocks, submitted, t) == es + [e];
      SnocIdentities(es, e, page);
      if p == page {
        CountOnPage(blocks[..n], submitted, page, elementType);
        var f := ElementFor(b.(page := page), elementType, page, index, |fs|, u);
        assert Elements(OnPage(blocks, submitted, page), [], u) == fs + [f];
        SnocIdentities(fs, f, page);
        SameElement(b, elementType, page, index, |es|, |fs|, t, u);
      }
  }

  /**
   The identities on `page` are those of the page's own blocks normalised alone: the other
   pages submitted with it, and its position among them, leave no trace.
   */
  lemma PageLocal(blocks: seq<Block>, submitted: seq<int>, page: int)
    requires UniqueTableIds(blocks) && ChildrenOnOwnPage(blocks, submitted)
    requires Parsed(blocks, submitted).Success?
    ensures Parsed(OnPage(blocks, submitted, page), []).Success?
    ensures IdentitiesOn(Parsed(blocks, submitted).value, page)
      == IdentitiesOn(Parsed(OnPage(blocks, submitted, page), []).value, page)
  {
    var t := ScanTables(blocks, submitted);
    var u := ScanTables(OnPage(blocks, submitted, page), []);
    NothingUnmapped(OnPage(blocks, submitted, page), true);
    NothingUnmapped(OnPage(blocks, submitted, page), false);
    forall b | b in blocks && PageOf(b, submitted) == page
      ensures SameTables(b, t, u)
    {
      ScansAgreeOn(b, blocks, submitted, page);
    }
    ElementsOnPage(blocks, submitted, page, t, u);
  }

  lemma {:induction false} NothingUnmapped(blocks: seq<Block>, tablePass: bool)
    ensures FirstUnmapped(blocks, [], tablePass) == None
    decreases |blocks|
  {
    if blocks != [] {
      NothingUnmapped(blocks[..|blocks| - 1], tablePass);
    }
  }

  /** Two differently routed subsets that contain the same page give it the same identities. */
  lemma SubsetsAgreeOnAPage(a: seq<Block>, pagesA: seq<int>, b: seq<Block>, pagesB: seq<int>, page: int)
    requires UniqueTableIds(a) && ChildrenOnOwnPage(a, pagesA) && Parsed(a, pagesA).Success?
    requires UniqueTableIds(b) && ChildrenOnOwnPage(b, pagesB) && Parsed(b, pagesB).Success?
    requires OnPage(a, pagesA, page) == OnPage(b, pagesB, page)
    ensures IdentitiesOn(Parsed(a, pagesA).value, page) == IdentitiesOn(Parsed(b, pagesB).value, page)
  {
    PageLocal(a, pagesA, page);
    PageLocal(b, pagesB, page);
  }
}
