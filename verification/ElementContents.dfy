/**
 What each element carries of the block it came from, and what its path and table id count, stated on
 the blocks alone.
 */
module ElementContents {
  import opened Prelude
  import opened BlockIds
  import opened Normalize
  import opened ElementIdentity
  import Digits

  /** Which blocks become elements, and of which type. */
  predicate Becomes(b: Block, elementType: ElementType) {
    match elementType
    case Word => b.blockType.WORD?
    case Line => b.blockType.LINE?
    case TableCell => b.blockType.CELL? || b.blockType.MERGED_CELL?
    case SelectionMark => b.blockType.SELECTION_ELEMENT?
  }

  predicate IsElement(b: Block) {
    Becomes(b, Word) || Becomes(b, Line) || Becomes(b, TableCell) || Becomes(b, SelectionMark)
  }

  /** Textract counts from 1 and leaves 0 where there is no index. */
  predicate IsIndexOf(index: Option<int>, counted: int) {
    if counted == 0 then index == None else index.Some? && index.value + 1 == counted
  }

  /** The element has the block's text, header flag, indices and confidence, and its place in the output. */
  predicate Carries(e: Element, b: Block, place: nat) {
    && e.text == b.text && e.columnHeader == b.columnHeader && e.readingOrder == place
    && IsIndexOf(e.rowIndex, b.rowIndex) && IsIndexOf(e.columnIndex, b.columnIndex)
    && (e.ocrConfidence.Some? <==> b.confidence.Some?)
    && (b.confidence.Some? ==> e.ocrConfidence.value * 100.0 == b.confidence.value)
    && Becomes(b, e.elementType)
  }

  /** The page an element is on: the block's own without a map, else the map's entry, from the end when negative. */
  predicate IsPageOf(page: int, local: int, submitted: seq<int>) {
    if submitted == [] then page == local
    else if local >= 1 then local <= |submitted| && page == submitted[local - 1]
    else local > -|submitted| && page == submitted[|submitted| + local - 1]
  }

  lemma PageIs(b: Block, submitted: seq<int>)
    ensures Mapped(b, submitted) <==> submitted == [] || -|submitted| < b.page <= |submitted|
    ensures Mapped(b, submitted) ==> IsPageOf(PageOf(b, submitted), b.page, submitted)
  {
  }

  lemma TypeIs(b: Block)
    ensures TypeMap(b.blockType).Some? <==> IsElement(b)
    ensures TypeMap(b.blockType).Some? ==> Becomes(b, TypeMap(b.blockType).value)
    ensures forall elementType :: Becomes(b, elementType) <==> TypeMap(b.blockType) == Some(elementType)
  {
  }

  lemma {:induction false} NothingUnmappedIff(blocks: seq<Block>, submitted: seq<int>, tablePass: bool)
    ensures FirstUnmapped(blocks, submitted, tablePass) == None <==>
      forall b :: b in blocks && ReadsPage(b, tablePass) ==> Mapped(b, submitted)
    decreases |blocks|
  {
    if blocks != [] {
      var before := blocks[..|blocks| - 1];
      NothingUnmappedIff(before, submitted, tablePass);
      assert forall b :: b in blocks <==> b in before || b == blocks[|blocks| - 1];
    }
  }

  /**
   Normalisation succeeds exactly when every block that is a table or becomes an element is on a page
   the map has; else it fails, and nothing is written.
   */
  lemma ParsedIff(blocks: seq<Block>, submitted: seq<int>)
    ensures Parsed(blocks, submitted).Success? <==>
      forall b :: b in blocks && (b.blockType.TABLE? || IsElement(b)) ==>
        submitted == [] || -|submitted| < b.page <= |submitted|
  {
    NothingUnmappedIff(blocks, submitted, true);
    NothingUnmappedIff(blocks, submitted, false);
    forall b | b in blocks
      ensures (Mapped(b, submitted) <==> submitted == [] || -|submitted| < b.page <= |submitted|)
        && (TypeMap(b.blockType).Some? <==> IsElement(b))
    {
      PageIs(b, submitted);
      TypeIs(b);
    }
  }

  /** The first block, in order, that a pass needs the page of and the map does not have. */
  ghost predicate IsFirstOff(blocks: seq<Block>, submitted: seq<int>, tablePass: bool, i: nat) {
    && i < |blocks| && ReadsPage(blocks[i], tablePass) && !Mapped(blocks[i], submitted)
    && forall j :: 0 <= j < i && ReadsPage(blocks[j], tablePass) ==> Mapped(blocks[j], submitted)
  }

  lemma {:induction false} FirstUnmappedIs(blocks: seq<Block>, submitted: seq<int>, tablePass: bool)
    ensures var first := FirstUnmapped(blocks, submitted, tablePass);
      first.Some? ==> exists i :: 0 <= i < |blocks| && IsFirstOff(blocks, submitted, tablePass, i) && blocks[i].page == first.value
    decreases |blocks|
  {
    if FirstUnmapped(blocks, submitted, tablePass).Some? {
      var n := |blocks| - 1;
      if FirstUnmapped(blocks[..n], submitted, tablePass).Some? {
        FirstUnmappedIs(blocks[..n], submitted, tablePass);
        var i :| 0 <= i < n && IsFirstOff(blocks[..n], submitted, tablePass, i)
                 && blocks[..n][i].page == FirstUnmapped(blocks[..n], submitted, tablePass).value;
        assert IsFirstOff(blocks, submitted, tablePass, i);
      } else {
        NothingUnmappedIff(blocks[..n], submitted, tablePass);
        assert forall j :: 0 <= j < n ==> blocks[j] in blocks[..n];
        assert IsFirstOff(blocks, submitted, tablePass, n);
      }
    }
  }

  /** A failure names the page of the first table off the map or, when tables are all on it, of the first element. */
  lemma FailureNamesTheFirst(blocks: seq<Block>, submitted: seq<int>)
    requires Parsed(blocks, submitted).Failure?
    ensures exists i ::
      (0 <= i < |blocks| && blocks[i].page == Parsed(blocks, submitted).error
       && (IsFirstOff(blocks, submitted, true, i)
           || (IsFirstOff(blocks, submitted, false, i) && FirstUnmapped(blocks, submitted, true).None?)))
  {
    FirstUnmappedIs(blocks, submitted, true);
    FirstUnmappedIs(blocks, submitted, false);
  }

  lemma ElementCarries(b: Block, elementType: ElementType, page: int, index: nat, place: nat, t: Tables)
    requires TypeMap(b.blockType) == Some(elementType)
    ensures Carries(ElementFor(b, elementType, page, index, place, t), b, place)
  {
  }

  /** Every kept block has its element, and the element carries what the block says, on its page. */
  lemma ElementCarriesItsBlock(blocks: seq<Block>, submitted: seq<int>, j: nat)
    requires Parsed(blocks, submitted).Success? && j < |blocks| && IsElement(blocks[j])
    ensures var es := Parsed(blocks, submitted).value;
      var k := PlaceOf(blocks, submitted, ScanTables(blocks, submitted), j);
      && k < |es| && Carries(es[k], blocks[j], k)
      && es[k].path.page == es[k].pageNumber && IsPageOf(es[k].pageNumber, blocks[j].page, submitted)
  {
    var t := ScanTables(blocks, submitted);
    TypeIs(blocks[j]);
    var elementType, page := TypeMap(blocks[j].blockType).value, PageOf(blocks[j], submitted);
    var k := PlaceOf(blocks, submitted, t, j);
    ElementOfBlock(blocks, submitted, t, j);
    ElementCarries(blocks[j], elementType, page, Count(blocks[..j], submitted, page, elementType), k, t);
    KeptIsMapped(blocks, submitted, j);
    PageIs(blocks[j], submitted);
  }

  lemma KeptIsMapped(blocks: seq<Block>, submitted: seq<int>, j: nat)
    requires Parsed(blocks, submitted).Success? && j < |blocks| && IsElement(blocks[j])
    ensures Mapped(blocks[j], submitted)
  {
    NothingUnmappedIff(blocks, submitted, false);
    TypeIs(blocks[j]);
    assert blocks[j] in blocks;
  }

  /** Elements come in the order of their blocks, one for each kept block. */
  lemma {:induction false} PlaceIsCount(blocks: seq<Block>, submitted: seq<int>, t: Tables, j: nat)
    requires j <= |blocks|
    ensures PlaceOf(blocks, submitted, t, j) == |set i | 0 <= i < j && IsElement(blocks[i])|
  {
    var kept := set i | 0 <= i < j && IsElement(blocks[i]);
    if j == 0 {
      assert kept == {};
    } else {
      PlaceIsCount(blocks, submitted, t, j - 1);
      TypeIs(blocks[j - 1]);
      assert blocks[..j][..j - 1] == blocks[..j - 1];
      var before := set i | 0 <= i < j - 1 && IsElement(blocks[i]);
      assert kept == if IsElement(blocks[j - 1]) then before + {j - 1} else before;
    }
  }

  // ------------------------------------------------------------------------
  // Indices and ordinals
  // ------------------------------------------------------------------------

  predicate IsAlike(b: Block, submitted: seq<int>, page: int, elementType: ElementType) {
    Becomes(b, elementType) && PageOf(b, submitted) == page
  }

  /** The places before `n` of the blocks alike. */
  ghost function AlikeBefore(blocks: seq<Block>, submitted: seq<int>, n: nat, page: int, elementType: ElementType): set<int>
    requires n <= |blocks|
  {
    set i | 0 <= i < n && IsAlike(blocks[i], submitted, page, elementType)
  }

  lemma OneMoreAlike(blocks: seq<Block>, submitted: seq<int>, n: nat, page: int, elementType: ElementType)
    requires n < |blocks|
    ensures |AlikeBefore(blocks, submitted, n + 1, page, elementType)|
      == |AlikeBefore(blocks, submitted, n, page, elementType)|
         + if IsAlike(blocks[n], submitted, page, elementType) then 1 else 0
  {
    var before, after := AlikeBefore(blocks, submitted, n, page, elementType), AlikeBefore(blocks, submitted, n + 1, page, elementType);
    OneMorePlace(before, after, n, IsAlike(blocks[n], submitted, page, elementType));
  }

  lemma CountStep(blocks: seq<Block>, submitted: seq<int>, n: nat, page: int, elementType: ElementType)
    requires n < |blocks|
    ensures Count(blocks[..n + 1], submitted, page, elementType)
      == Count(blocks[..n], submitted, page, elementType) + if IsAlike(blocks[n], submitted, page, elementType) then 1 else 0
  {
    TypeIs(blocks[n]);
    assert blocks[..n + 1][..n] == blocks[..n];
  }

  lemma {:induction false} CountIs(blocks: seq<Block>, submitted: seq<int>, n: nat, page: int, elementType: ElementType)
    requires n <= |blocks|
    ensures Count(blocks[..n], submitted, page, elementType) == |AlikeBefore(blocks, submitted, n, page, elementType)|
  {
    if n > 0 {
      CountIs(blocks, submitted, n - 1, page, elementType);
      CountStep(blocks, submitted, n - 1, page, elementType);
      OneMoreAlike(blocks, submitted, n - 1, page, elementType);
    }
  }

  /** An element's index counts the blocks of its page and type that come before its own. */
  lemma IndexCountsEarlierBlocks(blocks: seq<Block>, submitted: seq<int>, j: nat)
    requires Parsed(blocks, submitted).Success? && j < |blocks| && IsElement(blocks[j])
    ensures var es := Parsed(blocks, submitted).value;
      var k := PlaceOf(blocks, submitted, ScanTables(blocks, submitted), j);
      k < |es| && es[k].path.index == |AlikeBefore(blocks, submitted, j, es[k].pageNumber, es[k].elementType)|
  {
    var t := ScanTables(blocks, submitted);
    TypeIs(blocks[j]);
    var elementType, page := TypeMap(blocks[j].blockType).value, PageOf(blocks[j], submitted);
    ElementOfBlock(blocks, submitted, t, j);
    CountIs(blocks, submitted, j, page, elementType);
  }

  predicate Lists(b: Block, id: BlockId) {
    b.blockType.TABLE? && id in b.children
  }

  /** Block `l` is the last TABLE block that lists `id`. */
  ghost predicate IsLastLister(blocks: seq<Block>, l: nat, id: BlockId) {
    l < |blocks| && Lists(blocks[l], id) && forall i :: l < i < |blocks| ==> !Lists(blocks[i], id)
  }

  lemma {:induction false} AdoptedIs(parents: map<BlockId, BlockId>, children: seq<BlockId>, table: BlockId, id: BlockId)
    ensures id in Adopted(parents, children, table) <==> id in children || id in parents
    ensures id in children ==> Adopted(parents, children, table)[id] == table
    ensures id !in children && id in parents ==> Adopted(parents, children, table)[id] == parents[id]
    decreases |children|
  {
    if children != [] {
      AdoptedIs(parents, children[..|children| - 1], table, id);
    }
  }

  lemma {:induction false} ParentIs(blocks: seq<Block>, id: BlockId)
    ensures id !in Parents(blocks) <==> forall i :: 0 <= i < |blocks| ==> !Lists(blocks[i], id)
    ensures id in Parents(blocks) ==>
      exists l :: 0 <= l < |blocks| && IsLastLister(blocks, l, id) && Parents(blocks)[id] == blocks[l].id
    decreases |blocks|
  {
    if blocks != [] {
      var n := |blocks| - 1;
      ParentIs(blocks[..n], id);
      if blocks[n].blockType == TABLE {
        AdoptedIs(Parents(blocks[..n]), blocks[n].children, blocks[n].id, id);
      }
      if Lists(blocks[n], id) {
        assert IsLastLister(blocks, n, id);
      } else if id in Parents(blocks) {
        var l :| 0 <= l < n && IsLastLister(blocks[..n], l, id) && Parents(blocks[..n])[id] == blocks[..n][l].id;
        assert IsLastLister(blocks, l, id);
      }
    }
  }

  lemma {:induction false} TableIsKept(blocks: seq<Block>, submitted: seq<int>, l: nat)
    requires UniqueTableIds(blocks) && l < |blocks| && blocks[l].blockType.TABLE?
    ensures blocks[l].id in Pages(blocks, submitted) && blocks[l].id in Names(blocks, submitted)
    ensures Pages(blocks, submitted)[blocks[l].id] == PageOf(blocks[l], submitted)
    ensures Names(blocks, submitted)[blocks[l].id] ==
      TableName(PageOf(blocks[l], submitted), |TablesOnPage(Pages(blocks[..l], submitted), PageOf(blocks[l], submitted))|)
    decreases |blocks|
  {
    var n := |blocks| - 1;
    if l < n {
      assert blocks[..n][..l] == blocks[..l];
      TableIsKept(blocks[..n], submitted, l);
    }
  }

  predicate IsTableOn(b: Block, submitted: seq<int>, page: int) {
    b.blockType.TABLE? && PageOf(b, submitted) == page
  }

  /** The places before `n` of the tables of a page. */
  ghost function TablesBefore(blocks: seq<Block>, submitted: seq<int>, n: nat, page: int): set<int>
    requires n <= |blocks|
  {
    set i | 0 <= i < n && IsTableOn(blocks[i], submitted, page)
  }

  lemma OneMoreTableBefore(blocks: seq<Block>, submitted: seq<int>, n: nat, page: int)
    requires n < |blocks|
    ensures |TablesBefore(blocks, submitted, n + 1, page)|
      == |TablesBefore(blocks, submitted, n, page)| + if IsTableOn(blocks[n], submitted, page) then 1 else 0
  {
    var before, after := TablesBefore(blocks, submitted, n, page), TablesBefore(blocks, submitted, n + 1, page);
    OneMorePlace(before, after, n, IsTableOn(blocks[n], submitted, page));
  }

  lemma NewTableId(blocks: seq<Block>, submitted: seq<int>, n: nat)
    requires UniqueTableIds(blocks) && n < |blocks| && blocks[n].blockType.TABLE?
    ensures blocks[n].id !in Pages(blocks[..n], submitted)
  {
    if blocks[n].id in Pages(blocks[..n], submitted) {
      KeyIsATable(blocks[..n], submitted, blocks[n].id);
      assert false;
    }
  }

  lemma TablesOnPageStep(blocks: seq<Block>, submitted: seq<int>, n: nat, page: int)
    requires UniqueTableIds(blocks) && n < |blocks|
    ensures TablesOnPage(Pages(blocks[..n + 1], submitted), page) == TablesOnPage(Pages(blocks[..n], submitted), page)
      + if IsTableOn(blocks[n], submitted, page) then {blocks[n].id} else {}
    ensures IsTableOn(blocks[n], submitted, page) ==> blocks[n].id !in TablesOnPage(Pages(blocks[..n], submitted), page)
  {
    assert blocks[..n + 1][..n] == blocks[..n];
    if blocks[n].blockType.TABLE? {
      NewTableId(blocks, submitted, n);
    }
  }

  /** The tables of a page are as many by their ids as by their places. */
  lemma {:induction false} TablesAreMany(blocks: seq<Block>, submitted: seq<int>, n: nat, page: int)
    requires UniqueTableIds(blocks) && n <= |blocks|
    ensures |TablesOnPage(Pages(blocks[..n], submitted), page)| == |TablesBefore(blocks, submitted, n, page)|
  {
    if n > 0 {
      TablesAreMany(blocks, submitted, n - 1, page);
      TablesOnPageStep(blocks, submitted, n - 1, page);
      OneMoreTableBefore(blocks, submitted, n - 1, page);
    }
  }

  /** The ids of the tables on a page. */
  ghost function TableIdsOn(blocks: seq<Block>, submitted: seq<int>, page: int): set<BlockId> {
    set b | b in blocks && IsTableOn(b, submitted, page) :: b.id
  }

  lemma {:induction false} TablesAreThese(blocks: seq<Block>, submitted: seq<int>, page: int)
    requires UniqueTableIds(blocks)
    ensures TablesOnPage(Pages(blocks, submitted), page) == TableIdsOn(blocks, submitted, page)
    decreases |blocks|
  {
    if blocks != [] {
      var n := |blocks| - 1;
      TablesAreThese(blocks[..n], submitted, page);
      TablesOnPageStep(blocks, submitted, n, page);
      assert blocks[..n + 1] == blocks;
      assert forall b :: b in blocks <==> b in blocks[..n] || b == blocks[n];
    }
  }

  /**
   With unique table ids: an element belongs to the last table that lists its block, if one does. Its
   table id is that table's page and the number of tables on the page before it, and a cell's path
   has the number of the page's table ids that sort before that table's.
   */
  lemma TableIsTheLastLister(blocks: seq<Block>, submitted: seq<int>, j: nat)
    requires Parsed(blocks, submitted).Success? && j < |blocks| && IsElement(blocks[j]) && UniqueTableIds(blocks)
    ensures var es := Parsed(blocks, submitted).value;
      var k := PlaceOf(blocks, submitted, ScanTables(blocks, submitted), j);
      && k < |es|
      && (es[k].tableId.None? <==> forall i :: 0 <= i < |blocks| ==> !Lists(blocks[i], blocks[j].id))
      && (forall l :: 0 <= l < |blocks| && IsLastLister(blocks, l, blocks[j].id) ==> BelongsTo(es[k], blocks, submitted, l))
      && (es[k].path.CellPath? <==> es[k].elementType == TableCell && es[k].tableId.Some?)
  {
    var t := ScanTables(blocks, submitted);
    TypeIs(blocks[j]);
    ElementOfBlock(blocks, submitted, t, j);
    ParentIs(blocks, blocks[j].id);
    if blocks[j].id in Parents(blocks) {
      var l :| 0 <= l < |blocks| && IsLastLister(blocks, l, blocks[j].id) && Parents(blocks)[blocks[j].id] == blocks[l].id;
      ListerNames(blocks, submitted, l);
      forall m | 0 <= m < |blocks| && IsLastLister(blocks, m, blocks[j].id)
        ensures m == l
      {
      }
    }
  }

  /** The element's table is block `l`. */
  ghost predicate BelongsTo(e: Element, blocks: seq<Block>, submitted: seq<int>, l: nat)
    requires l < |blocks|
  {
    var page := PageOf(blocks[l], submitted);
    && e.tableId == Some(TableName(page, |TablesBefore(blocks, submitted, l, page)|))
    && (e.path.CellPath? ==> e.path.table == Rank(TableIdsOn(blocks, submitted, page), blocks[l].id))
  }

  lemma ListerNames(blocks: seq<Block>, submitted: seq<int>, l: nat)
    requires UniqueTableIds(blocks) && l < |blocks| && blocks[l].blockType.TABLE?
    ensures var t, page := ScanTables(blocks, submitted), PageOf(blocks[l], submitted);
      && blocks[l].id in t.pages && blocks[l].id in t.names
      && t.names[blocks[l].id] == TableName(page, |TablesBefore(blocks, submitted, l, page)|)
      && TableRank(t.pages, blocks[l].id) == Rank(TableIdsOn(blocks, submitted, page), blocks[l].id)
  {
    TableIsKept(blocks, submitted, l);
    TablesAreMany(blocks, submitted, l, PageOf(blocks[l], submitted));
    TablesAreThese(blocks, submitted, PageOf(blocks[l], submitted));
  }

  /** The element types as the `doc_elements` table names them. */
  function TypeText(elementType: ElementType): string {
    match elementType
    case Word => "word"
    case Line => "line"
    case TableCell => "table_cell"
    case SelectionMark => "selection_mark"
  }

  lemma PluralIs(elementType: ElementType)
    ensures Plural(elementType) == TypeText(elementType) + "s"
  {
  }

  /** What a path looks like: `pages/<n>/<type>s/<i>`, and for a cell of a table `pages/<n>/tables/<t>/cells/<i>`. */
  lemma PathText(path: ElementPath)
    ensures path.PlainPath? ==>
      path.Render() == "pages" + "/" + (Digits.StrOfInt(path.page) + "/" + (TypeText(path.elementType) + "s" + "/" + Digits.Str(path.index)))
    ensures path.CellPath? ==>
      path.Render() == "pages" + "/" + (Digits.StrOfInt(path.page) + "/"
        + ("tables" + "/" + (Digits.Str(path.table) + "/" + ("cells" + "/" + Digits.Str(path.index)))))
  {
    if path.PlainPath? {
      PluralIs(path.elementType);
    }
  }
}
