/**
 Textract blocks to document elements (backend/pipeline/stages/normalize.py).

 `ParseBlocks` is the three-pass loop with its dictionaries; `Parsed` is the value it
 computes. Path strings are rendered by `ElementPath.Render`. A table id is the pair
 that is hashed into a version 5 UUID (section 4.3 of RFC 4122), the hash taken as injective.
 */
module Normalize {
  import opened Prelude
  import opened BlockIds
  import Digits

  datatype BlockType = WORD | LINE | CELL | MERGED_CELL | SELECTION_ELEMENT | TABLE | OTHER

  datatype ElementType = Word | Line | TableCell | SelectionMark

  function TypeMap(blockType: BlockType): Option<ElementType> {
    match blockType
    case WORD => Some(Word)
    case LINE => Some(Line)
    case CELL => Some(TableCell)
    case MERGED_CELL => Some(TableCell)
    case SELECTION_ELEMENT => Some(SelectionMark)
    case TABLE => None
    case OTHER => None
  }

  /** One Textract block; `children` lists the ids of its CHILD relationships, in order. */
  datatype Block = Block(
    id: BlockId, blockType: BlockType, page: int, children: seq<BlockId>,
    text: string, rowIndex: int, columnIndex: int, columnHeader: bool, confidence: Option<real>)

  datatype ElementPath =
    | PlainPath(page: int, elementType: ElementType, index: nat)
    | CellPath(page: int, table: nat, index: nat)
  {
    function Render(): string {
      "pages" + "/" + (Digits.StrOfInt(page) + "/" + Tail())
    }

    function Tail(): string {
      match this
      case PlainPath(_, elementType, index) => Plural(elementType) + "/" + Digits.Str(index)
      case CellPath(_, table, index) => "tables" + "/" + CellTail(table, index)
    }
  }

  function CellTail(table: nat, index: nat): string {
    Digits.Str(table) + "/" + ("cells" + "/" + Digits.Str(index))
  }

  function Plural(elementType: ElementType): (s: string)
    ensures '/' !in s
  {
    match elementType
    case Word => "words"
    case Line => "lines"
    case TableCell => "table_cells"
    case SelectionMark => "selection_marks"
  }

  /** The name hashed into a table id. */
  datatype TableName = TableName(page: int, ordinal: nat)

  datatype Element = Element(
    path: ElementPath, pageNumber: int, elementType: ElementType, text: string,
    ocrConfidence: Option<real>, readingOrder: nat, tableId: Option<TableName>,
    rowIndex: Option<int>, columnIndex: Option<int>, columnHeader: bool)

  // ------------------------------------------------------------------------
  // The page map
  // ------------------------------------------------------------------------

  /** `submitted[local - 1]` with Python's negative indexing; no map passes pages through. */
  function GlobalPage(local: int, submitted: seq<int>): Option<int> {
    if submitted == [] then Some(local)
    else if 0 <= local - 1 < |submitted| then Some(submitted[local - 1])
    else if -|submitted| <= local - 1 < 0 then Some(submitted[|submitted| + local - 1])
    else None
  }

  predicate Mapped(b: Block, submitted: seq<int>) {
    GlobalPage(b.page, submitted).Some?
  }

  /** The global page of a mapped block. */
  function PageOf(b: Block, submitted: seq<int>): int {
    match GlobalPage(b.page, submitted)
    case Some(page) => page
    case None => 0
  }

  // ------------------------------------------------------------------------
  // Passes one and two: tables and their children
  // ------------------------------------------------------------------------

  /** The dictionaries of the first two passes. */
  datatype Tables = Tables(
    pages: map<BlockId, int>, names: map<BlockId, TableName>, parents: map<BlockId, BlockId>)

  function TablesOnPage(pages: map<BlockId, int>, page: int): set<BlockId> {
    set k | k in pages && pages[k] == page
  }

  function Pages(blocks: seq<Block>, submitted: seq<int>): (pages: map<BlockId, int>)
    decreases |blocks|
  {
    if blocks == [] then map[] else
    var b := blocks[|blocks| - 1];
    var pages := Pages(blocks[..|blocks| - 1], submitted);
    if b.blockType == TABLE then pages[b.id := PageOf(b, submitted)] else pages
  }

  /** The ordinal in a table's name is its order of appearance on its page. */
  function Names(blocks: seq<Block>, submitted: seq<int>): (names: map<BlockId, TableName>)
    decreases |blocks|
  {
    if blocks == [] then map[] else
    var before := blocks[..|blocks| - 1];
    var b := blocks[|blocks| - 1];
    var names := Names(before, submitted);
    if b.blockType == TABLE then
      var page := PageOf(b, submitted);
      names[b.id := TableName(page, |TablesOnPage(Pages(before, submitted), page)|)]
    else
      names
  }

  function Adopted(parents: map<BlockId, BlockId>, children: seq<BlockId>, table: BlockId): map<BlockId, BlockId>
    decreases |children|
  {
    if children == [] then parents
    else Adopted(parents, children[..|children| - 1], table)[children[|children| - 1] := table]
  }

  function Parents(blocks: seq<Block>): (parents: map<BlockId, BlockId>)
    decreases |blocks|
  {
    if blocks == [] then map[] else
    var b := blocks[|blocks| - 1];
    var parents := Parents(blocks[..|blocks| - 1]);
    if b.blockType == TABLE then Adopted(parents, b.children, b.id) else parents
  }

  function ScanTables(blocks: seq<Block>, submitted: seq<int>): Tables {
    Tables(Pages(blocks, submitted), Names(blocks, submitted), Parents(blocks))
  }

  // ------------------------------------------------------------------------
  // Pass three: elements
  // ------------------------------------------------------------------------

  /** How many of `blocks` become elements of this type on this page. */
  function Count(blocks: seq<Block>, submitted: seq<int>, page: int, elementType: ElementType): nat
    decreases |blocks|
  {
    if blocks == [] then 0 else
    var b := blocks[|blocks| - 1];
    var n := Count(blocks[..|blocks| - 1], submitted, page, elementType);
    if TypeMap(b.blockType) == Some(elementType) && PageOf(b, submitted) == page then n + 1 else n
  }

  /** The rank of a table among the sorted ids of the tables on its page. */
  function TableRank(pages: map<BlockId, int>, table: BlockId): nat
    requires table in pages
  {
    Rank(TablesOnPage(pages, pages[table]), table)
  }

  function ParentOf(tables: Tables, id: BlockId): Option<BlockId> {
    if id in tables.parents && tables.parents[id] in tables.pages then Some(tables.parents[id]) else None
  }

  function ZeroBased(index: int): Option<int> {
    if index != 0 then Some(index - 1) else None
  }

  function ElementFor(
      b: Block, elementType: ElementType, page: int, index: nat, readingOrder: nat, tables: Tables): Element
  {
    var parent := ParentOf(tables, b.id);
    Element(
      if elementType == TableCell && parent.Some?
      then CellPath(page, TableRank(tables.pages, parent.value), index)
      else PlainPath(page, elementType, index),
      page, elementType, b.text,
      match b.confidence case Some(c) => Some(c / 100.0) case None => None,
      readingOrder,
      if parent.Some? && parent.value in tables.names then Some(tables.names[parent.value]) else None,
      ZeroBased(b.rowIndex), ZeroBased(b.columnIndex), b.columnHeader)
  }

  function Elements(blocks: seq<Block>, submitted: seq<int>, tables: Tables): seq<Element>
    decreases |blocks|
  {
    if blocks == [] then [] else
    var before := blocks[..|blocks| - 1];
    var b := blocks[|blocks| - 1];
    var es := Elements(before, submitted, tables);
    match TypeMap(b.blockType)
    case None => es
    case Some(elementType) =>
      var page := PageOf(b, submitted);
      es + [ElementFor(b, elementType, page, Count(before, submitted, page, elementType), |es|, tables)]
  }

  /** The local page of the first block a pass cannot map, in block order. */
  function FirstUnmapped(blocks: seq<Block>, submitted: seq<int>, tablePass: bool): Option<int>
    decreases |blocks|
  {
    if blocks == [] then None else
    var earlier := FirstUnmapped(blocks[..|blocks| - 1], submitted, tablePass);
    var b := blocks[|blocks| - 1];
    if earlier.Some? then earlier
    else if ReadsPage(b, tablePass) && !Mapped(b, submitted) then Some(b.page)
    else None
  }

  predicate ReadsPage(b: Block, tablePass: bool) {
    if tablePass then b.blockType == TABLE else TypeMap(b.blockType).Some?
  }

  /** What normalisation returns: the elements, or the local page the map does not cover. */
  function Parsed(blocks: seq<Block>, submitted: seq<int>): Result<seq<Element>, int> {
    match FirstUnmapped(blocks, submitted, true)
    case Some(local) => Failure(local)
    case None =>
      match FirstUnmapped(blocks, submitted, false)
      case Some(local) => Failure(local)
      case None => Success(Elements(blocks, submitted, ScanTables(blocks, submitted)))
  }

  /** First pass: the page and the name of every TABLE block. */
  method TablePass(blocks: seq<Block>, submitted: seq<int>)
    returns (r: Result<(map<BlockId, int>, map<BlockId, TableName>), int>)
    ensures r == match FirstUnmapped(blocks, submitted, true)
                 case Some(local) => Failure(local)
                 case None => Success((Pages(blocks, submitted), Names(blocks, submitted)))
  {
    var tablePages: map<BlockId, int> := map[];
    var tableNames: map<BlockId, TableName> := map[];
    for i := 0 to |blocks|
      invariant FirstUnmapped(blocks[..i], submitted, true) == None
      invariant tablePages == Pages(blocks[..i], submitted)
      invariant tableNames == Names(blocks[..i], submitted)
    {
      var b := blocks[i];
      assert blocks[..i + 1][..i] == blocks[..i];
      if b.blockType == TABLE {
        match GlobalPage(b.page, submitted) {
          case None =>
            FirstUnmappedIsFirst(blocks, i + 1, submitted, true);
            return Failure(b.page);
          case Some(page) =>
            var ordinal := |TablesOnPage(tablePages, page)|;
            tablePages := tablePages[b.id := page];
            tableNames := tableNames[b.id := TableName(page, ordinal)];
        }
      }
    }
    assert blocks[..|blocks|] == blocks;
    return Success((tablePages, tableNames));
  }

  /** Second pass: every child id to the last TABLE block that lists it. */
  method ChildPass(blocks: seq<Block>) returns (cellToTable: map<BlockId, BlockId>)
    ensures cellToTable == Parents(blocks)
  {
    cellToTable := map[];
    for i := 0 to |blocks|
      invariant cellToTable == Parents(blocks[..i])
    {
      var b := blocks[i];
      assert blocks[..i + 1][..i] == blocks[..i];
      if b.blockType == TABLE {
        ghost var before := cellToTable;
        for k := 0 to |b.children|
          invariant cellToTable == Adopted(before, b.children[..k], b.id)
        {
          assert b.children[..k + 1][..k] == b.children[..k];
          cellToTable := cellToTable[b.children[k] := b.id];
        }
        assert b.children[..|b.children|] == b.children;
      }
    }
    assert blocks[..|blocks|] == blocks;
  }

  /** Third pass: one element per kept block, numbered per page and type. */
  method ElementPass(blocks: seq<Block>, submitted: seq<int>, tables: Tables) returns (r: Result<seq<Element>, int>)
    ensures r == match FirstUnmapped(blocks, submitted, false)
                 case Some(local) => Failure(local)
                 case None => Success(Elements(blocks, submitted, tables))
  {
    var counters: map<(int, ElementType), nat> := map[];
    var elements: seq<Element> := [];
    for i := 0 to |blocks|
      invariant FirstUnmapped(blocks[..i], submitted, false) == None
      invariant forall page, elementType ::
          Get(counters, page, elementType) == Count(blocks[..i], submitted, page, elementType)
      invariant elements == Elements(blocks[..i], submitted, tables)
    {
      var b := blocks[i];
      assert blocks[..i + 1][..i] == blocks[..i];
      match TypeMap(b.blockType) {
        case None =>
        case Some(elementType) =>
          match GlobalPage(b.page, submitted) {
            case None =>
              FirstUnmappedIsFirst(blocks, i + 1, submitted, false);
              return Failure(b.page);
            case Some(page) =>
              var index := Get(counters, page, elementType);
              counters := counters[(page, elementType) := index + 1];
              elements := elements + [ElementFor(b, elementType, page, index, |elements|, tables)];
          }
      }
    }
    assert blocks[..|blocks|] == blocks;
    return Success(elements);
  }

  /** The whole of `parse_blocks`: the first page a pass cannot map stops it with that page. */
  method ParseBlocks(blocks: seq<Block>, submitted: seq<int>) returns (r: Result<seq<Element>, int>)
    ensures r == Parsed(blocks, submitted)
  {
    var first := TablePass(blocks, submitted);
    match first {
      case Failure(local) =>
        return Failure(local);
      case Success((tablePages, tableNames)) =>
        var cellToTable := ChildPass(blocks);
        r := ElementPass(blocks, submitted, Tables(tablePages, tableNames, cellToTable));
    }
  }

  /** `counters.get((page, type), 0)` */
  function Get(counters: map<(int, ElementType), nat>, page: int, elementType: ElementType): nat {
    if (page, elementType) in counters then counters[(page, elementType)] else 0
  }

  lemma {:induction false} FirstUnmappedIsFirst(blocks: seq<Block>, n: nat, submitted: seq<int>, tablePass: bool)
    requires n <= |blocks| && FirstUnmapped(blocks[..n], submitted, tablePass).Some?
    ensures FirstUnmapped(blocks, submitted, tablePass) == FirstUnmapped(blocks[..n], submitted, tablePass)
    decreases |blocks|
  {
    if n < |blocks| {
      assert blocks[..|blocks| - 1][..n] == blocks[..n];
      FirstUnmappedIsFirst(blocks[..|blocks| - 1], n, submitted, tablePass);
    } else {
      assert blocks[..n] == blocks;
    }
  }

  /** The place of block `j`'s element in the output. */
  function PlaceOf(blocks: seq<Block>, submitted: seq<int>, t: Tables, j: nat): nat
    requires j <= |blocks|
  {
    |Elements(blocks[..j], submitted, t)|
  }

  lemma {:induction false} ElementOfBlock(blocks: seq<Block>, submitted: seq<int>, t: Tables, j: nat)
    requires j < |blocks| && TypeMap(blocks[j].blockType).Some?
    ensures var k, b := PlaceOf(blocks, submitted, t, j), blocks[j];
      var elementType, page := TypeMap(b.blockType).value, PageOf(b, submitted);
      && k < |Elements(blocks, submitted, t)|
      && Elements(blocks, submitted, t)[k] ==
        ElementFor(b, elementType, page, Count(blocks[..j], submitted, page, elementType), k, t)
    decreases |blocks|
  {
    var n := |blocks| - 1;
    if j < n {
      assert blocks[..n][..j] == blocks[..j];
      ElementOfBlock(blocks[..n], submitted, t, j);
    }
  }

  lemma {:induction false} BlockOfElement(blocks: seq<Block>, submitted: seq<int>, t: Tables, i: nat) returns (j: nat)
    requires i < |Elements(blocks, submitted, t)|
    ensures j < |blocks| && TypeMap(blocks[j].blockType).Some? && PlaceOf(blocks, submitted, t, j) == i
    decreases |blocks|
  {
    var n := |blocks| - 1;
    if i < |Elements(blocks[..n], submitted, t)| {
      j := BlockOfElement(blocks[..n], submitted, t, i);
      assert blocks[..n][..j] == blocks[..j];
    } else {
      j := n;
    }
  }
}
