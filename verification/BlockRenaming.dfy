/**
 Textract mints fresh block ids on every job. This module says what that changes: nothing but
 the table ordinal inside a cell's path, and that exactly when the new ids sort differently.
 */
module BlockRenaming {
  import opened Prelude
  import opened BlockIds
  import opened Normalize
  import ElementIdentity
  import PageLocality

  function RenamedBlock(b: Block, f: BlockId -> BlockId): Block {
    b.(id := f(b.id), children := seq(|b.children|, k requires 0 <= k < |b.children| => f(b.children[k])))
  }

  /** The same result with every block id replaced. */
  function Renamed(blocks: seq<Block>, f: BlockId -> BlockId): (r: seq<Block>)
    ensures |r| == |blocks|
  {
    seq(|blocks|, i requires 0 <= i < |blocks| => RenamedBlock(blocks[i], f))
  }

  /** `n` is `m` with its keys renamed. */
  ghost predicate Carries<V>(f: BlockId -> BlockId, m: map<BlockId, V>, n: map<BlockId, V>) {
    && (forall k :: k in m ==> f(k) in n && n[f(k)] == m[k])
    && (forall l :: l in n ==> exists k :: k in m && f(k) == l)
  }

  lemma SnocRenamed(blocks: seq<Block>, f: BlockId -> BlockId, n: nat)
    requires n <= |blocks|
    ensures Renamed(blocks, f)[..n] == Renamed(blocks[..n], f)
  {
  }

  lemma CarriesUpdate<V>(f: BlockId -> BlockId, m: map<BlockId, V>, n: map<BlockId, V>, id: BlockId, v: V)
    requires Injective(f) && Carries(f, m, n)
    ensures Carries(f, m[id := v], n[f(id) := v])
  {
    var m', n' := m[id := v], n[f(id) := v];
    forall l | l in n'
      ensures exists k :: k in m' && f(k) == l
    {
      if l == f(id) {
        assert id in m';
      } else {
        var k :| k in m && f(k) == l;
        assert k in m';
      }
    }
  }

  lemma SameNumberOnPage(f: BlockId -> BlockId, m: map<BlockId, int>, n: map<BlockId, int>, page: int)
    requires Injective(f) && Carries(f, m, n)
    ensures |TablesOnPage(m, page)| == |TablesOnPage(n, page)|
  {
    ImageSize(f, TablesOnPage(m, page), TablesOnPage(n, page));
  }

  lemma {:induction false} TablesRenamed(blocks: seq<Block>, submitted: seq<int>, f: BlockId -> BlockId)
    requires Injective(f)
    ensures Carries(f, Pages(blocks, submitted), Pages(Renamed(blocks, f), submitted))
    ensures Carries(f, Names(blocks, submitted), Names(Renamed(blocks, f), submitted))
    decreases |blocks|
  {
    if blocks != [] {
      var n := |blocks| - 1;
      var b := blocks[n];
      TablesRenamed(blocks[..n], submitted, f);
      SnocRenamed(blocks, f, n);
      if b.blockType == TABLE {
        var page := PageOf(b, submitted);
        var m, m' := Pages(blocks[..n], submitted), Pages(Renamed(blocks[..n], f), submitted);
        CarriesUpdate(f, m, m', b.id, page);
        SameNumberOnPage(f, m, m', page);
        CarriesUpdate(f, Names(blocks[..n], submitted), Names(Renamed(blocks[..n], f), submitted),
                      b.id, TableName(page, |TablesOnPage(m, page)|));
      }
    }
  }

  ghost predicate ParentCarried(p: map<BlockId, BlockId>, q: map<BlockId, BlockId>, f: BlockId -> BlockId, id: BlockId) {
    (id in p <==> f(id) in q) && (id in p ==> q[f(id)] == f(p[id]))
  }

  lemma {:induction false} AdoptedRenamed(
      p: map<BlockId, BlockId>, q: map<BlockId, BlockId>, b: Block, n: nat, f: BlockId -> BlockId, id: BlockId)
    requires Injective(f) && ParentCarried(p, q, f, id) && n <= |b.children|
    ensures ParentCarried(Adopted(p, b.children[..n], b.id), Adopted(q, RenamedBlock(b, f).children[..n], f(b.id)), f, id)
    decreases n
  {
    if n > 0 {
      AdoptedRenamed(p, q, b, n - 1, f, id);
      assert b.children[..n][..n - 1] == b.children[..n - 1];
      assert RenamedBlock(b, f).children[..n][..n - 1] == RenamedBlock(b, f).children[..n - 1];
    }
  }

  lemma {:induction false} ParentsRenamed(blocks: seq<Block>, f: BlockId -> BlockId, id: BlockId)
    requires Injective(f)
    ensures ParentCarried(Parents(blocks), Parents(Renamed(blocks, f)), f, id)
    decreases |blocks|
  {
    if blocks != [] {
      var n := |blocks| - 1;
      var b := blocks[n];
      ParentsRenamed(blocks[..n], f, id);
      SnocRenamed(blocks, f, n);
      if b.blockType == TABLE {
        AdoptedRenamed(Parents(blocks[..n]), Parents(Renamed(blocks[..n], f)), b, |b.children|, f, id);
        assert b.children[..|b.children|] == b.children;
        assert RenamedBlock(b, f).children[..|b.children|] == RenamedBlock(b, f).children;
      }
    }
  }

  lemma {:induction false} CountRenamed(
      blocks: seq<Block>, submitted: seq<int>, f: BlockId -> BlockId, page: int, elementType: ElementType)
    ensures Count(Renamed(blocks, f), submitted, page, elementType) == Count(blocks, submitted, page, elementType)
    decreases |blocks|
  {
    if blocks != [] {
      CountRenamed(blocks[..|blocks| - 1], submitted, f, page, elementType);
      SnocRenamed(blocks, f, |blocks| - 1);
    }
  }

  lemma {:induction false} UnmappedRenamed(
      blocks: seq<Block>, submitted: seq<int>, f: BlockId -> BlockId, tablePass: bool)
    ensures FirstUnmapped(Renamed(blocks, f), submitted, tablePass) == FirstUnmapped(blocks, submitted, tablePass)
    decreases |blocks|
  {
    if blocks != [] {
      UnmappedRenamed(blocks[..|blocks| - 1], submitted, f, tablePass);
      SnocRenamed(blocks, f, |blocks| - 1);
    }
  }

  /** What renaming does to the parent of `id`: the renamed table, under the same name. */
  ghost predicate ScanCarried(t: Tables, u: Tables, f: BlockId -> BlockId, id: BlockId) {
    match ParentOf(t, id)
    case None => ParentOf(u, f(id)) == None
    case Some(parent) =>
      && ParentOf(u, f(id)) == Some(f(parent))
      && (parent in t.names <==> f(parent) in u.names)
      && (parent in t.names ==> u.names[f(parent)] == t.names[parent])
  }

  lemma ScanRenamed(blocks: seq<Block>, submitted: seq<int>, f: BlockId -> BlockId, id: BlockId)
    requires Injective(f)
    ensures ScanCarried(ScanTables(blocks, submitted), ScanTables(Renamed(blocks, f), submitted), f, id)
  {
    TablesRenamed(blocks, submitted, f);
    ParentsRenamed(blocks, f, id);
  }

  /** Equal but, in the path of a table's cell, for the rank of the table. */
  ghost predicate SameButRank(e: Element, e': Element) {
    if e.path.CellPath?
    then e'.path.CellPath? && e' == e.(path := e.path.(table := e'.path.table))
    else e' == e
  }

  ghost predicate AllSameButRank(es: seq<Element>, fs: seq<Element>) {
    |fs| == |es| && forall i :: 0 <= i < |es| ==> SameButRank(es[i], fs[i])
  }

  lemma {:induction false} ElementsRenamed(
      blocks: seq<Block>, submitted: seq<int>, f: BlockId -> BlockId, t: Tables, u: Tables)
    requires forall b :: b in blocks ==> ScanCarried(t, u, f, b.id)
    ensures AllSameButRank(Elements(blocks, submitted, t), Elements(Renamed(blocks, f), submitted, u))
    decreases |blocks|
  {
    if blocks != [] {
      var n := |blocks| - 1;
      var b := blocks[n];
      assert forall b :: b in blocks[..n] ==> b in blocks;
      ElementsRenamed(blocks[..n], submitted, f, t, u);
      SnocRenamed(blocks, f, n);
      match TypeMap(b.blockType)
      case None =>
      case Some(elementType) =>
        var page := PageOf(b, submitted);
        CountRenamed(blocks[..n], submitted, f, page, elementType);
        ElementRenamed(b, f, elementType, page, Count(blocks[..n], submitted, page, elementType),
                       |Elements(blocks[..n], submitted, t)|, t, u);
    }
  }

  lemma ElementRenamed(
      b: Block, f: BlockId -> BlockId, elementType: ElementType, page: int, index: nat, order: nat, t: Tables, u: Tables)
    requires ScanCarried(t, u, f, b.id)
    ensures SameButRank(ElementFor(b, elementType, page, index, order, t),
                        ElementFor(RenamedBlock(b, f), elementType, page, index, order, u))
  {
  }

  /**
   Fresh block ids keep every element, its text, its order, its table id, and the page, type
   and index in its path.
   */
  lemma FreshIdsKeepAllButTableRanks(blocks: seq<Block>, submitted: seq<int>, f: BlockId -> BlockId)
    requires Injective(f) && Parsed(blocks, submitted).Success?
    ensures Parsed(Renamed(blocks, f), submitted).Success?
    ensures var es, fs := Parsed(blocks, submitted).value, Parsed(Renamed(blocks, f), submitted).value;
      && |fs| == |es|
      && (forall i :: 0 <= i < |es| ==> SameButRank(es[i], fs[i]) && fs[i].tableId == es[i].tableId)
  {
    UnmappedRenamed(blocks, submitted, f, true);
    UnmappedRenamed(blocks, submitted, f, false);
    var t, u := ScanTables(blocks, submitted), ScanTables(Renamed(blocks, f), submitted);
    forall b | b in blocks
      ensures ScanCarried(t, u, f, b.id)
    {
      ScanRenamed(blocks, submitted, f, b.id);
    }
    ElementsRenamed(blocks, submitted, f, t, u);
  }

  // ------------------------------------------------------------------------
  // When the paths survive
  // ------------------------------------------------------------------------

  /** The new ids sort the tables of each page as the old ones did. */
  ghost predicate OrderKept(f: BlockId -> BlockId, pages: map<BlockId, int>) {
    forall a, b :: a in pages && b in pages && pages[a] == pages[b] ==> (Less(a, b) <==> Less(f(a), f(b)))
  }

  ghost predicate RanksKept(f: BlockId -> BlockId, m: map<BlockId, int>, n: map<BlockId, int>)
    requires Carries(f, m, n)
  {
    forall k :: k in m ==> TableRank(n, f(k)) == TableRank(m, k)
  }

  lemma RanksKeptIffOrderKept(f: BlockId -> BlockId, m: map<BlockId, int>, n: map<BlockId, int>)
    requires Injective(f) && Carries(f, m, n)
    ensures RanksKept(f, m, n) <==> OrderKept(f, m)
  {
    if RanksKept(f, m, n) {
      forall a, b | a in m && b in m && m[a] == m[b]
        ensures Less(a, b) <==> Less(f(a), f(b))
      {
        SameRanksSameOrder(f, m, n, a, b);
      }
    }
    if OrderKept(f, m) {
      forall k | k in m
        ensures TableRank(n, f(k)) == TableRank(m, k)
      {
        SameOrderSameRank(f, m, n, k);
      }
    }
  }

  lemma SameRanksSameOrder(f: BlockId -> BlockId, m: map<BlockId, int>, n: map<BlockId, int>, a: BlockId, b: BlockId)
    requires Carries(f, m, n) && RanksKept(f, m, n) && a in m && b in m && m[a] == m[b]
    ensures Less(a, b) <==> Less(f(a), f(b))
  {
    RankIsStrictlyMonotone(TablesOnPage(m, m[a]), a, b);
    RankIsStrictlyMonotone(TablesOnPage(n, m[a]), f(a), f(b));
    assert TableRank(n, f(a)) == TableRank(m, a) && TableRank(n, f(b)) == TableRank(m, b);
  }

  lemma SameOrderSameRank(f: BlockId -> BlockId, m: map<BlockId, int>, n: map<BlockId, int>, k: BlockId)
    requires Injective(f) && Carries(f, m, n) && OrderKept(f, m) && k in m
    ensures TableRank(n, f(k)) == TableRank(m, k)
  {
    var below := set a | a in TablesOnPage(m, m[k]) && Less(a, k);
    var below' := set a | a in TablesOnPage(n, m[k]) && Less(a, f(k));
    ImageSize(f, below, below');
  }

  ghost predicate HasACell(blocks: seq<Block>, t: Tables, table: BlockId) {
    exists j :: 0 <= j < |blocks| && IsCellOf(t, blocks[j], table)
  }

  /** Every table has at least one cell in the result. */
  ghost predicate EveryTableHasACell(blocks: seq<Block>, submitted: seq<int>) {
    var t := ScanTables(blocks, submitted);
    forall k :: k in t.pages ==> HasACell(blocks, t, k)
  }

  /** Each table with a cell has as many tables of its page sorted before it as it had. */
  ghost predicate CellRanksKept(
      blocks: seq<Block>, f: BlockId -> BlockId, t: Tables, pages: map<BlockId, int>)
  {
    forall k :: k in t.pages && HasACell(blocks, t, k) ==>
      f(k) in pages && TableRank(pages, f(k)) == TableRank(t.pages, k)
  }

  predicate IsCellOf(t: Tables, b: Block, table: BlockId) {
    TypeMap(b.blockType) == Some(TableCell) && ParentOf(t, b.id) == Some(table)
  }

  ghost predicate SamePaths(es: seq<Element>, fs: seq<Element>) {
    |es| == |fs| && forall i :: 0 <= i < |es| ==> fs[i].path == es[i].path
  }

  /** The two elements block `j` becomes, before and after renaming. */
  lemma PairOf(blocks: seq<Block>, submitted: seq<int>, f: BlockId -> BlockId, j: nat)
    returns (k: nat, index: nat)
    requires Injective(f) && Parsed(blocks, submitted).Success?
    requires j < |blocks| && TypeMap(blocks[j].blockType).Some?
    ensures var t, u := ScanTables(blocks, submitted), ScanTables(Renamed(blocks, f), submitted);
      var es, fs := Elements(blocks, submitted, t), Elements(Renamed(blocks, f), submitted, u);
      var elementType, page := TypeMap(blocks[j].blockType).value, PageOf(blocks[j], submitted);
      && k == PlaceOf(blocks, submitted, t, j) < |es| == |fs|
      && es[k] == ElementFor(blocks[j], elementType, page, index, k, t)
      && fs[k] == ElementFor(RenamedBlock(blocks[j], f), elementType, page, index, k, u)
  {
    var t, u := ScanTables(blocks, submitted), ScanTables(Renamed(blocks, f), submitted);
    var elementType, page := TypeMap(blocks[j].blockType).value, PageOf(blocks[j], submitted);
    k := PlaceOf(blocks, submitted, t, j);
    index := Count(blocks[..j], submitted, page, elementType);
    FreshIdsKeepAllButTableRanks(blocks, submitted, f);
    ElementOfBlock(blocks, submitted, t, j);
    SnocRenamed(blocks, f, j);
    forall b | b in blocks[..j]
      ensures ScanCarried(t, u, f, b.id)
    {
      ScanRenamed(blocks, submitted, f, b.id);
    }
    ElementsRenamed(blocks[..j], submitted, f, t, u);
    CountRenamed(blocks[..j], submitted, f, page, elementType);
    ElementOfBlock(Renamed(blocks, f), submitted, u, j);
  }

  /**
   Fresh ids leave every path as it was exactly when they keep the rank of each table that has a
   cell. Keeping the sort order of the tables of each page is enough, and needed once every table
   has a cell.
   */
  lemma FreshIdsKeepPathsIff(blocks: seq<Block>, submitted: seq<int>, f: BlockId -> BlockId)
    requires Injective(f) && Parsed(blocks, submitted).Success?
    ensures Parsed(Renamed(blocks, f), submitted).Success?
    ensures SamePaths(Parsed(blocks, submitted).value, Parsed(Renamed(blocks, f), submitted).value) <==>
      CellRanksKept(blocks, f, ScanTables(blocks, submitted), Pages(Renamed(blocks, f), submitted))
    ensures OrderKept(f, Pages(blocks, submitted)) ==>
      SamePaths(Parsed(blocks, submitted).value, Parsed(Renamed(blocks, f), submitted).value)
    ensures EveryTableHasACell(blocks, submitted) ==>
      (SamePaths(Parsed(blocks, submitted).value, Parsed(Renamed(blocks, f), submitted).value) ==>
        OrderKept(f, Pages(blocks, submitted)))
  {
    FreshIdsKeepAllButTableRanks(blocks, submitted, f);
    TablesRenamed(blocks, submitted, f);
    var t, u := ScanTables(blocks, submitted), ScanTables(Renamed(blocks, f), submitted);
    RanksKeptIffOrderKept(f, t.pages, u.pages);
    if CellRanksKept(blocks, f, t, u.pages) {
      KeptRanksKeepPaths(blocks, submitted, f, t, u);
    }
    if SamePaths(Parsed(blocks, submitted).value, Parsed(Renamed(blocks, f), submitted).value) {
      KeptPathsKeepRanks(blocks, submitted, f, t, u);
    }
  }

  lemma KeptRanksKeepPaths(blocks: seq<Block>, submitted: seq<int>, f: BlockId -> BlockId, t: Tables, u: Tables)
    requires Injective(f) && Parsed(blocks, submitted).Success? && Parsed(Renamed(blocks, f), submitted).Success?
    requires t == ScanTables(blocks, submitted) && u == ScanTables(Renamed(blocks, f), submitted)
    requires Carries(f, t.pages, u.pages) && CellRanksKept(blocks, f, t, u.pages)
    ensures SamePaths(Parsed(blocks, submitted).value, Parsed(Renamed(blocks, f), submitted).value)
  {
    FreshIdsKeepAllButTableRanks(blocks, submitted, f);
    var es, fs := Parsed(blocks, submitted).value, Parsed(Renamed(blocks, f), submitted).value;
    forall i | 0 <= i < |es|
      ensures fs[i].path == es[i].path
    {
      var j := BlockOfElement(blocks, submitted, t, i);
      var k, index := PairOf(blocks, submitted, f, j);
      ScanRenamed(blocks, submitted, f, blocks[j].id);
      if TypeMap(blocks[j].blockType) == Some(TableCell) && ParentOf(t, blocks[j].id).Some? {
        assert IsCellOf(t, blocks[j], ParentOf(t, blocks[j].id).value);
        assert HasACell(blocks, t, ParentOf(t, blocks[j].id).value);
      }
    }
  }

  lemma KeptPathsKeepRanks(blocks: seq<Block>, submitted: seq<int>, f: BlockId -> BlockId, t: Tables, u: Tables)
    requires Injective(f) && Parsed(blocks, submitted).Success? && Parsed(Renamed(blocks, f), submitted).Success?
    requires t == ScanTables(blocks, submitted) && u == ScanTables(Renamed(blocks, f), submitted)
    requires Carries(f, t.pages, u.pages)
    requires SamePaths(Parsed(blocks, submitted).value, Parsed(Renamed(blocks, f), submitted).value)
    ensures CellRanksKept(blocks, f, t, u.pages)
  {
    FreshIdsKeepAllButTableRanks(blocks, submitted, f);
    var es, fs := Parsed(blocks, submitted).value, Parsed(Renamed(blocks, f), submitted).value;
    forall table | table in t.pages && HasACell(blocks, t, table)
      ensures TableRank(u.pages, f(table)) == TableRank(t.pages, table)
    {
      var j :| 0 <= j < |blocks| && IsCellOf(t, blocks[j], table);
      var k, index := PairOf(blocks, submitted, f, j);
      ScanRenamed(blocks, submitted, f, blocks[j].id);
      assert fs[k].path == es[k].path;
    }
  }

  // ------------------------------------------------------------------------
  // Two jobs over differently routed subsets
  // ------------------------------------------------------------------------

  lemma {:induction false} IdentitiesAlike(es: seq<Element>, fs: seq<Element>, page: int)
    requires AllSameButRank(es, fs)
    ensures AllSameButRank(PageLocality.IdentitiesOn(es, page), PageLocality.IdentitiesOn(fs, page))
    decreases |es|
  {
    if es != [] {
      var n := |es| - 1;
      assert SameButRank(es[n], fs[n]);
      assert AllSameButRank(es[..n], fs[..n]);
      IdentitiesAlike(es[..n], fs[..n], page);
    }
  }

  /**
   Two jobs over different subsets, with ids of their own, give a page they share the same elements
   and table ids but for the rank of the table in a cell's path, and all of it if the second job's
   ids sort the page's tables as the first job's do.
   */
  lemma JobsAgreeOnAPage(
      a: seq<Block>, pagesA: seq<int>, b: seq<Block>, pagesB: seq<int>, page: int, f: BlockId -> BlockId)
    requires ElementIdentity.UniqueTableIds(a) && PageLocality.ChildrenOnOwnPage(a, pagesA) && Parsed(a, pagesA).Success?
    requires ElementIdentity.UniqueTableIds(b) && PageLocality.ChildrenOnOwnPage(b, pagesB) && Parsed(b, pagesB).Success?
    requires Injective(f)
    requires PageLocality.OnPage(b, pagesB, page) == Renamed(PageLocality.OnPage(a, pagesA, page), f)
    ensures var es := PageLocality.IdentitiesOn(Parsed(a, pagesA).value, page);
      var fs := PageLocality.IdentitiesOn(Parsed(b, pagesB).value, page);
      && AllSameButRank(es, fs)
      && (OrderKept(f, Pages(PageLocality.OnPage(a, pagesA, page), [])) ==> fs == es)
  {
    var here := PageLocality.OnPage(a, pagesA, page);
    PageLocality.PageLocal(a, pagesA, page);
    PageLocality.PageLocal(b, pagesB, page);
    FreshIdsKeepAllButTableRanks(here, [], f);
    var es, fs := Parsed(here, []).value, Parsed(Renamed(here, f), []).value;
    assert AllSameButRank(es, fs);
    IdentitiesAlike(es, fs, page);
    if OrderKept(f, Pages(here, [])) {
      FreshIdsKeepPathsIff(here, [], f);
      SamePathsSameElements(es, fs);
    }
  }

  lemma SamePathsSameElements(es: seq<Element>, fs: seq<Element>)
    requires AllSameButRank(es, fs) && SamePaths(es, fs)
    ensures fs == es
  {
    forall i | 0 <= i < |es|
      ensures fs[i] == es[i]
    {
      assert SameButRank(es[i], fs[i]);
    }
  }

  function TableOf(id: BlockId, cell: BlockId): Block {
    Block(id, TABLE, 1, [cell], "", 0, 0, false, None)
  }

  function CellAt(id: BlockId): Block {
    Block(id, CELL, 1, [], "101", 1, 1, false, None)
  }

  function Exchanged(id: BlockId): BlockId {
    if id == "a" then "b" else if id == "b" then "a" else id
  }

  lemma ExchangeIsInjective()
    ensures Injective(Exchanged)
  {
  }

  /** Two one-cell tables on a page: exchanging the ids of the tables moves a cell's path. */
  lemma FreshIdsCanMovePaths(blocks: seq<Block>)
    requires blocks == [TableOf("a", "c"), CellAt("c"), TableOf("b", "d"), CellAt("d")]
    ensures Injective(Exchanged)
    ensures Parsed(blocks, []).Success? && Parsed(Renamed(blocks, Exchanged), []).Success?
    ensures !SamePaths(Parsed(blocks, []).value, Parsed(Renamed(blocks, Exchanged), []).value)
  {
    ExchangeIsInjective();
    TwoTablesHaveCells(blocks);
    PageLocality.NothingUnmapped(blocks, true);
    PageLocality.NothingUnmapped(blocks, false);
    FreshIdsKeepPathsIff(blocks, [], Exchanged);
    OrderIsLost(Pages(blocks, []));
  }

  lemma OrderIsLost(pages: map<BlockId, int>)
    requires "a" in pages && "b" in pages && pages["a"] == pages["b"]
    ensures !OrderKept(Exchanged, pages)
  {
    assert Less("a", "b") && !Less("b", "a");
  }

  lemma TwoTablesHaveCells(blocks: seq<Block>)
    requires blocks == [TableOf("a", "c"), CellAt("c"), TableOf("b", "d"), CellAt("d")]
    ensures EveryTableHasACell(blocks, [])
    ensures "a" in Pages(blocks, []) && "b" in Pages(blocks, [])
    ensures Pages(blocks, [])["a"] == Pages(blocks, [])["b"]
  {
    ScanOfTwoTables(blocks[0], blocks[1], blocks[2], blocks[3]);
    var t := ScanTables(blocks, []);
    assert IsCellOf(t, blocks[1], "a") && IsCellOf(t, blocks[3], "b");
  }

  lemma AdoptOne(p: map<BlockId, BlockId>, child: BlockId, table: BlockId)
    ensures Adopted(p, [child], table) == p[child := table]
  {
    assert [child][..0] == [];
    assert Adopted(p, [], table) == p;
  }

  lemma ScanOfTwoTables(t: Block, c: Block, u: Block, d: Block)
    requires t.blockType == u.blockType == TABLE && c.blockType == d.blockType == CELL
    requires t.children == [c.id] && u.children == [d.id]
    ensures Pages([t, c, u, d], []) == map[t.id := t.page][u.id := u.page]
    ensures Parents([t, c, u, d]) == map[c.id := t.id][d.id := u.id]
  {
    assert [t, c, u, d][..3] == [t, c, u] && [t, c, u][..2] == [t, c] && [t, c][..1] == [t] && [t][..0] == [];
    AdoptOne(map[], c.id, t.id);
    AdoptOne(map[c.id := t.id], d.id, u.id);
    assert Parents([]) == map[] && Pages([], []) == map[];
    assert Parents([t]) == Adopted(Parents([t][..0]), t.children, t.id);
    assert Pages([t], []) == map[t.id := t.page];
    assert Pages([t, c, u], []) == Pages([t], [])[u.id := u.page];
    assert Parents([t, c]) == Parents([t]);
    assert Parents([t, c, u]) == Adopted(Parents([t, c]), u.children, u.id);
  }
}
