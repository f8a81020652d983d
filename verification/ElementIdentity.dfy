/**
 What normalisation promises about identities: paths and table ids are unique, a page's
 identities depend on that page alone, and fresh block ids change exactly what they can change.
 */
module ElementIdentity {
  import opened Prelude
  import opened BlockIds
  import opened Normalize
  import Digits

  // ------------------------------------------------------------------------
  // Uniqueness
  // ------------------------------------------------------------------------

  function PathType(path: ElementPath): ElementType {
    match path
    case PlainPath(_, elementType, _) => elementType
    case CellPath(_, _, _) => TableCell
  }

  /** Every element's path repeats its page and type, with an index the counter has passed. */
  ghost predicate Keyed(es: seq<Element>, blocks: seq<Block>, submitted: seq<int>) {
    forall e :: e in es ==>
      && e.path.page == e.pageNumber
      && PathType(e.path) == e.elementType
      && e.path.index < Count(blocks, submitted, e.pageNumber, e.elementType)
  }

  lemma {:induction false} ElementsAreKeyed(blocks: seq<Block>, submitted: seq<int>, tables: Tables)
    ensures Keyed(Elements(blocks, submitted, tables), blocks, submitted)
    ensures forall i, j :: 0 <= i < j < |Elements(blocks, submitted, tables)| ==>
      Elements(blocks, submitted, tables)[i].path != Elements(blocks, submitted, tables)[j].path
    decreases |blocks|
  {
    if blocks != [] {
      ElementsAreKeyed(blocks[..|blocks| - 1], submitted, tables);
    }
  }

  lemma SplitAtSlash(a: string, x: string, b: string, y: string)
    requires '/' !in a && '/' !in b && a + "/" + x == b + "/" + y
    ensures a == b && x == y
  {
    var s, t := a + "/" + x, b + "/" + y;
    assert s[|a|] == '/' && t[|b|] == '/';
    assert forall i :: 0 <= i < |a| ==> s[i] == a[i] != '/';
    assert forall i :: 0 <= i < |b| ==> t[i] == b[i] != '/';
    assert a == s[..|a|] && b == t[..|b|];
    assert x == s[|a| + 1..] && y == t[|b| + 1..];
  }

  lemma StrInjective(m: nat, n: nat)
    requires Digits.Str(m) == Digits.Str(n)
    ensures m == n
  {
    Digits.IntOfStr(m);
    Digits.IntOfStr(n);
  }

  lemma RenderInjective(p: ElementPath, q: ElementPath)
    requires p.Render() == q.Render()
    ensures p == q
  {
    SplitAtSlash("pages", Digits.StrOfInt(p.page) + "/" + p.Tail(), "pages", Digits.StrOfInt(q.page) + "/" + q.Tail());
    SplitAtSlash(Digits.StrOfInt(p.page), p.Tail(), Digits.StrOfInt(q.page), q.Tail());
    Digits.StrOfIntInjective(p.page, q.page);
    match (p, q)
    case (PlainPath(_, s, i), PlainPath(_, t, j)) =>
      SplitAtSlash(Plural(s), Digits.Str(i), Plural(t), Digits.Str(j));
      assert Plural(s)[0] == Plural(t)[0];
      StrInjective(i, j);
    case (CellPath(_, s, i), CellPath(_, t, j)) =>
      SplitAtSlash("tables", CellTail(s, i), "tables", CellTail(t, j));
      SplitAtSlash(Digits.Str(s), "cells" + "/" + Digits.Str(i), Digits.Str(t), "cells" + "/" + Digits.Str(j));
      SplitAtSlash("cells", Digits.Str(i), "cells", Digits.Str(j));
      StrInjective(s, t);
      StrInjective(i, j);
    case (PlainPath(_, s, i), CellPath(_, t, j)) =>
      SplitAtSlash(Plural(s), Digits.Str(i), "tables", CellTail(t, j));
    case (CellPath(_, s, i), PlainPath(_, t, j)) =>
      SplitAtSlash("tables", CellTail(s, i), Plural(t), Digits.Str(j));
  }

  /** No two elements of one normalisation share a path, whatever the blocks are. */
  lemma PathsAreDistinct(blocks: seq<Block>, submitted: seq<int>, i: nat, j: nat)
    requires Parsed(blocks, submitted).Success?
    requires i < j < |Parsed(blocks, submitted).value|
    ensures Parsed(blocks, submitted).value[i].path.Render() != Parsed(blocks, submitted).value[j].path.Render()
  {
    var es := Parsed(blocks, submitted).value;
    ElementsAreKeyed(blocks, submitted, ScanTables(blocks, submitted));
    if es[i].path.Render() == es[j].path.Render() {
      RenderInjective(es[i].path, es[j].path);
    }
  }

  /** TABLE blocks carry distinct ids, as one Textract result promises. */
  ghost predicate UniqueTableIds(blocks: seq<Block>) {
    forall i, j :: 0 <= i < j < |blocks| && blocks[i].blockType == TABLE && blocks[j].blockType == TABLE ==>
      blocks[i].id != blocks[j].id
  }

  ghost predicate NamesFit(names: map<BlockId, TableName>, pages: map<BlockId, int>) {
    && names.Keys == pages.Keys
    && (forall k :: k in names ==>
      names[k].page == pages[k] && names[k].ordinal < |TablesOnPage(pages, pages[k])|)
    && (forall k, l :: k in names && l in names && k != l ==> names[k] != names[l])
  }

  predicate IsTable(b: Block, id: BlockId, submitted: seq<int>, page: int) {
    b.blockType == TABLE && b.id == id && PageOf(b, submitted) == page
  }

  lemma KeyIsATable(blocks: seq<Block>, submitted: seq<int>, id: BlockId)
    requires id in Pages(blocks, submitted)
    ensures exists i :: 0 <= i < |blocks| && IsTable(blocks[i], id, submitted, Pages(blocks, submitted)[id])
    decreases |blocks|
  {
    var n := |blocks| - 1;
    var b := blocks[n];
    if b.blockType == TABLE && b.id == id {
      assert IsTable(blocks[n], id, submitted, Pages(blocks, submitted)[id]);
    } else {
      KeyIsATable(blocks[..n], submitted, id);
      var i :| 0 <= i < n && IsTable(blocks[..n][i], id, submitted, Pages(blocks[..n], submitted)[id]);
      assert IsTable(blocks[i], id, submitted, Pages(blocks, submitted)[id]);
    }
  }

  /** Distinct tables get distinct (page, ordinal) names, hence distinct version 5 UUIDs. */
  lemma {:induction false} TableNamesAreDistinct(blocks: seq<Block>, submitted: seq<int>)
    requires UniqueTableIds(blocks)
    ensures NamesFit(Names(blocks, submitted), Pages(blocks, submitted))
    decreases |blocks|
  {
    if blocks != [] {
      var n := |blocks| - 1;
      var b := blocks[n];
      TableNamesAreDistinct(blocks[..n], submitted);
      if b.blockType == TABLE {
        if b.id in Pages(blocks[..n], submitted) {
          KeyIsATable(blocks[..n], submitted, b.id);
        }
        OneMoreTable(Names(blocks[..n], submitted), Pages(blocks[..n], submitted), b.id, PageOf(b, submitted));
      }
    }
  }

  lemma OneMoreTable(names: map<BlockId, TableName>, pages: map<BlockId, int>, id: BlockId, page: int)
    requires NamesFit(names, pages) && id !in pages
    ensures NamesFit(names[id := TableName(page, |TablesOnPage(pages, page)|)], pages[id := page])
  {
    var pages' := pages[id := page];
    var names' := names[id := TableName(page, |TablesOnPage(pages, page)|)];
    forall k | k in names'
      ensures names'[k].page == pages'[k] && names'[k].ordinal < |TablesOnPage(pages', pages'[k])|
    {
      OrdinalFits(names, pages, id, page, k);
    }
    forall k, l | k in names' && l in names' && k != l
      ensures names'[k] != names'[l]
    {
      if k == id {
        NewNameIsNew(names, pages, page, l);
      } else if l == id {
        NewNameIsNew(names, pages, page, k);
      }
    }
  }

  lemma OrdinalFits(names: map<BlockId, TableName>, pages: map<BlockId, int>, id: BlockId, page: int, k: BlockId)
    requires NamesFit(names, pages) && id !in pages && (k in names || k == id)
    ensures var pages' := pages[id := page];
      var name := if k == id then TableName(page, |TablesOnPage(pages, page)|) else names[k];
      name.page == pages'[k] && name.ordinal < |TablesOnPage(pages', pages'[k])|
  {
    TablesOnPageAfter(pages, id, page, pages[id := page][k]);
  }

  lemma NewNameIsNew(names: map<BlockId, TableName>, pages: map<BlockId, int>, page: int, k: BlockId)
    requires NamesFit(names, pages) && k in names
    ensures names[k] != TableName(page, |TablesOnPage(pages, page)|)
  {
  }

  lemma TablesOnPageAfter(pages: map<BlockId, int>, id: BlockId, page: int, p: int)
    requires id !in pages
    ensures TablesOnPage(pages[id := page], p) ==
      if p == page then TablesOnPage(pages, p) + {id} else TablesOnPage(pages, p)
  {
  }

  /** Without unique ids the names collide: a repeated id takes the next table's ordinal. */
  lemma RepeatedTableIdCollides(t: Block, u: Block)
    requires t.blockType == TABLE && u.blockType == TABLE && t.id != u.id && t.page == u.page
    ensures {t.id, u.id} <= Names([t, t, u], []).Keys
    ensures Names([t, t, u], [])[t.id] == Names([t, t, u], [])[u.id]
  {
    PagesOfOne(t);
    assert [t, t][..1] == [t] && [t, t, u][..2] == [t, t];
    assert Pages([t, t], []) == Pages([t], []);
    assert TablesOnPage(Pages([t], []), t.page) == {t.id};
    assert Names([t, t], [])[t.id] == TableName(t.page, 1);
    assert Names([t, t, u], []) == Names([t, t], [])[u.id := TableName(u.page, 1)];
  }

  lemma PagesOfOne(t: Block)
    requires t.blockType == TABLE
    ensures Pages([t], []) == map[t.id := t.page]
  {
    assert [t][..0] == [];
    assert Pages([], []) == map[];
    assert Pages([t], []) == Pages([t][..0], [])[t.id := t.page];
  }
}
