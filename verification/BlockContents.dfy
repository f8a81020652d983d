/** Which blocks the quote sheet shows, in which order, with which lines and figure. */
module BlockContents {
  import opened Prelude
  import opened Pricing
  import opened Ledger
  import opened Sorting
  import opened QuoteBlocks

  /** The section a line is shown under: its item's, else its opening's, else none; freight is under none of them. */
  predicate IsUnder(line: DisplayLine, section: string) {
    && line.row.lineGroup != FREIGHT
    && if line.row.item.Some? && |line.row.item.value.csiDivision| > 0 then section == line.row.item.value.csiDivision
       else if line.row.openingDivision.Some? then section == line.row.openingDivision.value
       else section == ""
  }

  lemma UnderIff(line: DisplayLine, section: string)
    ensures InSection(line, section) <==> IsUnder(line, section)
  {
  }

  lemma {:induction false} SectionBlockAt(lines: seq<DisplayLine>, sections: seq<string>, i: nat)
    requires i < |sections|
    ensures SectionBlocks(lines, sections)[i] == SectionBlock(lines, sections[i])
  {
    if i < |sections| - 1 {
      SectionBlockAt(lines, sections[..|sections| - 1], i);
    }
  }

  /** The first line under the section is the `k`-th. */
  ghost predicate FirstUnder(lines: seq<DisplayLine>, section: string, k: nat) {
    k < |lines| && IsUnder(lines[k], section) && forall j :: 0 <= j < k ==> !IsUnder(lines[j], section)
  }

  /** A section is on the list once its first line has come. */
  lemma ListedWhenFirst(lines: seq<DisplayLine>, n: nat, section: string, k: nat)
    requires n <= |lines| && FirstUnder(lines, section, k)
    ensures section in Sections(lines, n) <==> k < n
  {
    SectionsAreTheLines(lines, n);
    if section in Sections(lines, n) {
      var m :| 0 <= m < n && InSection(lines[m], section);
    }
  }

  lemma PlaceInBefore(before: seq<string>, after: seq<string>, j: nat)
    requires before <= after && |after| <= |before| + 1 && Distinct(after) && j < |after| && after[j] in before
    ensures j < |before|
  {
    var i :| 0 <= i < |before| && before[i] == after[j];
    assert after[i] == before[i];
  }

  lemma {:induction false} FirstLinesAscend(lines: seq<DisplayLine>, n: nat, i: nat, j: nat, k: nat, l: nat)
    requires n <= |lines| && i < j < |Sections(lines, n)|
    requires FirstUnder(lines, Sections(lines, n)[i], k) && FirstUnder(lines, Sections(lines, n)[j], l)
    ensures k < l
  {
    var before, after := Sections(lines, n - 1), Sections(lines, n);
    assert before <= after && before[i] == after[i];
    ListedWhenFirst(lines, n - 1, after[i], k);
    ListedWhenFirst(lines, n - 1, after[j], l);
    if l < n - 1 {
      SectionsAreTheLines(lines, n);
      PlaceInBefore(before, after, j);
      FirstLinesAscend(lines, n - 1, i, j, k, l);
    }
  }

  /** The block holds the lines under the section, in their order, and shows the first one's stored subtotal. */
  ghost predicate IsBlockOf(block: Block, ordered: seq<DisplayLine>, section: string) {
    && block.key == (if section == "" then "none" else section)
    && block.lines == Filter(ordered, (line: DisplayLine) => IsUnder(line, section)) && block.lines != []
    && block.subtotal == block.lines[0].row.figures.subtotal
  }

  function SheetSections(lines: seq<DisplayLine>): seq<string> {
    Sections(InOrder(lines), |lines|)
  }

  lemma SectionBlockIs(ordered: seq<DisplayLine>, section: string, i: nat)
    requires i < |ordered| && InSection(ordered[i], section)
    ensures IsBlockOf(SectionBlock(ordered, section), ordered, section)
  {
    SectionHasMembers(ordered, i);
    forall line ensures InSection(line, section) == IsUnder(line, section) {
      UnderIff(line, section);
    }
    SameFilter(ordered, line => InSection(line, section), (line: DisplayLine) => IsUnder(line, section));
  }

  /** Block by block: one for each section, in order of their first lines. */
  lemma SectionBlocksAre(lines: seq<DisplayLine>, i: nat, j: nat, k: nat, l: nat)
    requires i < |SheetSections(lines)|
    ensures i < |Blocks(lines)| && IsBlockOf(Blocks(lines)[i], InOrder(lines), SheetSections(lines)[i])
    ensures i < j < |SheetSections(lines)| ==> SheetSections(lines)[i] != SheetSections(lines)[j]
    ensures (i < j < |SheetSections(lines)| && FirstUnder(InOrder(lines), SheetSections(lines)[i], k)
             && FirstUnder(InOrder(lines), SheetSections(lines)[j], l)) ==> k < l
  {
    var ordered, sections := InOrder(lines), SheetSections(lines);
    SectionsAreTheLines(ordered, |ordered|);
    SectionBlockAt(ordered, sections, i);
    assert sections[i] in sections;
    var m :| 0 <= m < |ordered| && InSection(ordered[m], sections[i]);
    SectionBlockIs(ordered, sections[i], m);
    if i < j < |sections| && FirstUnder(ordered, sections[i], k) && FirstUnder(ordered, sections[j], l) {
      FirstLinesAscend(ordered, |ordered|, i, j, k, l);
    }
  }

  /** Every line that is not freight has its section's block, and the freight lines have the last one, if there are any. */
  lemma EveryLineHasItsBlock(lines: seq<DisplayLine>, i: nat)
    requires i < |lines|
    ensures !IsFreight(lines[i]) ==> exists section :: section in SheetSections(lines) && IsUnder(lines[i], section)
    ensures var blocks, n := Blocks(lines), |SheetSections(lines)|;
      var freight := Filter(InOrder(lines), (line: DisplayLine) => line.row.lineGroup == FREIGHT);
      && |blocks| == n + (if freight == [] then 0 else 1)
      && (freight != [] ==> blocks[n] == Block("FREIGHT", freight, freight[0].row.figures.subtotal))
  {
    var ordered := InOrder(lines);
    SectionsAreTheLines(ordered, |ordered|);
    SortKeepsMembers(lines, (line: DisplayLine) => line.lineOrder);
    assert lines[i] in ordered;
    var k :| 0 <= k < |ordered| && ordered[k] == lines[i];
    if !IsFreight(lines[i]) {
      var section := CsiDivision(lines[i].row);
      assert section in SheetSections(lines);
      UnderIff(lines[i], section);
    }
    SameFilter(ordered, line => IsFreight(line), (line: DisplayLine) => line.row.lineGroup == FREIGHT);
  }

  /** The sheet's order: by line order, equal ones as they came. */
  lemma SheetOrderIs(lines: seq<DisplayLine>, order: int)
    ensures var r := InOrder(lines);
      && |r| == |lines| && multiset(r) == multiset(lines)
      && (forall i, j :: 0 <= i < j < |r| ==> r[i].lineOrder <= r[j].lineOrder)
      && Filter(r, (line: DisplayLine) => line.lineOrder == order) == Filter(lines, (line: DisplayLine) => line.lineOrder == order)
  {
    var key := (line: DisplayLine) => line.lineOrder;
    SortKeepsElements(lines, key);
    SortIsSorted(lines, key);
    SortIsStable(lines, key, order, (line: DisplayLine) => line.lineOrder == order);
    var r := InOrder(lines);
    forall i, j | 0 <= i < j < |r| ensures r[i].lineOrder <= r[j].lineOrder {
      assert key(r[i]) <= key(r[j]);
    }
  }
}
