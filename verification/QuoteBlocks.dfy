/**
 The blocks the quote sheet shows (`groupLines`, frontend/src/lib/quotes.ts) and the figure each
 shows: the stored subtotal of its first line. Blocks go by CSI section, stored subtotals by
 section or, for a line without one, by line group. The lemmas say exactly when the figure a
 block shows is the sum of the lines in it.
 */
module QuoteBlocks {
  import opened Prelude
  import opened Pricing
  import opened Ledger
  import opened Assembly
  import AssemblyLaws
  import opened Sorting

  datatype DisplayLine = DisplayLine(row: LineRow, lineOrder: int)

  datatype Block = Block(key: string, lines: seq<DisplayLine>, subtotal: int)

  /** `get_csi_division` of the API: the section, or the empty string. */
  function CsiDivision(row: LineRow): string {
    if row.item.Some? && row.item.value.csiDivision != "" then row.item.value.csiDivision
    else if row.openingDivision.Some? then row.openingDivision.value
    else ""
  }

  predicate IsFreight(line: DisplayLine) {
    line.row.lineGroup == FREIGHT
  }

  predicate InSection(line: DisplayLine, section: string) {
    !IsFreight(line) && CsiDivision(line.row) == section
  }

  /** The sections of the first `n` lines, in order of first appearance. */
  function Sections(lines: seq<DisplayLine>, n: nat): seq<string>
    requires n <= |lines|
  {
    if n == 0 then
      []
    else
      var before := Sections(lines, n - 1);
      var section := CsiDivision(lines[n - 1].row);
      if IsFreight(lines[n - 1]) || section in before then before else before + [section]
  }

  function Shown(members: seq<DisplayLine>): int {
    if members == [] then 0 else members[0].row.figures.subtotal
  }

  function Members(lines: seq<DisplayLine>, section: string): seq<DisplayLine> {
    Filter(lines, line => InSection(line, section))
  }

  function SectionBlock(lines: seq<DisplayLine>, section: string): Block {
    Block(if section == "" then "none" else section, Members(lines, section), Shown(Members(lines, section)))
  }

  function SectionBlocks(lines: seq<DisplayLine>, sections: seq<string>): (r: seq<Block>)
    ensures |r| == |sections|
  {
    if sections == [] then []
    else SectionBlocks(lines, sections[..|sections| - 1]) + [SectionBlock(lines, sections[|sections| - 1])]
  }

  function FreightLines(lines: seq<DisplayLine>): seq<DisplayLine> {
    Filter(lines, line => IsFreight(line))
  }

  function FreightBlocks(lines: seq<DisplayLine>): seq<Block> {
    if FreightLines(lines) == [] then [] else [Block("FREIGHT", FreightLines(lines), Shown(FreightLines(lines)))]
  }

  function InOrder(lines: seq<DisplayLine>): seq<DisplayLine> {
    StableSort(lines, (line: DisplayLine) => line.lineOrder)
  }

  /** One block a section, in order of first appearance, then the freight block if there is one. */
  function Blocks(lines: seq<DisplayLine>): seq<Block> {
    var ordered := InOrder(lines);
    SectionBlocks(ordered, Sections(ordered, |ordered|)) + FreightBlocks(ordered)
  }

  lemma {:induction false} SectionsAreTheLines(lines: seq<DisplayLine>, n: nat)
    requires n <= |lines|
    ensures Distinct(Sections(lines, n))
    ensures forall i :: 0 <= i < n && !IsFreight(lines[i]) ==> CsiDivision(lines[i].row) in Sections(lines, n)
    ensures forall s :: s in Sections(lines, n) ==> exists i :: 0 <= i < n && InSection(lines[i], s)
  {
    if n > 0 {
      SectionsAreTheLines(lines, n - 1);
      var section := CsiDivision(lines[n - 1].row);
      assert !IsFreight(lines[n - 1]) ==> InSection(lines[n - 1], section);
    }
  }

  lemma SectionHasMembers(lines: seq<DisplayLine>, i: nat)
    requires i < |lines| && !IsFreight(lines[i])
    ensures Members(lines, CsiDivision(lines[i].row)) != []
  {
    var section := CsiDivision(lines[i].row);
    FilterKeepsAll(lines, line => InSection(line, section), i);
  }

  lemma OneMoreSection(lines: seq<DisplayLine>, sections: seq<string>, section: string)
    ensures SectionBlocks(lines, sections + [section]) == SectionBlocks(lines, sections) + [SectionBlock(lines, section)]
  {
    assert (sections + [section])[..|sections|] == sections;
  }

  function Seen(sections: seq<string>): set<string> {
    set s | s in sections
  }

  /** What one line does to the blocks and to the sections seen. */
  lemma NextLine(lines: seq<DisplayLine>, i: nat)
    requires i < |lines|
    ensures var key, before, after := CsiDivision(lines[i].row), Sections(lines, i), Sections(lines, i + 1);
      if IsFreight(lines[i]) || key in Seen(before) then
        after == before
      else
        && Seen(after) == Seen(before) + {key} && Members(lines, key) != []
        && SectionBlocks(lines, after) == SectionBlocks(lines, before) + [SectionBlock(lines, key)]
  {
    var key, before := CsiDivision(lines[i].row), Sections(lines, i);
    if !IsFreight(lines[i]) && key !in before {
      SectionHasMembers(lines, i);
      OneMoreSection(lines, before, key);
    }
  }

  /** The block pushed for a section with lines. */
  method NewBlock(lines: seq<DisplayLine>, key: string) returns (block: Block)
    requires Members(lines, key) != []
    ensures block == SectionBlock(lines, key)
  {
    var members := Members(lines, key);
    block := Block(if key == "" then "none" else key, members, members[0].row.figures.subtotal);
  }

  /** The loop of `groupLines`: a block for each section not seen before. */
  method GroupSections(lines: seq<DisplayLine>) returns (groups: seq<Block>)
    ensures groups == SectionBlocks(lines, Sections(lines, |lines|))
  {
    groups := [];
    var seen: set<string> := {};
    for i := 0 to |lines|
      invariant seen == Seen(Sections(lines, i))
      invariant groups == SectionBlocks(lines, Sections(lines, i))
    {
      NextLine(lines, i);
      var key := CsiDivision(lines[i].row);
      if !IsFreight(lines[i]) && key !in seen {
        seen := seen + {key};
        var block := NewBlock(lines, key);
        groups := groups + [block];
      }
    }
  }

  method GroupLines(quoteLines: seq<DisplayLine>) returns (groups: seq<Block>)
    ensures groups == Blocks(quoteLines)
  {
    var lines := InOrder(quoteLines);
    groups := GroupSections(lines);
    var freight := FreightLines(lines);
    if |freight| > 0 {
      groups := groups + [Block("FREIGHT", freight, freight[0].row.figures.subtotal)];
    }
  }

  // The blocks partition the lines.

  function AllLines(blocks: seq<Block>): seq<DisplayLine> {
    if blocks == [] then [] else AllLines(blocks[..|blocks| - 1]) + blocks[|blocks| - 1].lines
  }

  function InSections(lines: seq<DisplayLine>, sections: seq<string>): seq<DisplayLine> {
    AllLines(SectionBlocks(lines, sections))
  }

  lemma MembersOfMore(lines: seq<DisplayLine>, line: DisplayLine, section: string)
    ensures Members(lines + [line], section)
      == Members(lines, section) + if InSection(line, section) then [line] else []
  {
    assert (lines + [line])[..|lines|] == lines;
  }

  lemma {:induction false} OneMoreLine(lines: seq<DisplayLine>, line: DisplayLine, sections: seq<string>)
    requires Distinct(sections)
    ensures multiset(InSections(lines + [line], sections)) == multiset(InSections(lines, sections))
      + if !IsFreight(line) && CsiDivision(line.row) in sections then multiset{line} else multiset{}
  {
    if sections != [] {
      var rest, last := sections[..|sections| - 1], sections[|sections| - 1];
      OneMoreLine(lines, line, rest);
      UnfoldSections(lines, sections);
      UnfoldSections(lines + [line], sections);
      MembersOfMore(lines, line, last);
      LastOrBefore(sections, CsiDivision(line.row));
    }
  }

  lemma LastOrBefore<T>(s: seq<T>, x: T)
    requires s != [] && Distinct(s)
    ensures x in s <==> x in s[..|s| - 1] || x == s[|s| - 1]
    ensures !(x in s[..|s| - 1] && x == s[|s| - 1])
  {
    assert s == s[..|s| - 1] + [s[|s| - 1]];
  }

  lemma UnfoldSections(lines: seq<DisplayLine>, sections: seq<string>)
    requires sections != []
    ensures InSections(lines, sections)
      == InSections(lines, sections[..|sections| - 1]) + Members(lines, sections[|sections| - 1])
  {
    var before := SectionBlocks(lines, sections[..|sections| - 1]);
    assert SectionBlocks(lines, sections)[..|before|] == before;
  }

  lemma {:induction false} NoLinesNoMembers(sections: seq<string>)
    ensures InSections([], sections) == []
  {
    if sections != [] {
      NoLinesNoMembers(sections[..|sections| - 1]);
      UnfoldSections([], sections);
    }
  }

  lemma FreightOfMore(lines: seq<DisplayLine>, line: DisplayLine)
    ensures FreightLines(lines + [line]) == FreightLines(lines) + if IsFreight(line) then [line] else []
  {
    assert (lines + [line])[..|lines|] == lines;
  }

  lemma {:induction false} SectionsSplitTheLines(lines: seq<DisplayLine>, sections: seq<string>)
    requires Distinct(sections)
    requires forall i :: 0 <= i < |lines| && !IsFreight(lines[i]) ==> CsiDivision(lines[i].row) in sections
    ensures multiset(InSections(lines, sections) + FreightLines(lines)) == multiset(lines)
  {
    if lines == [] {
      NoLinesNoMembers(sections);
    } else {
      var rest, last := lines[..|lines| - 1], lines[|lines| - 1];
      assert forall i :: 0 <= i < |rest| ==> rest[i] == lines[i];
      SectionsSplitTheLines(rest, sections);
      OneMoreLine(rest, last, sections);
      assert lines == rest + [last];
      FreightOfMore(rest, last);
    }
  }

  lemma LinesOfOneMore(blocks: seq<Block>, block: Block)
    ensures AllLines(blocks + [block]) == AllLines(blocks) + block.lines
  {
    assert (blocks + [block])[..|blocks|] == blocks;
  }

  /** Every line is in exactly one block, as often as it is on the quote. */
  lemma BlocksPartitionTheLines(lines: seq<DisplayLine>)
    ensures multiset(AllLines(Blocks(lines))) == multiset(lines)
  {
    var ordered := InOrder(lines);
    var sections := Sections(ordered, |ordered|);
    SectionsAreTheLines(ordered, |ordered|);
    SectionsSplitTheLines(ordered, sections);
    SortKeepsElements(lines, (line: DisplayLine) => line.lineOrder);
    LinesOfOneMore(SectionBlocks(ordered, sections), Block("FREIGHT", FreightLines(ordered), Shown(FreightLines(ordered))));
    assert SectionBlocks(ordered, sections) + [] == SectionBlocks(ordered, sections);
  }

  // What a block shows.

  /** What the lines with a property come to. */
  function SumWhere(lines: seq<DisplayLine>, p: DisplayLine -> bool): int {
    if lines == [] then
      0
    else
      var last := lines[|lines| - 1];
      SumWhere(lines[..|lines| - 1], p) + if p(last) then last.row.figures.extended else 0
  }

  lemma {:induction false} InsertAddsItsSum(x: DisplayLine, s: seq<DisplayLine>, key: DisplayLine -> int, p: DisplayLine -> bool)
    ensures SumWhere(Insert(x, s, key), p) == SumWhere(s, p) + if p(x) then x.row.figures.extended else 0
  {
    if s == [] || key(s[|s| - 1]) <= key(x) {
      assert (s + [x])[..|s|] == s;
    } else {
      var r := Insert(x, s[..|s| - 1], key);
      InsertAddsItsSum(x, s[..|s| - 1], key, p);
      assert (r + [s[|s| - 1]])[..|r|] == r;
    }
  }

  lemma {:induction false} SortKeepsSums(s: seq<DisplayLine>, key: DisplayLine -> int, p: DisplayLine -> bool)
    ensures SumWhere(StableSort(s, key), p) == SumWhere(s, p)
  {
    if s != [] {
      SortKeepsSums(s[..|s| - 1], key, p);
      InsertAddsItsSum(s[|s| - 1], StableSort(s[..|s| - 1], key), key, p);
    }
  }

  function RowsOf(lines: seq<DisplayLine>): (r: seq<LineRow>)
    ensures |r| == |lines|
  {
    seq(|lines|, i requires 0 <= i < |lines| => lines[i].row)
  }

  predicate CountsUnder(line: DisplayLine, key: string) {
    !IsFreight(line) && SubtotalKey(line.row) == key
  }

  lemma {:induction false} TotalForAsSum(lines: seq<DisplayLine>, key: string)
    ensures TotalFor(Entries(RowsOf(lines)), key) == SumWhere(lines, line => CountsUnder(line, key))
  {
    if lines != [] {
      TotalForAsSum(lines[..|lines| - 1], key);
      assert RowsOf(lines)[..|lines| - 1] == RowsOf(lines[..|lines| - 1]);
      var before := Entries(RowsOf(lines[..|lines| - 1]));
      var last := lines[|lines| - 1];
      assert (before + [Entry(SubtotalKey(last.row), last.row.figures.extended)])[..|before|] == before;
    }
  }

  lemma {:induction false} MembersSum(lines: seq<DisplayLine>, section: string)
    ensures SumWhere(Members(lines, section), line => true) == SumWhere(lines, line => InSection(line, section))
  {
    if lines != [] {
      MembersSum(lines[..|lines| - 1], section);
      var before := Members(lines[..|lines| - 1], section);
      assert (before + [lines[|lines| - 1]])[..|before|] == before;
    }
  }

  /** A line with no section, of the line group `name`. */
  predicate Unsectioned(line: DisplayLine, name: string) {
    InSection(line, "") && GroupName(line.row.lineGroup) == name
  }

  /** A line whose section is `name`. */
  predicate Sectioned(line: DisplayLine, name: string) {
    name != "" && InSection(line, name)
  }

  /** Under one key count the lines of that section and the unsectioned lines of a group so named. */
  lemma {:induction false} CountedUnderKey(lines: seq<DisplayLine>, key: string)
    ensures SumWhere(lines, line => CountsUnder(line, key))
      == SumWhere(lines, line => Sectioned(line, key)) + SumWhere(lines, line => Unsectioned(line, key))
  {
    if lines != [] {
      CountedUnderKey(lines[..|lines| - 1], key);
      KeyOfLine(lines[|lines| - 1], key);
    }
  }

  lemma KeyOfLine(line: DisplayLine, key: string)
    ensures CountsUnder(line, key) <==> Sectioned(line, key) || Unsectioned(line, key)
    ensures !(Sectioned(line, key) && Unsectioned(line, key))
  {
    assert GroupName(line.row.lineGroup) != "";
  }

  /** The stored subtotals of an assembled quote. */
  ghost predicate IsAssembled(lines: seq<DisplayLine>) {
    forall i :: 0 <= i < |lines| && !IsFreight(lines[i]) ==>
      lines[i].row.figures.subtotal == TotalFor(Entries(RowsOf(lines)), SubtotalKey(lines[i].row))
  }

  /** The lines that assembling a quote stores are assembled, whatever their order on the sheet. */
  lemma AssemblyIsAssembled(quote: QuoteRow, rows: seq<LineRow>, terms: Terms, lines: seq<DisplayLine>)
    requires RowsOf(lines) == Assembled(quote, rows, terms).1
    ensures IsAssembled(lines)
  {
    forall i | 0 <= i < |lines| && !IsFreight(lines[i])
      ensures lines[i].row.figures.subtotal == TotalFor(Entries(RowsOf(lines)), SubtotalKey(lines[i].row))
    {
      AssemblyLaws.SubtotalsAreSectionSums(quote, rows, terms, i);
      assert RowsOf(lines)[i] == lines[i].row;
    }
  }

  lemma FirstMember(lines: seq<DisplayLine>, section: string) returns (first: DisplayLine)
    requires Members(InOrder(lines), section) != []
    ensures first == Members(InOrder(lines), section)[0] && first in lines && InSection(first, section)
  {
    first := Members(InOrder(lines), section)[0];
    FilterKeepsOnly(InOrder(lines), line => InSection(line, section), 0);
    SortKeepsMembers(lines, (line: DisplayLine) => line.lineOrder);
  }

  lemma ShownTotal(lines: seq<DisplayLine>, section: string, first: DisplayLine)
    requires IsAssembled(lines) && first in lines && InSection(first, section)
    ensures first.row.figures.subtotal
      == SumWhere(lines, line => Sectioned(line, SubtotalKey(first.row)))
         + SumWhere(lines, line => Unsectioned(line, SubtotalKey(first.row)))
  {
    TotalForAsSum(lines, SubtotalKey(first.row));
    CountedUnderKey(lines, SubtotalKey(first.row));
  }

  lemma BlockSum(lines: seq<DisplayLine>, section: string)
    ensures SumWhere(Members(InOrder(lines), section), line => true) == SumWhere(lines, line => InSection(line, section))
  {
    MembersSum(InOrder(lines), section);
    SortKeepsSums(lines, (line: DisplayLine) => line.lineOrder, line => InSection(line, section));
  }

  lemma {:induction false} SameSum(lines: seq<DisplayLine>, p: DisplayLine -> bool, q: DisplayLine -> bool)
    requires forall line :: p(line) == q(line)
    ensures SumWhere(lines, p) == SumWhere(lines, q)
  {
    if lines != [] {
      SameSum(lines[..|lines| - 1], p, q);
    }
  }

  /**
   A section's block shows the sum of its lines exactly when the lines without a section in a
   line group of the same name come to nothing; so always, when no section is named like a group.
   */
  lemma SectionBlockShowsItsSumIff(lines: seq<DisplayLine>, section: string)
    requires IsAssembled(lines) && section != "" && Members(InOrder(lines), section) != []
    ensures SectionBlock(InOrder(lines), section).subtotal
        == SumWhere(Members(InOrder(lines), section), line => true)
      <==> SumWhere(lines, line => Unsectioned(line, section)) == 0
    ensures (forall group :: GroupName(group) != section) ==>
      SectionBlock(InOrder(lines), section).subtotal == SumWhere(Members(InOrder(lines), section), line => true)
  {
    var first := FirstMember(lines, section);
    assert SubtotalKey(first.row) == section;
    ShownTotal(lines, section, first);
    BlockSum(lines, section);
    SameSum(lines, line => Sectioned(line, section), line => InSection(line, section));
    if forall group :: GroupName(group) != section {
      NoneUnsectioned(lines, section);
    }
  }

  lemma {:induction false} NoneUnsectioned(lines: seq<DisplayLine>, section: string)
    requires forall group :: GroupName(group) != section
    ensures SumWhere(lines, line => Unsectioned(line, section)) == 0
  {
    if lines != [] {
      NoneUnsectioned(lines[..|lines| - 1], section);
    }
  }

  /** Lines with no section, of any line group but `name`. */
  predicate UnsectionedElsewhere(line: DisplayLine, name: string) {
    InSection(line, "") && GroupName(line.row.lineGroup) != name
  }

  lemma {:induction false} UnsectionedSplit(lines: seq<DisplayLine>, name: string)
    ensures SumWhere(lines, line => InSection(line, ""))
      == SumWhere(lines, line => Unsectioned(line, name)) + SumWhere(lines, line => UnsectionedElsewhere(line, name))
  {
    if lines != [] {
      UnsectionedSplit(lines[..|lines| - 1], name);
    }
  }

  /**
   The block of lines without a section shows its first line's line-group figure, which is the
   sum of its lines exactly when its lines of other groups come to as much as the lines of a
   section named like that group (so, with no such section, when they come to nothing).
   */
  lemma UnsectionedBlockShowsItsSumIff(lines: seq<DisplayLine>)
    requires IsAssembled(lines) && Members(InOrder(lines), "") != []
    ensures var name := GroupName(Members(InOrder(lines), "")[0].row.lineGroup);
      SectionBlock(InOrder(lines), "").subtotal == SumWhere(Members(InOrder(lines), ""), line => true)
      <==> SumWhere(lines, line => UnsectionedElsewhere(line, name)) == SumWhere(lines, line => Sectioned(line, name))
  {
    var first := FirstMember(lines, "");
    var name := GroupName(first.row.lineGroup);
    assert SubtotalKey(first.row) == name;
    ShownTotal(lines, "", first);
    BlockSum(lines, "");
    UnsectionedSplit(lines, name);
  }

  // The exported PDF, which groups by line group.

  predicate InGroup(line: DisplayLine, group: LineGroup) {
    line.row.lineGroup == group
  }

  /** A block of the PDF: the lines of one line group, shown with the stored subtotal of the first. */
  function PdfMembers(lines: seq<DisplayLine>, group: LineGroup): seq<DisplayLine> {
    Filter(lines, line => InGroup(line, group))
  }

  predicate CountsElsewhere(line: DisplayLine, key: string, group: LineGroup) {
    CountsUnder(line, key) && !InGroup(line, group)
  }

  predicate CountsOtherwise(line: DisplayLine, key: string, group: LineGroup) {
    InGroup(line, group) && !CountsUnder(line, key)
  }

  lemma {:induction false} GroupAndKey(lines: seq<DisplayLine>, key: string, group: LineGroup)
    ensures SumWhere(lines, line => CountsUnder(line, key)) - SumWhere(lines, line => CountsElsewhere(line, key, group))
      == SumWhere(lines, line => InGroup(line, group)) - SumWhere(lines, line => CountsOtherwise(line, key, group))
  {
    if lines != [] {
      GroupAndKey(lines[..|lines| - 1], key, group);
    }
  }

  lemma {:induction false} PdfMembersSum(lines: seq<DisplayLine>, group: LineGroup)
    ensures SumWhere(PdfMembers(lines, group), line => true) == SumWhere(lines, line => InGroup(line, group))
  {
    if lines != [] {
      PdfMembersSum(lines[..|lines| - 1], group);
      var before := PdfMembers(lines[..|lines| - 1], group);
      assert (before + [lines[|lines| - 1]])[..|before|] == before;
    }
  }

  /**
   Stored subtotals go by section and the PDF by line group, so a PDF block shows the sum of its
   lines exactly when its lines outside its first line's section come to as much as the lines of
   that section in other groups: in particular when group and section hold the same lines.
   */
  lemma PdfBlockShowsItsSumIff(lines: seq<DisplayLine>, group: LineGroup)
    requires IsAssembled(lines) && group != FREIGHT && PdfMembers(lines, group) != []
    ensures var key := SubtotalKey(PdfMembers(lines, group)[0].row);
      Shown(PdfMembers(lines, group)) == SumWhere(PdfMembers(lines, group), line => true)
      <==> (SumWhere(lines, line => CountsElsewhere(line, key, group))
            == SumWhere(lines, line => CountsOtherwise(line, key, group)))
  {
    var first := PdfMembers(lines, group)[0];
    FilterKeepsOnly(lines, line => InGroup(line, group), 0);
    TotalForAsSum(lines, SubtotalKey(first.row));
    GroupAndKey(lines, SubtotalKey(first.row), group);
    PdfMembersSum(lines, group);
  }

  /** A line without a catalogue item, storing `subtotal`. */
  function LineOf(group: LineGroup, division: Option<string>, extended: int, subtotal: int): DisplayLine {
    DisplayLine(
      LineRow(None, division, group, 100, [],
              Costing(100 * extended, MANUAL, None, false, None, None, None, "", false),
              Margining(0, false, None, false),
              Figures(0, 100 * extended, extended, subtotal)), 0)
  }

  lemma SumOfTwo(a: DisplayLine, b: DisplayLine, p: DisplayLine -> bool)
    ensures SumWhere([a, b], p)
      == (if p(a) then a.row.figures.extended else 0) + (if p(b) then b.row.figures.extended else 0)
  {
    assert [a, b][..1] == [a] && [a][..0] == [];
    assert SumWhere([a], p) == if p(a) then a.row.figures.extended else 0;
  }

  lemma TotalOfTwo(a: DisplayLine, b: DisplayLine, key: string)
    requires !IsFreight(a) && !IsFreight(b)
    ensures TotalFor(Entries(RowsOf([a, b])), key)
      == (if SubtotalKey(a.row) == key then a.row.figures.extended else 0)
         + (if SubtotalKey(b.row) == key then b.row.figures.extended else 0)
  {
    TotalForAsSum([a, b], key);
    SumOfTwo(a, b, line => CountsUnder(line, key));
  }

  lemma MembersOfTwo(a: DisplayLine, b: DisplayLine, section: string)
    requires InSection(a, section) && InSection(b, section) && a.lineOrder <= b.lineOrder
    ensures Members(InOrder([a, b]), section) == [a, b]
  {
    SortOfSorted([a, b], (line: DisplayLine) => line.lineOrder);
    MembersOfMore([], a, section);
    MembersOfMore([a], b, section);
    assert [] + [a] == [a] && [a] + [b] == [a, b];
  }

  /** Two unsectioned lines of 100.00 and 50.00 in two line groups: their block shows 100.00. */
  lemma UnsectionedBlockCanMislead(a: DisplayLine, b: DisplayLine)
    requires a == LineOf(DOOR, None, 10_000, 10_000) && b == LineOf(OTHER, None, 5_000, 5_000)
    ensures IsAssembled([a, b]) && Members(InOrder([a, b]), "") == [a, b]
    ensures SectionBlock(InOrder([a, b]), "").subtotal == 10_000
    ensures SumWhere(Members(InOrder([a, b]), ""), line => true) == 15_000
  {
    assert SubtotalKey(a.row) == "DOOR" && SubtotalKey(b.row) == "OTHER";
    assert "DOOR"[0] != "OTHER"[0];
    TotalOfTwo(a, b, "DOOR");
    TotalOfTwo(a, b, "OTHER");
    MembersOfTwo(a, b, "");
    SumOfTwo(a, b, line => true);
  }

  /** A section named "DOOR" with a line of 100.00, and an unsectioned door line of 50.00: its block shows 150.00. */
  lemma SectionBlockCanMislead(a: DisplayLine, b: DisplayLine)
    requires a == LineOf(OTHER, Some("DOOR"), 10_000, 15_000) && b == LineOf(DOOR, None, 5_000, 15_000)
    ensures IsAssembled([a, b]) && Members(InOrder([a, b]), "DOOR") == [a]
    ensures SectionBlock(InOrder([a, b]), "DOOR").subtotal == 15_000
    ensures SumWhere(Members(InOrder([a, b]), "DOOR"), line => true) == 10_000
  {
    TotalOfTwo(a, b, "DOOR");
    SortOfSorted([a, b], (line: DisplayLine) => line.lineOrder);
    MembersOfMore([], a, "DOOR");
    MembersOfMore([a], b, "DOOR");
    assert [] + [a] == [a] && [a] + [b] == [a, b];
    assert SumWhere([a], line => true) == SumWhere([a][..0], line => true) + 10_000;
  }

  /** Two door lines of 100.00 and 50.00 in two sections: the PDF's door block shows 100.00. */
  lemma PdfBlockCanMislead(a: DisplayLine, b: DisplayLine)
    requires a == LineOf(DOOR, Some("08"), 10_000, 10_000) && b == LineOf(DOOR, Some("10"), 5_000, 5_000)
    ensures IsAssembled([a, b]) && PdfMembers([a, b], DOOR) == [a, b]
    ensures Shown(PdfMembers([a, b], DOOR)) == 10_000
    ensures SumWhere(PdfMembers([a, b], DOOR), line => true) == 15_000
  {
    assert "08"[0] != "10"[0];
    TotalOfTwo(a, b, "08");
    TotalOfTwo(a, b, "10");
    FilterAll([a, b], line => InGroup(line, DOOR));
    SumOfTwo(a, b, line => true);
  }
}
