/** What generating a quote's lines promises. */
module DraftLaws {
  import opened Prelude
  import opened Sorting
  import Matching
  import opened Takeoff
  import opened MatchStore
  import opened MatchSafety
  import opened ReferenceData
  import opened Pricing
  import opened PricingLaws
  import opened Ledger
  import opened Assembly
  import opened AssemblyLaws
  import opened Redraft
  import opened Draft

  // The scheme the generator uses.

  /** Every line made is linked to its opening, and its id is only a name. */
  ghost predicate SoundScheme(scheme: Scheme) {
    && (forall planned, id, order :: scheme.make(planned, id, order).opening.Some?)
    && (forall planned, id, other, order ::
          scheme.make(planned, id, order).(id := other) == scheme.make(planned, other, order))
  }

  lemma SchemesAreSound(inputs: Inputs)
    ensures SoundScheme(SchemeOf(inputs))
  {
  }

  lemma {:induction false} NewLineAt(scheme: Scheme, plan: seq<Planned>, firstId: nat, n: nat, i: nat)
    requires i < n <= |plan|
    ensures NewLines(scheme, plan, firstId, n)[i] == scheme.make(plan[i], firstId + i, i + 1)
  {
    if i < n - 1 {
      NewLineAt(scheme, plan, firstId, n - 1, i);
    }
  }

  lemma {:induction false} NewRowsIgnoreIds(scheme: Scheme, plan: seq<Planned>, a: nat, b: nat, n: nat)
    requires SoundScheme(scheme) && n <= |plan|
    ensures SameButIds(NewLines(scheme, plan, a, n), NewLines(scheme, plan, b, n))
    ensures RowsOf(NewLines(scheme, plan, a, n)) == RowsOf(NewLines(scheme, plan, b, n))
  {
    var x, y := NewLines(scheme, plan, a, n), NewLines(scheme, plan, b, n);
    forall i | 0 <= i < n ensures x[i].(id := 0) == y[i].(id := 0) && x[i].row == y[i].row {
      NewLineAt(scheme, plan, a, n, i);
      NewLineAt(scheme, plan, b, n, i);
    }
  }

  ghost predicate SameButIds(a: seq<DraftLine>, b: seq<DraftLine>) {
    |a| == |b| && forall i :: 0 <= i < |a| ==> a[i].(id := 0) == b[i].(id := 0)
  }

  lemma CreatedAreGenerated(scheme: Scheme, openings: seq<Opening>, firstId: nat)
    requires SoundScheme(scheme)
    ensures AllGenerated(Created(scheme, openings, firstId))
  {
    var plan := FlatPlan(scheme, openings);
    forall i | 0 <= i < |plan| ensures IsGenerated(NewLines(scheme, plan, firstId, |plan|)[i]) {
      NewLineAt(scheme, plan, firstId, |plan|, i);
    }
  }

  // Which lines are whose.

  ghost predicate AllGenerated(lines: seq<DraftLine>) {
    forall i :: 0 <= i < |lines| ==> IsGenerated(lines[i])
  }

  ghost predicate AllHandAdded(lines: seq<DraftLine>) {
    forall i :: 0 <= i < |lines| ==> !IsGenerated(lines[i])
  }

  lemma HandAddedAreHandAdded(lines: seq<DraftLine>)
    ensures AllHandAdded(HandAdded(lines))
  {
    var p := (line: DraftLine) => !IsGenerated(line);
    forall i | 0 <= i < |HandAdded(lines)| ensures !IsGenerated(HandAdded(lines)[i]) {
      FilterKeepsOnly(lines, p, i);
    }
  }

  lemma Sorted3(k: seq<DraftLine>, c: seq<DraftLine>, f: seq<DraftLine>)
    requires AllHandAdded(k) && AllGenerated(c) && AllHandAdded(f)
    ensures Generated(k + c + f) == c && HandAdded(k + c + f) == k + f
  {
    var g, h := (line: DraftLine) => IsGenerated(line), (line: DraftLine) => !IsGenerated(line);
    FilterInParts(k + c, f, g);
    FilterInParts(k, c, g);
    FilterInParts(k + c, f, h);
    FilterInParts(k, c, h);
    FilterNone(k, g);
    FilterAll(c, g);
    FilterNone(f, g);
    FilterAll(k, h);
    FilterNone(c, h);
    FilterAll(f, h);
  }

  lemma WithRowsInParts(a: seq<DraftLine>, b: seq<DraftLine>, r: seq<LineRow>, s: seq<LineRow>)
    requires |a| == |r| && |b| == |s|
    ensures WithRows(a + b, r + s) == WithRows(a, r) + WithRows(b, s)
  {
  }

  lemma RowsInParts(a: seq<DraftLine>, b: seq<DraftLine>)
    ensures RowsOf(a + b) == RowsOf(a) + RowsOf(b)
  {
  }

  lemma RowsOfWithRows(lines: seq<DraftLine>, rows: seq<LineRow>)
    requires |lines| == |rows|
    ensures RowsOf(WithRows(lines, rows)) == rows
  {
  }

  /** Writing rows back changes no line's owner. */
  lemma WithRowsKeepsOwners(lines: seq<DraftLine>, rows: seq<LineRow>)
    requires |lines| == |rows|
    ensures AllGenerated(lines) ==> AllGenerated(WithRows(lines, rows))
    ensures AllHandAdded(lines) ==> AllHandAdded(WithRows(lines, rows))
  {
  }

  // The drafted quote, in three parts.

  /** The entries that count in a quote drafted from these parts. */
  function DraftEntries(kept: seq<DraftLine>, created: seq<DraftLine>, terms: Terms): seq<Entry<string>> {
    Entries(PricedRows(RowsOf(kept), terms)) + Entries(PricedRows(RowsOf(created), terms))
  }

  /** A part as it is stored. */
  function Stored(lines: seq<DraftLine>, terms: Terms, entries: seq<Entry<string>>): seq<DraftLine>
    requires Priceable(lines, terms)
  {
    SubLength(PricedRows(RowsOf(lines), terms), entries);
    WithRows(lines, Sub(PricedRows(RowsOf(lines), terms), entries))
  }

  lemma FreightForIsFreight(lines: seq<DraftLine>, amount: Option<int>, id: nat, order: int)
    ensures AllFreight(RowsOf(FreightFor(lines, amount, id, order)))
    ensures AllHandAdded(FreightFor(lines, amount, id, order))
  {
  }

  lemma DraftInParts(before: QuoteRow, kept: seq<DraftLine>, created: seq<DraftLine>, freight: seq<DraftLine>,
                     terms: Terms, totals: QuoteRow, lines: seq<DraftLine>)
    requires Priceable(kept + created + freight, terms) && AllFreight(RowsOf(freight))
    requires Assembles(before, kept + created + freight, terms, totals, lines)
    ensures Priceable(kept, terms) && Priceable(created, terms) && Priceable(freight, terms)
    ensures var e := DraftEntries(kept, created, terms);
      && lines == Stored(kept, terms, e) + Stored(created, terms, e) + Stored(freight, terms, e)
      && totals == Totalled(before, Sum(e), terms.tables.TaxRateOn(before.taxJurisdiction, terms.on))
  {
    var e := DraftEntries(kept, created, terms);
    RowsInParts(kept, created);
    RowsInParts(kept + created, freight);
    DraftedRows(RowsOf(kept), RowsOf(created), RowsOf(freight), terms);
    var k, c, f := Sub(PricedRows(RowsOf(kept), terms), e), Sub(PricedRows(RowsOf(created), terms), e),
                   Sub(PricedRows(RowsOf(freight), terms), e);
    SubLength(PricedRows(RowsOf(kept), terms), e);
    SubLength(PricedRows(RowsOf(created), terms), e);
    SubLength(PricedRows(RowsOf(freight), terms), e);
    assert RowsOf(lines) == k + c + f;
    WithRowsInParts(kept, created, k, c);
    WithRowsInParts(kept + created, freight, k + c, f);
  }

  /** `totals` and `after` are what a successful generation stores, `created` being the new lines. */
  ghost predicate Drafted(before: QuoteRow, lines: seq<DraftLine>, created: seq<DraftLine>, firstId: nat,
                          terms: Terms, totals: QuoteRow, after: seq<DraftLine>) {
    var unpriced := Unpriced(HandAdded(lines), created, before.freightAmount, firstId);
    Priceable(unpriced, terms) && Assembles(before, unpriced, terms, totals, after)
  }

  /**
   On success the lines linked to an opening are the created ones in plan order, and the others
   are those that were there with no opening, in their order, then the freight line if one was
   added.
   */
  lemma OwnersAfterDraft(before: QuoteRow, lines: seq<DraftLine>, created: seq<DraftLine>, firstId: nat,
                         terms: Terms, totals: QuoteRow, after: seq<DraftLine>)
    requires AllGenerated(created) && Drafted(before, lines, created, firstId, terms, totals, after)
    ensures var k := HandAdded(lines);
      var f := FreightFor(k + created, before.freightAmount, firstId + |created|, |created| + 1);
      var e := DraftEntries(k, created, terms);
      && Priceable(k, terms) && Priceable(created, terms) && Priceable(f, terms)
      && Generated(after) == Stored(created, terms, e)
      && HandAdded(after) == Stored(k, terms, e) + Stored(f, terms, e)
      && totals == Totalled(before, Sum(e), terms.tables.TaxRateOn(before.taxJurisdiction, terms.on))
  {
    var k := HandAdded(lines);
    var f := FreightFor(k + created, before.freightAmount, firstId + |created|, |created| + 1);
    FreightForIsFreight(k + created, before.freightAmount, firstId + |created|, |created| + 1);
    HandAddedAreHandAdded(lines);
    OwnersInParts(before, k, created, f, terms, totals, after);
  }

  lemma OwnersInParts(before: QuoteRow, kept: seq<DraftLine>, created: seq<DraftLine>, freight: seq<DraftLine>,
                      terms: Terms, totals: QuoteRow, after: seq<DraftLine>)
    requires AllHandAdded(kept) && AllGenerated(created) && AllHandAdded(freight) && AllFreight(RowsOf(freight))
    requires Priceable(kept + created + freight, terms)
    requires Assembles(before, kept + created + freight, terms, totals, after)
    ensures Priceable(kept, terms) && Priceable(created, terms) && Priceable(freight, terms)
    ensures var e := DraftEntries(kept, created, terms);
      && Generated(after) == Stored(created, terms, e)
      && HandAdded(after) == Stored(kept, terms, e) + Stored(freight, terms, e)
      && totals == Totalled(before, Sum(e), terms.tables.TaxRateOn(before.taxJurisdiction, terms.on))
  {
    DraftInParts(before, kept, created, freight, terms, totals, after);
    StoredOwners(kept, created, freight, terms, DraftEntries(kept, created, terms));
  }

  lemma StoredOwners(kept: seq<DraftLine>, created: seq<DraftLine>, freight: seq<DraftLine>, terms: Terms,
                     e: seq<Entry<string>>)
    requires AllHandAdded(kept) && AllGenerated(created) && AllHandAdded(freight)
    requires Priceable(kept, terms) && Priceable(created, terms) && Priceable(freight, terms)
    ensures var all := Stored(kept, terms, e) + Stored(created, terms, e) + Stored(freight, terms, e);
      && Generated(all) == Stored(created, terms, e)
      && HandAdded(all) == Stored(kept, terms, e) + Stored(freight, terms, e)
  {
    StoredKeepsOwners(kept, terms, e);
    StoredKeepsOwners(created, terms, e);
    StoredKeepsOwners(freight, terms, e);
    Sorted3(Stored(kept, terms, e), Stored(created, terms, e), Stored(freight, terms, e));
  }

  lemma StoredKeepsOwners(lines: seq<DraftLine>, terms: Terms, entries: seq<Entry<string>>)
    requires Priceable(lines, terms)
    ensures AllGenerated(lines) ==> AllGenerated(Stored(lines, terms, entries))
    ensures AllHandAdded(lines) ==> AllHandAdded(Stored(lines, terms, entries))
  {
    SubLength(PricedRows(RowsOf(lines), terms), entries);
    WithRowsKeepsOwners(lines, Sub(PricedRows(RowsOf(lines), terms), entries));
  }

  /** What storing changes of a line: only priced columns, and not a positive known cost. */
  ghost predicate SameLine(line: DraftLine, stored: DraftLine) {
    && stored == line.(row := stored.row)
    && stored.row.item == line.row.item && stored.row.openingDivision == line.row.openingDivision
    && stored.row.lineGroup == line.row.lineGroup && stored.row.quantity == line.row.quantity
    && stored.row.adders == line.row.adders
    && (line.row.lineGroup == FREIGHT || (line.row.cost.ourCost > 0 && !line.row.cost.source.Unknown?) ==>
          stored.row.cost.ourCost == line.row.cost.ourCost && stored.row.cost.source == line.row.cost.source)
    && (line.row.margining.overridden ==> stored.row.margining.margin == line.row.margining.margin)
  }

  lemma StoredLineIsTheLine(lines: seq<DraftLine>, terms: Terms, entries: seq<Entry<string>>, i: nat)
    requires Priceable(lines, terms) && i < |lines|
    ensures |Stored(lines, terms, entries)| == |lines| && SameLine(lines[i], Stored(lines, terms, entries)[i])
  {
    var rows := RowsOf(lines);
    SubAt(PricedRows(rows, terms), entries, i);
    PricedRowAt(rows, terms, |rows|, i);
    PricedRowIsTheLine(rows[i], terms);
  }

  lemma PricedRowIsTheLine(row: LineRow, terms: Terms)
    requires PriceError(row, terms).None?
    ensures var r := PricedRow(row, terms, false);
      && r.item == row.item && r.openingDivision == row.openingDivision && r.lineGroup == row.lineGroup
      && r.quantity == row.quantity && r.adders == row.adders
      && (row.lineGroup == FREIGHT || (row.cost.ourCost > 0 && !row.cost.source.Unknown?) ==>
            r.cost.ourCost == row.cost.ourCost && r.cost.source == row.cost.source)
      && (row.margining.overridden ==> r.margining.margin == row.margining.margin)
  {
  }

  /** The `i`-th line linked to an opening is the `i`-th of the plan, numbered from 1. */
  lemma GeneratedLinesAreThePlan(before: QuoteRow, lines: seq<DraftLine>, inputs: Inputs, firstId: nat,
                                 terms: Terms, totals: QuoteRow, after: seq<DraftLine>, i: nat)
    requires Drafted(before, lines, Created(SchemeOf(inputs), InDoorOrder(inputs.openings), firstId), firstId,
                     terms, totals, after)
    requires i < |FlatPlan(SchemeOf(inputs), InDoorOrder(inputs.openings))|
    ensures var plan := FlatPlan(SchemeOf(inputs), InDoorOrder(inputs.openings));
      && |Generated(after)| == |plan|
      && IsLineFor(inputs, plan[i], i + 1, Generated(after)[i])
  {
    var scheme, openings := SchemeOf(inputs), InDoorOrder(inputs.openings);
    var plan, c := FlatPlan(scheme, openings), Created(scheme, openings, firstId);
    SchemesAreSound(inputs);
    CreatedAreGenerated(scheme, openings, firstId);
    OwnersAfterDraft(before, lines, c, firstId, terms, totals, after);
    StoredLineIsTheLine(c, terms, DraftEntries(HandAdded(lines), c, terms), i);
    NewLineAt(scheme, plan, firstId, |plan|, i);
    assert c[i] == NewLine(inputs, plan[i], firstId + i, i + 1);
  }

  /** The line carries what was planned: opening, component, match, place, item and quantity. */
  ghost predicate IsLineFor(inputs: Inputs, planned: Planned, order: int, line: DraftLine) {
    && line.opening == Some(planned.opening) && line.component == IdOf(planned.component)
    && line.source == planned.choice && line.order == order
    && line.row.item == ItemOf(inputs, planned) && line.row.quantity == QuantityOf(planned.component)
    && line.row.lineGroup == GroupFor(line.row.item)
  }

  /** Hand-added lines come through with their quantity and positive cost. */
  lemma HandAddedLinesAreKept(before: QuoteRow, lines: seq<DraftLine>, created: seq<DraftLine>, firstId: nat,
                              terms: Terms, totals: QuoteRow, after: seq<DraftLine>, i: nat)
    requires AllGenerated(created) && Drafted(before, lines, created, firstId, terms, totals, after)
    requires i < |HandAdded(lines)|
    ensures i < |HandAdded(after)| && SameLine(HandAdded(lines)[i], HandAdded(after)[i])
  {
    var k := HandAdded(lines);
    OwnersAfterDraft(before, lines, created, firstId, terms, totals, after);
    StoredLineIsTheLine(k, terms, DraftEntries(k, created, terms), i);
  }

  // The freight line.

  function FreightCount(lines: seq<DraftLine>): nat {
    if lines == [] then 0
    else FreightCount(lines[..|lines| - 1]) + if lines[|lines| - 1].row.lineGroup == FREIGHT then 1 else 0
  }

  lemma {:induction false} SameGroupsSameCount(a: seq<DraftLine>, b: seq<DraftLine>)
    requires |a| == |b| && forall i :: 0 <= i < |a| ==> a[i].row.lineGroup == b[i].row.lineGroup
    ensures FreightCount(a) == FreightCount(b)
  {
    if a != [] {
      SameGroupsSameCount(a[..|a| - 1], b[..|b| - 1]);
    }
  }

  lemma {:induction false} CountInParts(a: seq<DraftLine>, b: seq<DraftLine>)
    ensures FreightCount(a + b) == FreightCount(a) + FreightCount(b)
  {
    if b == [] {
      assert a + b == a;
    } else {
      CountInParts(a, b[..|b| - 1]);
      assert (a + b)[..|a + b| - 1] == a + b[..|b| - 1];
    }
  }

  lemma {:induction false} HasFreightIffCounted(lines: seq<DraftLine>)
    ensures HasFreight(lines) <==> FreightCount(lines) > 0
  {
    if lines != [] {
      var rest := lines[..|lines| - 1];
      HasFreightIffCounted(rest);
      assert lines == rest + [lines[|lines| - 1]];
      if HasFreight(rest) {
        var i :| 0 <= i < |rest| && rest[i].row.lineGroup == FREIGHT;
        assert lines[i].row.lineGroup == FREIGHT;
      }
    }
  }

  lemma StoredKeepsCount(lines: seq<DraftLine>, terms: Terms, entries: seq<Entry<string>>)
    requires Priceable(lines, terms)
    ensures FreightCount(Stored(lines, terms, entries)) == FreightCount(lines)
  {
    SubLength(PricedRows(RowsOf(lines), terms), entries);
    forall i | 0 <= i < |lines| ensures Stored(lines, terms, entries)[i].row.lineGroup == lines[i].row.lineGroup {
      StoredLineIsTheLine(lines, terms, entries, i);
    }
    SameGroupsSameCount(Stored(lines, terms, entries), lines);
  }

  lemma FreightForCount(lines: seq<DraftLine>, amount: Option<int>, id: nat, order: int)
    ensures FreightCount(lines) + FreightCount(FreightFor(lines, amount, id, order))
      == if FreightCount(lines) == 0 then 1 else FreightCount(lines)
  {
    HasFreightIffCounted(lines);
  }

  /**
   The quote ends with exactly one freight line exactly when the hand-added lines and the created
   ones hold at most one between them: a missing one is added, surplus ones are not removed.
   */
  lemma ExactlyOneFreightLineIff(
      before: QuoteRow, lines: seq<DraftLine>, created: seq<DraftLine>, firstId: nat,
      terms: Terms, totals: QuoteRow, after: seq<DraftLine>)
    requires Drafted(before, lines, created, firstId, terms, totals, after)
    ensures FreightCount(after) == 1 <==> FreightCount(HandAdded(lines)) + FreightCount(created) <= 1
    ensures FreightCount(after) >= 1
  {
    var k := HandAdded(lines);
    var f := FreightFor(k + created, before.freightAmount, firstId + |created|, |created| + 1);
    FreightForIsFreight(k + created, before.freightAmount, firstId + |created|, |created| + 1);
    CountAfter(before, k, created, f, terms, totals, after);
    CountInParts(k, created);
    FreightForCount(k + created, before.freightAmount, firstId + |created|, |created| + 1);
  }

  /** Two freight lines entered by hand are both still there after generating, with or without openings. */
  lemma TwoFreightLinesStay(before: QuoteRow, lines: seq<DraftLine>, created: seq<DraftLine>, firstId: nat,
                            terms: Terms, totals: QuoteRow, after: seq<DraftLine>)
    requires lines == [FreightLine(None, 1, 1), FreightLine(None, 2, 2)]
    requires Drafted(before, lines, created, firstId, terms, totals, after)
    ensures FreightCount(after) >= 2
    ensures created == [] ==> FreightCount(after) == 2
  {
    FilterAll(lines, (line: DraftLine) => !IsGenerated(line));
    FreightForIsFreight(lines + created, before.freightAmount, firstId + |created|, |created| + 1);
    CountAfter(before, lines, created,
               FreightFor(lines + created, before.freightAmount, firstId + |created|, |created| + 1), terms, totals, after);
    CountInParts(lines, created);
    CountInParts([lines[0]], [lines[1]]);
    assert lines == [lines[0]] + [lines[1]];
    FreightForCount(lines + created, before.freightAmount, firstId + |created|, |created| + 1);
  }

  lemma CountAfter(before: QuoteRow, kept: seq<DraftLine>, created: seq<DraftLine>, freight: seq<DraftLine>,
                   terms: Terms, totals: QuoteRow, after: seq<DraftLine>)
    requires AllFreight(RowsOf(freight)) && Priceable(kept + created + freight, terms)
    requires Assembles(before, kept + created + freight, terms, totals, after)
    ensures FreightCount(after) == FreightCount(kept) + FreightCount(created) + FreightCount(freight)
  {
    var e := DraftEntries(kept, created, terms);
    DraftInParts(before, kept, created, freight, terms, totals, after);
    CountStored(kept, created, freight, terms, e);
  }

  lemma CountStored(kept: seq<DraftLine>, created: seq<DraftLine>, freight: seq<DraftLine>, terms: Terms,
                    e: seq<Entry<string>>)
    requires Priceable(kept, terms) && Priceable(created, terms) && Priceable(freight, terms)
    ensures FreightCount(Stored(kept, terms, e) + Stored(created, terms, e) + Stored(freight, terms, e))
      == FreightCount(kept) + FreightCount(created) + FreightCount(freight)
  {
    StoredKeepsCount(kept, terms, e);
    StoredKeepsCount(created, terms, e);
    StoredKeepsCount(freight, terms, e);
    CountOfThree(Stored(kept, terms, e), Stored(created, terms, e), Stored(freight, terms, e));
  }

  lemma CountOfThree(a: seq<DraftLine>, b: seq<DraftLine>, c: seq<DraftLine>)
    ensures FreightCount(a + b + c) == FreightCount(a) + FreightCount(b) + FreightCount(c)
  {
    CountInParts(a + b, c);
    CountInParts(a, b);
  }

  // Regeneration.

  /** Stored kept and freight lines hold a freight line whenever one was wanted, so none is added. */
  lemma NoSecondFreight(k: seq<DraftLine>, c: seq<DraftLine>, d: seq<DraftLine>, f: seq<DraftLine>,
                        terms: Terms, e: seq<Entry<string>>, amount: Option<int>, id: nat)
    requires Priceable(k, terms) && Priceable(f, terms)
    requires FreightCount(k) + FreightCount(c) + FreightCount(f) >= 1 && FreightCount(c) == FreightCount(d)
    ensures Unpriced(Stored(k, terms, e) + Stored(f, terms, e), d, amount, id)
      == Stored(k, terms, e) + Stored(f, terms, e) + d
  {
    CountOfThree(Stored(k, terms, e), Stored(f, terms, e), d);
    StoredKeepsCount(k, terms, e);
    StoredKeepsCount(f, terms, e);
    NothingAdded(Stored(k, terms, e) + Stored(f, terms, e), d, amount, id);
  }

  lemma NothingAdded(k: seq<DraftLine>, d: seq<DraftLine>, amount: Option<int>, id: nat)
    requires FreightCount(k + d) >= 1
    ensures Unpriced(k, d, amount, id) == k + d
  {
    HasFreightIffCounted(k + d);
    assert k + d + [] == k + d;
  }

  lemma SameLinesSameStored(a: seq<DraftLine>, b: seq<DraftLine>, terms: Terms, e: seq<Entry<string>>)
    requires SameButIds(a, b) && RowsOf(a) == RowsOf(b) && Priceable(a, terms)
    ensures Priceable(b, terms) && SameButIds(Stored(a, terms, e), Stored(b, terms, e))
  {
    SubLength(PricedRows(RowsOf(a), terms), e);
    var x, y := Stored(a, terms, e), Stored(b, terms, e);
    forall i | 0 <= i < |x| ensures x[i].(id := 0) == y[i].(id := 0) {
      assert a[i].(id := 0) == b[i].(id := 0);
    }
  }

  lemma {:induction false} SameRowsSameCount(a: seq<DraftLine>, b: seq<DraftLine>)
    requires RowsOf(a) == RowsOf(b)
    ensures FreightCount(a) == FreightCount(b)
  {
    forall i | 0 <= i < |a| ensures a[i].row.lineGroup == b[i].row.lineGroup {
      assert RowsOf(a)[i] == RowsOf(b)[i];
    }
    SameGroupsSameCount(a, b);
  }

  ghost predicate SameQuote(totals: QuoteRow, lines: seq<DraftLine>, totals': QuoteRow, lines': seq<DraftLine>) {
    totals' == totals && HandAdded(lines') == HandAdded(lines) && SameButIds(Generated(lines'), Generated(lines))
  }

  /** If the lines can be priced, `totals` and `after` are what assembling them stores. */
  ghost predicate StoredIfPriceable(
      before: QuoteRow, unpriced: seq<DraftLine>, terms: Terms, totals: QuoteRow, after: seq<DraftLine>)
  {
    Priceable(unpriced, terms) ==> Assembles(before, unpriced, terms, totals, after)
  }

  /** A generation: the totals and lines before, the lines created with ids from `firstId`, what is stored. */
  datatype Generation = Generation(
    before: QuoteRow, lines: seq<DraftLine>, created: seq<DraftLine>, firstId: nat, totals: QuoteRow, after: seq<DraftLine>)
  {
    function Unpriced(): seq<DraftLine> {
      Draft.Unpriced(HandAdded(lines), created, before.freightAmount, firstId)
    }
  }

  /**
   Regenerating with nothing changed gives the same quote: the same totals, the same hand-added
   lines, and the same generated lines up to their ids. It is not refused for pricing.
   */
  lemma RegeneratingChangesNothing(
      scheme: Scheme, openings: seq<Opening>, terms: Terms, g: Generation, again: Generation)
    requires SoundScheme(scheme)
    requires g.created == Created(scheme, openings, g.firstId)
    requires again.created == Created(scheme, openings, again.firstId)
    requires Priceable(g.Unpriced(), terms) && Assembles(g.before, g.Unpriced(), terms, g.totals, g.after)
    requires again.before == g.totals && again.lines == g.after
    requires StoredIfPriceable(again.before, again.Unpriced(), terms, again.totals, again.after)
    ensures Priceable(again.Unpriced(), terms) && SameQuote(g.totals, g.after, again.totals, again.after)
  {
    CreatedAreGenerated(scheme, openings, g.firstId);
    RecreatedLines(scheme, openings, g.firstId, again.firstId);
    SameCreatedSameQuote(terms, g, again);
  }

  lemma SameCreatedSameQuote(terms: Terms, g: Generation, again: Generation)
    requires AllGenerated(g.created) && AllGenerated(again.created)
    requires SameButIds(again.created, g.created) && RowsOf(again.created) == RowsOf(g.created)
    requires Priceable(g.Unpriced(), terms) && Assembles(g.before, g.Unpriced(), terms, g.totals, g.after)
    requires again.before == g.totals && again.lines == g.after
    requires StoredIfPriceable(again.before, again.Unpriced(), terms, again.totals, again.after)
    ensures Priceable(again.Unpriced(), terms) && SameQuote(g.totals, g.after, again.totals, again.after)
  {
    var k, c := HandAdded(g.lines), g.created;
    var f := FreightFor(k + c, g.before.freightAmount, g.firstId + |c|, |c| + 1);
    HandAddedAreHandAdded(g.lines);
    FreightPart(k, c, f, g.before.freightAmount, g.firstId + |c|, |c| + 1);
    OwnersInParts(g.before, k, c, f, terms, g.totals, g.after);
    RegeneratedFrom(g.before, k, c, f, again.created, terms, g.totals, g.after, again.firstId, again.totals, again.after);
  }

  lemma FreightPart(k: seq<DraftLine>, c: seq<DraftLine>, f: seq<DraftLine>, amount: Option<int>, id: nat, order: int)
    requires f == FreightFor(k + c, amount, id, order)
    ensures AllFreight(RowsOf(f)) && AllHandAdded(f)
    ensures FreightCount(k) + FreightCount(c) + FreightCount(f) >= 1
  {
    FreightForIsFreight(k + c, amount, id, order);
    SomeFreight(k, c, amount, id, order);
  }

  lemma RecreatedLines(scheme: Scheme, openings: seq<Opening>, firstId: nat, nextId: nat)
    requires SoundScheme(scheme)
    ensures var c, d := Created(scheme, openings, firstId), Created(scheme, openings, nextId);
      AllGenerated(d) && SameButIds(d, c) && RowsOf(d) == RowsOf(c)
  {
    var plan := FlatPlan(scheme, openings);
    NewRowsIgnoreIds(scheme, plan, nextId, firstId, |plan|);
    CreatedAreGenerated(scheme, openings, nextId);
  }

  lemma SomeFreight(k: seq<DraftLine>, c: seq<DraftLine>, amount: Option<int>, id: nat, order: int)
    ensures FreightCount(k) + FreightCount(c) + FreightCount(FreightFor(k + c, amount, id, order)) >= 1
  {
    CountInParts(k, c);
    FreightForCount(k + c, amount, id, order);
  }

  /** The step, for any first draft made of these parts. */
  lemma RegeneratedFrom(before: QuoteRow, k: seq<DraftLine>, c: seq<DraftLine>, f: seq<DraftLine>, d: seq<DraftLine>,
                        terms: Terms, totals: QuoteRow, after: seq<DraftLine>, nextId: nat,
                        totals': QuoteRow, after': seq<DraftLine>)
    requires Priceable(k, terms) && Priceable(c, terms) && Priceable(f, terms) && AllFreight(RowsOf(f))
    requires AllHandAdded(k) && AllHandAdded(f) && AllGenerated(d) && SameButIds(d, c) && RowsOf(d) == RowsOf(c)
    requires FreightCount(k) + FreightCount(c) + FreightCount(f) >= 1
    requires var e := DraftEntries(k, c, terms);
      && totals == Totalled(before, Sum(e), terms.tables.TaxRateOn(before.taxJurisdiction, terms.on))
      && Generated(after) == Stored(c, terms, e) && HandAdded(after) == Stored(k, terms, e) + Stored(f, terms, e)
    requires StoredIfPriceable(
      totals, Unpriced(HandAdded(after), d, totals.freightAmount, nextId), terms, totals', after')
    ensures Priceable(Unpriced(HandAdded(after), d, totals.freightAmount, nextId), terms)
    ensures SameQuote(totals, after, totals', after')
  {
    SameRowsSameCount(c, d);
    NoSecondFreight(k, c, d, f, terms, DraftEntries(k, c, terms), totals.freightAmount, nextId);
    RegeneratedParts(before, k, c, f, d, terms, totals, totals', after');
  }

  lemma RegeneratedParts(before: QuoteRow, k: seq<DraftLine>, c: seq<DraftLine>, f: seq<DraftLine>, d: seq<DraftLine>,
                         terms: Terms, totals: QuoteRow, totals': QuoteRow, after': seq<DraftLine>)
    requires Priceable(k, terms) && Priceable(c, terms) && Priceable(f, terms) && AllFreight(RowsOf(f))
    requires AllHandAdded(k) && AllHandAdded(f) && AllGenerated(d) && SameButIds(d, c) && RowsOf(d) == RowsOf(c)
    requires var e := DraftEntries(k, c, terms);
      var again := Stored(k, terms, e) + Stored(f, terms, e) + d;
      && totals == Totalled(before, Sum(e), terms.tables.TaxRateOn(before.taxJurisdiction, terms.on))
      && StoredIfPriceable(totals, again, terms, totals', after')
    ensures var e := DraftEntries(k, c, terms);
      && Priceable(Stored(k, terms, e) + Stored(f, terms, e) + d, terms) && totals' == totals
      && HandAdded(after') == Stored(k, terms, e) + Stored(f, terms, e)
      && SameButIds(Generated(after'), Stored(c, terms, e))
  {
    var e := DraftEntries(k, c, terms);
    RedraftInParts(k, c, f, d, terms, totals, totals', after');
    StoredKeepsOwners(k, terms, e);
    StoredKeepsOwners(f, terms, e);
    StoredKeepsOwners(d, terms, e);
    OwnersOfTwo(Stored(k, terms, e) + Stored(f, terms, e), Stored(d, terms, e));
    SameLinesSameStored(d, c, terms, e);
    TotalsAgain(before, Sum(e), terms.tables.TaxRateOn(before.taxJurisdiction, terms.on));
  }

  lemma OwnersOfTwo(k: seq<DraftLine>, c: seq<DraftLine>)
    requires AllHandAdded(k) && AllGenerated(c)
    ensures Generated(k + c) == c && HandAdded(k + c) == k
  {
    Sorted3(k, c, []);
    assert k + c + [] == k + c;
    assert k + [] == k;
  }

  /** The second draft, in parts: stored parts stay, and the new lines are stored as before. */
  lemma RedraftInParts(k: seq<DraftLine>, c: seq<DraftLine>, f: seq<DraftLine>, d: seq<DraftLine>,
                       terms: Terms, totals: QuoteRow, totals': QuoteRow, after': seq<DraftLine>)
    requires Priceable(k, terms) && Priceable(c, terms) && Priceable(f, terms) && AllFreight(RowsOf(f))
    requires RowsOf(c) == RowsOf(d)
    requires var e := DraftEntries(k, c, terms);
      var again := Stored(k, terms, e) + Stored(f, terms, e) + d;
      Priceable(again, terms) ==> Assembles(totals, again, terms, totals', after')
    ensures var e := DraftEntries(k, c, terms);
      && Priceable(d, terms) && Priceable(Stored(k, terms, e) + Stored(f, terms, e) + d, terms)
      && after' == Stored(k, terms, e) + Stored(f, terms, e) + Stored(d, terms, e)
      && totals' == Totalled(totals, Sum(e), terms.tables.TaxRateOn(totals.taxJurisdiction, terms.on))
  {
    var e := DraftEntries(k, c, terms);
    var rk, rc, rf := Sub(PricedRows(RowsOf(k), terms), e), Sub(PricedRows(RowsOf(c), terms), e),
                      Sub(PricedRows(RowsOf(f), terms), e);
    PricingInThreeParts(RowsOf(k), RowsOf(c), RowsOf(f), terms);
    RedraftedRows(RowsOf(k), RowsOf(c), RowsOf(f), terms);
    SubLength(PricedRows(RowsOf(k), terms), e);
    SubLength(PricedRows(RowsOf(c), terms), e);
    SubLength(PricedRows(RowsOf(f), terms), e);
    RowsInParts(Stored(k, terms, e), Stored(f, terms, e));
    RowsInParts(Stored(k, terms, e) + Stored(f, terms, e), d);
    RowsOfWithRows(k, rk);
    RowsOfWithRows(f, rf);
    assert RowsOf(Stored(k, terms, e) + Stored(f, terms, e) + d) == rk + rf + RowsOf(c);
    assert RowsOf(after') == rk + rf + rc;
    WithRowsInParts(Stored(k, terms, e), Stored(f, terms, e), rk, rf);
    WithRowsInParts(Stored(k, terms, e) + Stored(f, terms, e), d, rk + rf, rc);
    assert WithRows(Stored(k, terms, e), rk) == Stored(k, terms, e);
    assert WithRows(Stored(f, terms, e), rf) == Stored(f, terms, e);
  }

  // From match to quote.

  lemma {:induction false} DoorChoices(scheme: Scheme, opening: Opening, n: nat)
    requires n <= |scheme.hardware(opening)|
    ensures forall i :: 0 <= i < |DoorPlan(scheme, opening, n)| ==> IsChosen(scheme, DoorPlan(scheme, opening, n)[i])
  {
    if n > 0 {
      DoorChoices(scheme, opening, n - 1);
    }
  }

  ghost predicate IsChosen(scheme: Scheme, planned: Planned) {
    planned.choice == scheme.choose(planned.opening, planned.component)
  }

  lemma {:induction false} PlannedChoices(scheme: Scheme, openings: seq<Opening>, n: nat)
    requires n <= |openings|
    ensures forall i :: 0 <= i < |Flattened(scheme, openings, n)| ==> IsChosen(scheme, Flattened(scheme, openings, n)[i])
  {
    if n > 0 {
      PlannedChoices(scheme, openings, n - 1);
      DoorChoices(scheme, openings[n - 1], |scheme.hardware(openings[n - 1])|);
    }
  }

  lemma ChoicesAreMatches(inputs: Inputs, opening: nat, component: Option<Component>)
    ensures var m := ChoiceFor(inputs, opening, component);
      m.Some? ==> m.value in inputs.matches && IsFor(m.value, opening, IdOf(component))
                  && m.value.status in {Matching.ACCEPTED, Matching.PROPOSED}
  {
    var p := (m: MatchRow) => IsFor(m, opening, IdOf(component));
    BestMatchIsBest(Filter(inputs.matches, p));
    FilterMembers(inputs.matches, p);
  }

  /**
   Safety from match to quote. Over any history of matching runs, reviews and deletions, every
   catalogue item the generator places on a line comes from a match for that very opening and
   component that is accepted or proposed, and it satisfied the rating, handing and division
   demands it was matched against. A line without such a match has no item.
   */
  lemma PlacedItemsSuit(history: seq<Event>, before: QuoteRow, lines: seq<DraftLine>, inputs: Inputs, firstId: nat,
                        terms: Terms, totals: QuoteRow, after: seq<DraftLine>, i: nat)
    requires inputs.matches == After(history)
    requires Drafted(before, lines, Created(SchemeOf(inputs), InDoorOrder(inputs.openings), firstId), firstId,
                     terms, totals, after)
    requires i < |Generated(after)|
    ensures var line := Generated(after)[i];
      && (line.source.None? ==> line.row.item.None?)
      && (line.source.Some? ==>
            var m := line.source.value;
            && m in inputs.matches && m.status in {Matching.ACCEPTED, Matching.PROPOSED}
            && line.opening == Some(m.opening) && line.component == m.component
            && line.row.item == Some(inputs.catalog(m.item.id))
            && Matching.Suits(m.matchedFor, m.item.offer)
            && (m.matchedFor.rating.Some? || m.matchedFor.ratingAbsent)
            && (m.matchedFor.handing.Some? || m.matchedFor.handingAbsent))
  {
    var scheme, openings := SchemeOf(inputs), InDoorOrder(inputs.openings);
    var plan := FlatPlan(scheme, openings);
    SchemesAreSound(inputs);
    CreatedAreGenerated(scheme, openings, firstId);
    OwnersAfterDraft(before, lines, Created(scheme, openings, firstId), firstId, terms, totals, after);
    GeneratedLinesAreThePlan(before, lines, inputs, firstId, terms, totals, after, i);
    PlannedChoices(scheme, openings, |openings|);
    assert IsChosen(scheme, plan[i]);
    ChoicesAreMatches(inputs, plan[i].opening, plan[i].component);
    StoredRowsAreSound(history);
  }
}
