/** Which lines a generated quote has, and what each holds, stated on openings, components and matches. */
module DraftedLines {
  import opened Prelude
  import opened Sorting
  import Matching
  import opened Takeoff
  import opened MatchStore
  import MatchedRows
  import opened ReferenceData
  import opened Pricing
  import PricedLines
  import AssembledFigures
  import opened Ledger
  import opened Assembly
  import opened AssemblyLaws
  import opened Redraft
  import opened Draft
  import opened DraftLaws

  // Where a door's lines are.

  /** How many lines come before door `d`: one for each earlier door and each of its components. */
  function LinesBefore(inputs: Inputs, openings: seq<Opening>, d: nat): nat
    requires d <= |openings|
  {
    if d == 0 then 0 else LinesBefore(inputs, openings, d - 1) + 1 + |HardwareOf(inputs, openings[d - 1])|
  }

  /** Place 0 of a door's lines is the door itself, place `k` its `k`-th component. */
  function At(inputs: Inputs, opening: Opening, place: nat): Option<Component>
    requires place <= |HardwareOf(inputs, opening)|
  {
    if place == 0 then None else Some(HardwareOf(inputs, opening)[place - 1])
  }

  lemma {:induction false} DoorPlanAt(scheme: Scheme, opening: Opening, n: nat)
    requires n <= |scheme.hardware(opening)|
    ensures var plan := DoorPlan(scheme, opening, n);
      && |plan| == n + 1 && plan[0] == Planned(opening.id, None, scheme.choose(opening.id, None))
      && forall k :: 1 <= k <= n ==> plan[k] == PlannedPart(scheme, opening, k - 1)
  {
    if n > 0 {
      DoorPlanAt(scheme, opening, n - 1);
    }
  }

  function PlannedPart(scheme: Scheme, opening: Opening, k: nat): Planned
    requires k < |scheme.hardware(opening)|
  {
    var component := Some(scheme.hardware(opening)[k]);
    Planned(opening.id, component, scheme.choose(opening.id, component))
  }

  /** A door's plan sits in the whole plan from where the plan of the earlier doors ends. */
  lemma {:induction false} PlanAt(scheme: Scheme, openings: seq<Opening>, n: nat, d: nat)
    requires d < n <= |openings|
    ensures var start, door := |Flattened(scheme, openings, d)|, DoorPlan(scheme, openings[d], |scheme.hardware(openings[d])|);
      start + |door| <= |Flattened(scheme, openings, n)| && Flattened(scheme, openings, n)[start..start + |door|] == door
  {
    if d < n - 1 {
      PlanAt(scheme, openings, n - 1, d);
    }
  }

  lemma {:induction false} PlanLength(inputs: Inputs, openings: seq<Opening>, n: nat)
    requires n <= |openings|
    ensures |Flattened(SchemeOf(inputs), openings, n)| == LinesBefore(inputs, openings, n)
  {
    if n > 0 {
      PlanLength(inputs, openings, n - 1);
      DoorPlanAt(SchemeOf(inputs), openings[n - 1], |HardwareOf(inputs, openings[n - 1])|);
    }
  }

  /** What is planned for place `place` of a door. */
  function PlannedFor(scheme: Scheme, opening: Opening, place: nat): Planned
    requires place <= |scheme.hardware(opening)|
  {
    if place == 0 then Planned(opening.id, None, scheme.choose(opening.id, None)) else PlannedPart(scheme, opening, place - 1)
  }

  lemma PlannedAt(scheme: Scheme, openings: seq<Opening>, d: nat, place: nat, i: nat)
    requires d < |openings| && place <= |scheme.hardware(openings[d])| && i == |Flattened(scheme, openings, d)| + place
    ensures i < |FlatPlan(scheme, openings)| && FlatPlan(scheme, openings)[i] == PlannedFor(scheme, openings[d], place)
  {
    var start, n := |Flattened(scheme, openings, d)|, |scheme.hardware(openings[d])|;
    PlanAt(scheme, openings, |openings|, d);
    DoorPlanAt(scheme, openings[d], n);
    ElementOfSlice(FlatPlan(scheme, openings), start, DoorPlan(scheme, openings[d], n), place);
  }

  lemma ElementOfSlice<T>(s: seq<T>, start: nat, part: seq<T>, k: nat)
    requires start + |part| <= |s| && s[start..start + |part|] == part && k < |part|
    ensures s[start + k] == part[k]
  {
    assert s[start..start + |part|][k] == s[start + k];
  }

  // What a line holds.

  /** The matches for the door itself, or for a component of it. */
  function MatchesFor(inputs: Inputs, opening: nat, component: Option<Component>): seq<MatchRow> {
    MatchedRows.RowsFor(inputs.matches, opening, if component.Some? then Some(component.value.id) else None)
  }

  /**
   The line's match: the one of lowest rank among the accepted ones, or the proposed ones when none
   is accepted, of those for this opening and component; none when there is neither.
   */
  ghost predicate IsBest(source: Option<MatchRow>, matches: seq<MatchRow>) {
    && (source.Some? ==> Chosen(source.value, matches))
    && (source.None? ==> forall m :: m in matches ==> m.status != Matching.ACCEPTED && m.status != Matching.PROPOSED)
  }

  /** A line for the door, or for a component of it: one of each unless the component says how many. */
  ghost predicate IsLineOf(line: DraftLine, inputs: Inputs, opening: Opening, component: Option<Component>, order: int) {
    && line.opening == Some(opening.id) && line.order == order
    && (component.None? ==> line.component == None)
    && (component.Some? ==> line.component == Some(component.value.id))
    && line.row.quantity == (if component.Some? && component.value.quantity.Some? then component.value.quantity.value else 100)
    && IsBest(line.source, MatchesFor(inputs, opening.id, component))
    && (line.source.Some? ==>
          && line.row.item == Some(inputs.catalog(line.source.value.item.id))
          && line.row.lineGroup == inputs.catalog(line.source.value.item.id).lineGroup)
    && (line.source.None? ==> line.row.item == None && line.row.lineGroup == DOOR && line.row.cost.needsReview)
    && line.row.openingDivision == Some(inputs.divisionOf(opening.id)) && line.row.adders == []
  }

  /** `line` is the line made of what was planned, once priced. */
  ghost predicate MadeOf(inputs: Inputs, planned: Planned, id: nat, order: int, line: DraftLine) {
    var made := NewLine(inputs, planned, id, order);
    SameLine(made, line) && (made.row.item.None? ==> line.row.cost.needsReview)
  }

  lemma PlannedLine(inputs: Inputs, opening: Opening, place: nat, id: nat, order: int, line: DraftLine)
    requires place <= |HardwareOf(inputs, opening)|
    requires MadeOf(inputs, PlannedFor(SchemeOf(inputs), opening, place), id, order, line)
    ensures IsLineOf(line, inputs, opening, At(inputs, opening, place), order)
  {
    BestMatchIsBest(MatchesFor(inputs, opening.id, At(inputs, opening, place)));
  }

  /** A new line without an item comes out of pricing flagged for review. */
  lemma UnpricedIsFlagged(lines: seq<DraftLine>, terms: Terms, entries: seq<Entry<string>>, i: nat)
    requires Priceable(lines, terms) && i < |lines|
    requires lines[i].row.item.None? && lines[i].row.cost.ourCost == 0 && lines[i].row.lineGroup != FREIGHT
    ensures i < |Stored(lines, terms, entries)| && Stored(lines, terms, entries)[i].row.cost.needsReview
  {
    var rows := RowsOf(lines);
    SubAt(PricedRows(rows, terms), entries, i);
    PricedRowAt(rows, terms, |rows|, i);
    PricedLines.CostIs(rows[i], terms, false);
  }

  /** The lines made of a plan, numbered from 1. */
  ghost predicate AreMadeOf(inputs: Inputs, plan: seq<Planned>, firstId: nat, lines: seq<DraftLine>) {
    |lines| == |plan| && forall i :: 0 <= i < |plan| ==> MadeOf(inputs, plan[i], firstId + i, i + 1, lines[i])
  }

  lemma DraftGenerates(before: QuoteRow, lines: seq<DraftLine>, inputs: Inputs, firstId: nat, terms: Terms,
                       totals: QuoteRow, after: seq<DraftLine>)
    requires Drafted(before, lines, Created(SchemeOf(inputs), InDoorOrder(inputs.openings), firstId), firstId,
                     terms, totals, after)
    ensures AreMadeOf(inputs, FlatPlan(SchemeOf(inputs), InDoorOrder(inputs.openings)), firstId, Generated(after))
  {
    var scheme, openings := SchemeOf(inputs), InDoorOrder(inputs.openings);
    var c := Created(scheme, openings, firstId);
    var e := DraftEntries(HandAdded(lines), c, terms);
    SchemesAreSound(inputs);
    CreatedAreGenerated(scheme, openings, firstId);
    OwnersAfterDraft(before, lines, c, firstId, terms, totals, after);
    SubLength(PricedRows(RowsOf(c), terms), e);
    forall i | 0 <= i < |c|
      ensures MadeOf(inputs, FlatPlan(scheme, openings)[i], firstId + i, i + 1, Stored(c, terms, e)[i])
    {
      MadeLine(inputs, firstId, c, terms, e, i);
    }
  }

  lemma MadeLine(inputs: Inputs, firstId: nat, created: seq<DraftLine>, terms: Terms, e: seq<Entry<string>>, i: nat)
    requires created == Created(SchemeOf(inputs), InDoorOrder(inputs.openings), firstId)
    requires Priceable(created, terms) && i < |created|
    ensures i < |FlatPlan(SchemeOf(inputs), InDoorOrder(inputs.openings))| && i < |Stored(created, terms, e)|
    ensures MadeOf(inputs, FlatPlan(SchemeOf(inputs), InDoorOrder(inputs.openings))[i], firstId + i, i + 1, Stored(created, terms, e)[i])
  {
    var scheme, plan := SchemeOf(inputs), FlatPlan(SchemeOf(inputs), InDoorOrder(inputs.openings));
    StoredLineIsTheLine(created, terms, e, i);
    NewLineAt(scheme, plan, firstId, |plan|, i);
    assert created[i] == NewLine(inputs, plan[i], firstId + i, i + 1);
    if created[i].row.item.None? {
      UnpricedIsFlagged(created, terms, e, i);
    }
  }

  lemma PlaceInPlan(inputs: Inputs, openings: seq<Opening>, d: nat, place: nat, i: nat)
    requires d < |openings| && place <= |HardwareOf(inputs, openings[d])| && i == LinesBefore(inputs, openings, d) + place
    ensures i < |FlatPlan(SchemeOf(inputs), openings)|
    ensures FlatPlan(SchemeOf(inputs), openings)[i] == PlannedFor(SchemeOf(inputs), openings[d], place)
  {
    PlanLength(inputs, openings, d);
    PlannedAt(SchemeOf(inputs), openings, d, place, i);
  }

  lemma MadeAt(inputs: Inputs, plan: seq<Planned>, firstId: nat, generated: seq<DraftLine>, i: nat, opening: Opening, place: nat)
    requires AreMadeOf(inputs, plan, firstId, generated)
    requires i < |plan| && place <= |HardwareOf(inputs, opening)| && plan[i] == PlannedFor(SchemeOf(inputs), opening, place)
    ensures IsLineOf(generated[i], inputs, opening, At(inputs, opening, place), i + 1)
  {
    PlannedLine(inputs, opening, place, firstId + i, i + 1, generated[i]);
  }

  lemma LineAt(inputs: Inputs, openings: seq<Opening>, firstId: nat, generated: seq<DraftLine>, d: nat, place: nat, i: nat)
    requires AreMadeOf(inputs, FlatPlan(SchemeOf(inputs), openings), firstId, generated)
    requires d < |openings| && place <= |HardwareOf(inputs, openings[d])| && i == LinesBefore(inputs, openings, d) + place
    ensures |generated| == LinesBefore(inputs, openings, |openings|) && i < |generated|
    ensures IsLineOf(generated[i], inputs, openings[d], At(inputs, openings[d], place), i + 1)
  {
    PlanLength(inputs, openings, |openings|);
    PlaceInPlan(inputs, openings, d, place, i);
    MadeAt(inputs, FlatPlan(SchemeOf(inputs), openings), firstId, generated, i, openings[d], place);
  }

  /**
   The generated lines, door by door in door order: one line for the door, then one for each of its
   components, numbered from 1 through the whole quote.
   */
  lemma LinesAre(before: QuoteRow, lines: seq<DraftLine>, inputs: Inputs, firstId: nat, terms: Terms,
                 totals: QuoteRow, after: seq<DraftLine>, openings: seq<Opening>, d: nat, place: nat, i: nat)
    requires Drafted(before, lines, Created(SchemeOf(inputs), openings, firstId), firstId, terms, totals, after)
    requires openings == InDoorOrder(inputs.openings) && d < |openings|
    requires place <= |HardwareOf(inputs, openings[d])| && i == LinesBefore(inputs, openings, d) + place
    ensures |Generated(after)| == LinesBefore(inputs, openings, |openings|) && i < |Generated(after)|
    ensures IsLineOf(Generated(after)[i], inputs, openings[d], At(inputs, openings[d], place), i + 1)
  {
    DraftGenerates(before, lines, inputs, firstId, terms, totals, after);
    LineAt(inputs, openings, firstId, Generated(after), d, place, i);
  }

  /** Nothing is entered on the row but an item, a place and a quantity. */
  predicate IsBlank(row: LineRow, cost: int) {
    && row.adders == [] && row.cost.ourCost == cost && row.cost.source == MANUAL && row.cost.effectiveDate == None && !row.cost.isStale
    && row.cost.listPrice == None && row.cost.multiplier == None && row.cost.vendorMultiplier == None && row.cost.sheetVersion == ""
    && row.margining == Margining(0, false, None, false) && row.figures == Figures(0, 0, 0, 0)
  }

  lemma NewLinesAreBlank(inputs: Inputs, planned: Planned, id: nat, order: int, amount: Option<int>)
    ensures IsBlank(NewLine(inputs, planned, id, order).row, 0)
    ensures IsBlank(FreightLine(amount, id, order).row, if amount.Some? then 100 * amount.value else 0)
  {
  }

  /** The stored row is a blank row priced. */
  ghost predicate IsBlankPriced(stored: LineRow, terms: Terms, cost: int) {
    exists row: LineRow :: IsBlank(row, cost) && IsPricedFrom(stored, row, terms)
  }

  ghost predicate IsPricedFrom(stored: LineRow, row: LineRow, terms: Terms) {
    PriceError(row, terms).None? && stored == Resubtotalled(PricedRow(row, terms, false), stored.figures.subtotal)
  }

  lemma StoredIsPriced(lines: seq<DraftLine>, terms: Terms, entries: seq<Entry<string>>, i: nat)
    requires Priceable(lines, terms) && i < |lines|
    ensures i < |Stored(lines, terms, entries)| && IsPricedFrom(Stored(lines, terms, entries)[i].row, lines[i].row, terms)
  {
    var rows := RowsOf(lines);
    SubAt(PricedRows(rows, terms), entries, i);
    PricedRowAt(rows, terms, |rows|, i);
  }

  /** Every generated line is a blank one priced: its cost, margin and figures are what pricing makes of its item. */
  lemma GeneratedArePriced(before: QuoteRow, lines: seq<DraftLine>, inputs: Inputs, firstId: nat, terms: Terms,
                           totals: QuoteRow, after: seq<DraftLine>, i: nat)
    requires Drafted(before, lines, Created(SchemeOf(inputs), InDoorOrder(inputs.openings), firstId), firstId,
                     terms, totals, after)
    requires i < |Generated(after)|
    ensures IsBlankPriced(Generated(after)[i].row, terms, 0)
  {
    var scheme, openings := SchemeOf(inputs), InDoorOrder(inputs.openings);
    var c, plan := Created(scheme, openings, firstId), FlatPlan(scheme, openings);
    var e := DraftEntries(HandAdded(lines), c, terms);
    SchemesAreSound(inputs);
    CreatedAreGenerated(scheme, openings, firstId);
    OwnersAfterDraft(before, lines, c, firstId, terms, totals, after);
    SubLength(PricedRows(RowsOf(c), terms), e);
    StoredIsPriced(c, terms, e, i);
    CreatedIsBlank(inputs, plan, firstId, i);
    assert IsBlank(c[i].row, 0) && IsPricedFrom(Generated(after)[i].row, c[i].row, terms);
  }

  lemma CreatedIsBlank(inputs: Inputs, plan: seq<Planned>, firstId: nat, i: nat)
    requires i < |plan|
    ensures IsBlank(NewLines(SchemeOf(inputs), plan, firstId, |plan|)[i].row, 0)
  {
    NewLineAt(SchemeOf(inputs), plan, firstId, |plan|, i);
    NewLinesAreBlank(inputs, plan[i], firstId + i, i + 1, None);
  }

  /** A door's components: those of its group that are resolved, by index; none without a group. */
  lemma HardwareIs(inputs: Inputs, opening: Opening)
    ensures var hardware := HardwareOf(inputs, opening);
      && (forall c :: c in hardware <==> opening.group != "" && c in inputs.components && c.resolved && c.group == opening.group)
      && (forall j, k :: 0 <= j < k < |hardware| ==> hardware[j].index <= hardware[k].index)
      && (opening.group != "" ==>
            multiset(hardware) == multiset(Filter(inputs.components, (c: Component) => c.resolved && c.group == opening.group)))
  {
    MatchedRows.SetIs(inputs.components, opening.group);
  }

  /** Every opening has its place, in the order of door numbers, equal ones as they were read. */
  lemma DoorOrderIs(openings: seq<Opening>, rank: int)
    ensures var r := InDoorOrder(openings);
      && |r| == |openings| && multiset(r) == multiset(openings)
      && (forall i, j :: 0 <= i < j < |r| ==> r[i].doorRank <= r[j].doorRank)
      && Filter(r, (o: Opening) => o.doorRank == rank) == Filter(openings, (o: Opening) => o.doorRank == rank)
  {
    var key := (o: Opening) => o.doorRank;
    SortKeepsElements(openings, key);
    SortIsSorted(openings, key);
    SortIsStable(openings, key, rank, (o: Opening) => o.doorRank == rank);
    var r := InDoorOrder(openings);
    forall i, j | 0 <= i < j < |r| ensures r[i].doorRank <= r[j].doorRank {
      assert key(r[i]) <= key(r[j]);
    }
  }

  // The freight line and the refusals.

  ghost predicate SomeFreightIn(lines: seq<DraftLine>) {
    exists i :: 0 <= i < |lines| && lines[i].row.lineGroup == FREIGHT
  }

  /** An added freight line: the quote's freight amount or nothing, for one, and no item. */
  ghost predicate IsFreightLine(line: DraftLine, amount: Option<int>, order: int) {
    && line.row.lineGroup == FREIGHT && line.opening == None && line.component == None && line.source == None
    && line.row.item == None && line.row.quantity == 100 && line.order == order
    && line.row.cost.ourCost == (if amount.Some? then 100 * amount.value else 0)
  }

  /** A freight line is added, after the kept lines and numbered past the generated ones, exactly when there is none. */
  lemma FreightAddedIff(before: QuoteRow, lines: seq<DraftLine>, created: seq<DraftLine>, firstId: nat,
                        terms: Terms, totals: QuoteRow, after: seq<DraftLine>)
    requires AllGenerated(created) && Drafted(before, lines, created, firstId, terms, totals, after)
    ensures var k, h := HandAdded(lines), HandAdded(after);
      && |h| == |k| + (if SomeFreightIn(k) || SomeFreightIn(created) then 0 else 1)
      && (|h| > |k| ==> IsFreightLine(h[|k|], before.freightAmount, |created| + 1))
  {
    var k := HandAdded(lines);
    var f := FreightFor(k + created, before.freightAmount, firstId + |created|, |created| + 1);
    var e := DraftEntries(k, created, terms);
    OwnersAfterDraft(before, lines, created, firstId, terms, totals, after);
    FreightInParts(k, created);
    SubLength(PricedRows(RowsOf(k), terms), e);
    SubLength(PricedRows(RowsOf(f), terms), e);
    if f != [] {
      StoredLineIsTheLine(f, terms, e, 0);
    }
  }

  lemma FreightInParts(a: seq<DraftLine>, b: seq<DraftLine>)
    ensures HasFreight(a + b) <==> SomeFreightIn(a) || SomeFreightIn(b)
  {
    if SomeFreightIn(a) {
      var i :| 0 <= i < |a| && a[i].row.lineGroup == FREIGHT;
      assert (a + b)[i].row.lineGroup == FREIGHT;
    } else if SomeFreightIn(b) {
      var i :| 0 <= i < |b| && b[i].row.lineGroup == FREIGHT;
      assert (a + b)[|a| + i].row.lineGroup == FREIGHT;
    }
  }

  /** Generation goes through exactly on a draft whose lines may be replaced or have none to replace, when no line raises. */
  lemma RefusalIs(status: QuoteStatus, lines: seq<DraftLine>, replace: bool, unpriced: seq<DraftLine>, terms: Terms)
    ensures var refusal := Refusal(status, lines, replace, unpriced, terms);
      var generated := exists i :: 0 <= i < |lines| && lines[i].opening.Some?;
      && (refusal == Some(NotDraft) <==> status != DRAFT)
      && (refusal == Some(HasGeneratedLines) <==> status == DRAFT && generated && !replace)
      && (refusal == Some(CannotPrice) <==>
            status == DRAFT && (!generated || replace) && exists i :: 0 <= i < |unpriced| && PriceError(unpriced[i].row, terms).Some?)
  {
    FilterMembers(lines, (line: DraftLine) => IsGenerated(line));
    GeneratedIff(lines);
    AllPriceableIff(unpriced, terms);
  }

  lemma GeneratedIff(lines: seq<DraftLine>)
    ensures Generated(lines) != [] <==> exists i :: 0 <= i < |lines| && lines[i].opening.Some?
  {
    FilterMembers(lines, (line: DraftLine) => IsGenerated(line));
    if Generated(lines) != [] {
      assert Generated(lines)[0] in Generated(lines);
    }
    if i :| 0 <= i < |lines| && lines[i].opening.Some? {
      assert lines[i] in lines && lines[i] in Generated(lines);
    }
  }

  lemma AllPriceableIff(lines: seq<DraftLine>, terms: Terms)
    ensures Priceable(lines, terms) <==> forall i :: 0 <= i < |lines| ==> PriceError(lines[i].row, terms).None?
  {
    var rows := RowsOf(lines);
    AssembledFigures.AllPriceableIff(rows, terms);
    if AssembledFigures.NoneRaises(rows, terms) {
      forall i | 0 <= i < |lines| ensures PriceError(lines[i].row, terms).None? {
        assert PriceError(rows[i], terms).None?;
      }
    }
  }

  /** How many of a plan's lines have no match, and so are counted as needing review. */
  lemma {:induction false} FlaggedIs(plan: seq<Planned>)
    ensures Flagged(plan) == |set i | 0 <= i < |plan| && plan[i].choice.None?|
    decreases |plan|
  {
    var flagged := set i | 0 <= i < |plan| && plan[i].choice.None?;
    if plan == [] {
      assert flagged == {};
    } else {
      var rest := plan[..|plan| - 1];
      FlaggedIs(rest);
      var before := set i | 0 <= i < |rest| && rest[i].choice.None?;
      OneMorePlace(before, flagged, |rest|, plan[|rest|].choice.None?);
    }
  }
}
