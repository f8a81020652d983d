/**
 Building a quote's lines from openings and matches (backend/api/quotes/draft_ops.py).

 `Planned` is the flattening the code promises: each door in door order, its components beneath
 it. `GenerateLines` rebuilds the lines it owns, those linked to an opening, and leaves the rest.
 */
module Draft {
  import opened Prelude
  import opened Sorting
  import Matching
  import opened Takeoff
  import opened MatchStore
  import opened ReferenceData
  import opened Pricing
  import opened Ledger
  import opened Assembly

  datatype QuoteStatus = DRAFT | APPROVED | EXPORTED

  datatype DraftError = NotDraft | HasGeneratedLines | CannotPrice

  /** What a line is for, and the pricing row. Ids are minted when lines are created. */
  datatype DraftLine = DraftLine(
    id: nat, opening: Option<nat>, component: Option<nat>, source: Option<MatchRow>, order: int, row: LineRow)

  /** What the generator reads: openings, components, matches, and each item's and opening's pricing view. */
  datatype Inputs = Inputs(
    openings: seq<Opening>, components: seq<Component>, matches: seq<MatchRow>,
    catalog: nat -> CatalogItem, divisionOf: nat -> string)

  // The match a line is built from.

  function WithStatus(matches: seq<MatchRow>, status: Matching.MatchStatus): seq<MatchRow> {
    Filter(matches, (m: MatchRow) => m.status == status)
  }

  /** `min(rows, key=rank)`: the first of the lowest rank. */
  function LowestRank(rows: seq<MatchRow>): MatchRow
    requires rows != []
  {
    if |rows| == 1 then
      rows[0]
    else
      var before, last := LowestRank(rows[..|rows| - 1]), rows[|rows| - 1];
      if last.rank < before.rank then last else before
  }

  /** `_best_match`: an acceptance wins over any proposal; manual candidates are never taken. */
  function BestMatch(matches: seq<MatchRow>): Option<MatchRow> {
    var accepted := WithStatus(matches, Matching.ACCEPTED);
    var proposed := WithStatus(matches, Matching.PROPOSED);
    if accepted != [] then Some(LowestRank(accepted))
    else if proposed != [] then Some(LowestRank(proposed))
    else None
  }

  lemma {:induction false} LowestRankIsLowest(rows: seq<MatchRow>)
    requires rows != []
    ensures LowestRank(rows) in rows
    ensures forall i :: 0 <= i < |rows| ==> LowestRank(rows).rank <= rows[i].rank
  {
    if |rows| > 1 {
      var rest := rows[..|rows| - 1];
      LowestRankIsLowest(rest);
      assert forall i :: 0 <= i < |rest| ==> rest[i] == rows[i];
    }
  }

  /** The status a choice is made among: acceptances if there is one, else proposals. */
  predicate Chosen(m: MatchRow, matches: seq<MatchRow>) {
    && m in matches
    && (m.status == Matching.ACCEPTED
        || (m.status == Matching.PROPOSED && forall i :: 0 <= i < |matches| ==> matches[i].status != Matching.ACCEPTED))
    && (forall i :: 0 <= i < |matches| && matches[i].status == m.status ==> m.rank <= matches[i].rank)
  }

  /** The best match is of the best status there is and of the lowest rank in it; None iff neither. */
  lemma BestMatchIsBest(matches: seq<MatchRow>)
    ensures var r := BestMatch(matches);
      && (r.Some? ==> Chosen(r.value, matches))
      && (r.None? <==> forall m :: m in matches ==> m.status !in {Matching.ACCEPTED, Matching.PROPOSED})
  {
    var accepted := WithStatus(matches, Matching.ACCEPTED);
    var proposed := WithStatus(matches, Matching.PROPOSED);
    FilterMembers(matches, (m: MatchRow) => m.status == Matching.ACCEPTED);
    FilterMembers(matches, (m: MatchRow) => m.status == Matching.PROPOSED);
    if accepted != [] {
      LowestRankIsLowest(accepted);
      BestOfStatus(matches, Matching.ACCEPTED);
      assert accepted[0] in accepted;
    } else if proposed != [] {
      LowestRankIsLowest(proposed);
      BestOfStatus(matches, Matching.PROPOSED);
      assert proposed[0] in proposed;
      assert forall i :: 0 <= i < |matches| && matches[i].status == Matching.ACCEPTED ==> matches[i] in accepted;
    }
  }

  /** `m` is the first of those of its rank, and none has a lower one. */
  ghost predicate IsFirstOfRank(m: MatchRow, rows: seq<MatchRow>) {
    exists i :: 0 <= i < |rows| && rows[i] == m && IsLowestAt(rows, i)
  }

  ghost predicate IsLowestAt(rows: seq<MatchRow>, i: nat)
    requires i < |rows|
  {
    (forall j :: 0 <= j < i ==> rows[j].rank > rows[i].rank) && (forall j :: i <= j < |rows| ==> rows[j].rank >= rows[i].rank)
  }

  lemma {:induction false} LowestRankIsFirst(rows: seq<MatchRow>)
    requires rows != []
    ensures IsFirstOfRank(LowestRank(rows), rows)
  {
    var n := |rows| - 1;
    if n == 0 {
      assert IsLowestAt(rows, 0);
    } else {
      var rest := rows[..n];
      LowestRankIsFirst(rest);
      var i :| 0 <= i < n && rest[i] == LowestRank(rest) && IsLowestAt(rest, i);
      assert forall j :: 0 <= j < n ==> rest[j] == rows[j];
      if rows[n].rank < LowestRank(rest).rank {
        assert IsLowestAt(rows, n);
      } else {
        assert IsLowestAt(rows, i);
      }
    }
  }

  /** Of equally ranked matches of the chosen status the first is taken. */
  lemma TiesTakeTheFirst(matches: seq<MatchRow>)
    ensures var r := BestMatch(matches);
      r.Some? ==> IsFirstOfRank(r.value, Filter(matches, (m: MatchRow) => m.status == r.value.status))
  {
    var accepted, proposed := WithStatus(matches, Matching.ACCEPTED), WithStatus(matches, Matching.PROPOSED);
    BestMatchIsBest(matches);
    if accepted != [] {
      LowestRankIsFirst(accepted);
      LowestRankIsLowest(accepted);
      FilterMembers(matches, (m: MatchRow) => m.status == Matching.ACCEPTED);
    } else if proposed != [] {
      LowestRankIsFirst(proposed);
      LowestRankIsLowest(proposed);
      FilterMembers(matches, (m: MatchRow) => m.status == Matching.PROPOSED);
    }
  }

  lemma BestOfStatus(matches: seq<MatchRow>, status: Matching.MatchStatus)
    requires WithStatus(matches, status) != []
    ensures forall i :: 0 <= i < |matches| && matches[i].status == status ==>
      LowestRank(WithStatus(matches, status)).rank <= matches[i].rank
  {
    var rows := WithStatus(matches, status);
    LowestRankIsLowest(rows);
    forall i | 0 <= i < |matches| && matches[i].status == status ensures LowestRank(rows).rank <= matches[i].rank {
      FilterKeepsAll(matches, (m: MatchRow) => m.status == status, i);
      var j :| 0 <= j < |rows| && rows[j] == matches[i];
    }
  }

  // The plan: doors in order, each followed by its components.

  datatype Planned = Planned(opening: nat, component: Option<Component>, choice: Option<MatchRow>)

  function ChoiceFor(inputs: Inputs, opening: nat, component: Option<Component>): Option<MatchRow> {
    BestMatch(Filter(inputs.matches, (m: MatchRow) => IsFor(m, opening, IdOf(component))))
  }

  /** `_components_by_opening`: the resolved components of the opening's callout, none without one. */
  function HardwareOf(inputs: Inputs, opening: Opening): seq<Component> {
    if opening.group == "" then [] else ComponentsOf(inputs.components, opening.group)
  }

  // Lines.

  function GroupFor(item: Option<CatalogItem>): LineGroup {
    if item.Some? then item.value.lineGroup else DOOR
  }

  /** A new row: nothing entered but the quantity, nothing priced. */
  function BlankRow(item: Option<CatalogItem>, division: Option<string>, group: LineGroup, quantity: int,
                    cost: int, needsReview: bool): LineRow {
    LineRow(item, division, group, quantity, [],
            Costing(cost, MANUAL, None, false, None, None, None, "", needsReview),
            Margining(0, false, None, false), Figures(0, 0, 0, 0))
  }

  function ItemOf(inputs: Inputs, planned: Planned): Option<CatalogItem> {
    if planned.choice.Some? then Some(inputs.catalog(planned.choice.value.item.id)) else None
  }

  function QuantityOf(component: Option<Component>): int {
    if component.Some? && component.value.quantity.Some? then component.value.quantity.value else 100
  }

  /** `_create_line` */
  function NewLine(inputs: Inputs, planned: Planned, id: nat, order: int): DraftLine {
    var item := ItemOf(inputs, planned);
    DraftLine(id, Some(planned.opening), IdOf(planned.component), planned.choice, order,
              BlankRow(item, Some(inputs.divisionOf(planned.opening)), GroupFor(item),
                       QuantityOf(planned.component), 0, item.None?))
  }

  // The plan and the lines made of it.

  /** What the generator looks up and writes: a door's components, the match chosen, the line made. */
  datatype Scheme = Scheme(
    hardware: Opening -> seq<Component>,
    choose: (nat, Option<Component>) -> Option<MatchRow>,
    make: (Planned, nat, nat) -> DraftLine)

  function SchemeOf(inputs: Inputs): Scheme {
    Scheme((opening: Opening) => HardwareOf(inputs, opening),
           (opening: nat, component: Option<Component>) => ChoiceFor(inputs, opening, component),
           (planned: Planned, id: nat, order: nat) => NewLine(inputs, planned, id, order))
  }

  /** The door, then its first `n` components. */
  function DoorPlan(scheme: Scheme, opening: Opening, n: nat): seq<Planned>
    requires n <= |scheme.hardware(opening)|
  {
    if n == 0 then
      [Planned(opening.id, None, scheme.choose(opening.id, None))]
    else
      var component := Some(scheme.hardware(opening)[n - 1]);
      DoorPlan(scheme, opening, n - 1) + [Planned(opening.id, component, scheme.choose(opening.id, component))]
  }

  function InDoorOrder(openings: seq<Opening>): seq<Opening> {
    StableSort(openings, (o: Opening) => o.doorRank)
  }

  /** The first `n` doors of the project, flattened. */
  function Flattened(scheme: Scheme, openings: seq<Opening>, n: nat): seq<Planned>
    requires n <= |openings|
  {
    if n == 0 then
      []
    else
      var opening := openings[n - 1];
      Flattened(scheme, openings, n - 1) + DoorPlan(scheme, opening, |scheme.hardware(opening)|)
  }

  /** The whole plan. */
  function FlatPlan(scheme: Scheme, openings: seq<Opening>): seq<Planned> {
    Flattened(scheme, openings, |openings|)
  }

  /** The plan's first `n` lines, numbered from 1. */
  function NewLines(scheme: Scheme, plan: seq<Planned>, firstId: nat, n: nat): (r: seq<DraftLine>)
    requires n <= |plan|
    ensures |r| == n
  {
    if n == 0 then []
    else NewLines(scheme, plan, firstId, n - 1) + [scheme.make(plan[n - 1], firstId + n - 1, n)]
  }

  function FreightLine(amount: Option<int>, id: nat, order: int): DraftLine {
    DraftLine(id, None, None, None, order, BlankRow(None, None, FREIGHT, 100, 100 * OrZero(amount), false))
  }

  predicate HasFreight(lines: seq<DraftLine>) {
    exists i :: 0 <= i < |lines| && lines[i].row.lineGroup == FREIGHT
  }

  predicate IsGenerated(line: DraftLine) {
    line.opening.Some?
  }

  function Generated(lines: seq<DraftLine>): seq<DraftLine> {
    Filter(lines, (line: DraftLine) => IsGenerated(line))
  }

  function HandAdded(lines: seq<DraftLine>): seq<DraftLine> {
    Filter(lines, (line: DraftLine) => !IsGenerated(line))
  }

  function RowsOf(lines: seq<DraftLine>): (r: seq<LineRow>)
    ensures |r| == |lines|
  {
    seq(|lines|, i requires 0 <= i < |lines| => lines[i].row)
  }

  function WithRows(lines: seq<DraftLine>, rows: seq<LineRow>): (r: seq<DraftLine>)
    requires |lines| == |rows|
    ensures |r| == |lines|
  {
    seq(|lines|, i requires 0 <= i < |lines| => lines[i].(row := rows[i]))
  }

  /** The freight line to add to `lines`, if there is none. */
  function FreightFor(lines: seq<DraftLine>, amount: Option<int>, id: nat, order: int): seq<DraftLine> {
    if HasFreight(lines) then [] else [FreightLine(amount, id, order)]
  }

  function Created(scheme: Scheme, openings: seq<Opening>, firstId: nat): seq<DraftLine> {
    NewLines(scheme, FlatPlan(scheme, openings), firstId, |FlatPlan(scheme, openings)|)
  }

  /** The lines before pricing: kept, generated, and freight if there is none. */
  function Unpriced(kept: seq<DraftLine>, created: seq<DraftLine>, amount: Option<int>, firstId: nat): seq<DraftLine> {
    kept + created + FreightFor(kept + created, amount, firstId + |created|, |created| + 1)
  }

  /** How many planned lines have no item, and so need review. */
  function Flagged(plan: seq<Planned>): nat {
    if plan == [] then 0 else Flagged(plan[..|plan| - 1]) + if plan[|plan| - 1].choice.None? then 1 else 0
  }

  lemma {:induction false} NewLinesOfPrefix(scheme: Scheme, plan: seq<Planned>, more: seq<Planned>, firstId: nat, n: nat)
    requires n <= |plan|
    ensures NewLines(scheme, plan + more, firstId, n) == NewLines(scheme, plan, firstId, n)
  {
    if n > 0 {
      NewLinesOfPrefix(scheme, plan, more, firstId, n - 1);
    }
  }

  lemma OneMoreLine(scheme: Scheme, plan: seq<Planned>, planned: Planned, firstId: nat)
    ensures NewLines(scheme, plan + [planned], firstId, |plan| + 1)
      == NewLines(scheme, plan, firstId, |plan|) + [scheme.make(planned, firstId + |plan|, |plan| + 1)]
    ensures Flagged(plan + [planned]) == Flagged(plan) + if planned.choice.None? then 1 else 0
  {
    NewLinesOfPrefix(scheme, plan, [planned], firstId, |plan|);
    assert (plan + [planned])[..|plan|] == plan;
  }

  class QuoteDraft {
    var status: QuoteStatus
    var lines: seq<DraftLine>
    var totals: QuoteRow
    var nextId: nat

    /** `kept` lines, then the lines of `plan` as created so far. */
    ghost predicate HasCreated(kept: seq<DraftLine>, scheme: Scheme, plan: seq<Planned>, firstId: nat)
      reads this
    {
      lines == kept + NewLines(scheme, plan, firstId, |plan|) && nextId == firstId + |plan|
    }

    /** `_create_line`: 1 if the line needs attention. */
    method CreateLine(scheme: Scheme, planned: Planned, order: nat,
                      ghost kept: seq<DraftLine>, ghost plan: seq<Planned>, ghost firstId: nat)
      returns (flag: nat)
      requires HasCreated(kept, scheme, plan, firstId) && order == |plan| + 1
      modifies this`lines, this`nextId
      ensures HasCreated(kept, scheme, plan + [planned], firstId)
      ensures Flagged(plan + [planned]) == Flagged(plan) + flag
    {
      OneMoreLine(scheme, plan, planned, firstId);
      lines := lines + [scheme.make(planned, nextId, order)];
      nextId := nextId + 1;
      flag := if planned.choice.None? then 1 else 0;
    }

    /** One door and its components. */
    method CreateDoor(scheme: Scheme, opening: Opening, order: nat,
                      ghost kept: seq<DraftLine>, ghost plan: seq<Planned>, ghost firstId: nat)
      returns (last: nat, flagged: nat)
      requires HasCreated(kept, scheme, plan, firstId) && order == |plan|
      modifies this`lines, this`nextId
      ensures var all := plan + DoorPlan(scheme, opening, |scheme.hardware(opening)|);
        HasCreated(kept, scheme, all, firstId) && last == |all| && Flagged(all) == Flagged(plan) + flagged
    {
      var hardware := scheme.hardware(opening);
      last := order + 1;
      flagged := CreateLine(scheme, Planned(opening.id, None, scheme.choose(opening.id, None)), last, kept, plan, firstId);
      for n := 0 to |hardware|
        invariant var all := plan + DoorPlan(scheme, opening, n);
          HasCreated(kept, scheme, all, firstId) && last == |all| && Flagged(all) == Flagged(plan) + flagged
      {
        var component := Some(hardware[n]);
        var planned := Planned(opening.id, component, scheme.choose(opening.id, component));
        assert plan + DoorPlan(scheme, opening, n) + [planned] == plan + DoorPlan(scheme, opening, n + 1);
        last := last + 1;
        var flag := CreateLine(scheme, planned, last, kept, plan + DoorPlan(scheme, opening, n), firstId);
        flagged := flagged + flag;
      }
    }

    /** The loop over the doors. */
    method CreateDoors(scheme: Scheme, openings: seq<Opening>, ghost kept: seq<DraftLine>, ghost firstId: nat)
      returns (order: nat, flagged: nat)
      requires lines == kept && nextId == firstId
      modifies this`lines, this`nextId
      ensures var all := Flattened(scheme, openings, |openings|);
        HasCreated(kept, scheme, all, firstId) && order == |all| && flagged == Flagged(all)
    {
      order, flagged := 0, 0;
      for i := 0 to |openings|
        invariant var all := Flattened(scheme, openings, i);
          HasCreated(kept, scheme, all, firstId) && order == |all| && flagged == Flagged(all)
      {
        var more;
        order, more := CreateDoor(scheme, openings[i], order, kept, Flattened(scheme, openings, i), firstId);
        flagged := flagged + more;
      }
    }

    /** `_ensure_freight_line` */
    method EnsureFreightLine(order: nat)
      modifies this`lines, this`nextId
      ensures lines == old(lines) + FreightFor(old(lines), totals.freightAmount, old(nextId), order)
    {
      if !HasFreight(lines) {
        lines := lines + [FreightLine(totals.freightAmount, nextId, order)];
        nextId := nextId + 1;
      }
    }

    /** `assemble_quote`, as proved of the engine's method: all rows and totals, or an error. */
    method Reassemble(terms: Terms) returns (ok: bool)
      modifies this`lines, this`totals
      ensures ok <==> Priceable(old(lines), terms)
      ensures ok ==> Assembles(old(totals), old(lines), terms, totals, lines)
      ensures !ok ==> lines == old(lines) && totals == old(totals)
    {
      var rows := RowsOf(lines);
      ok := |PricedRows(rows, terms)| == |rows|;
      if ok {
        var (q, r) := Assembled(totals, rows, terms);
        totals := q;
        lines := WithRows(lines, r);
        assert RowsOf(lines) == r;
      }
    }

    /** The transaction of `generate_lines`: delete, create, add freight, assemble; or roll back. */
    method Rebuild(scheme: Scheme, openings: seq<Opening>, terms: Terms) returns (ok: bool)
      modifies this`lines, this`totals, this`nextId
      ensures var unpriced := Unpriced(HandAdded(old(lines)), Created(scheme, openings, old(nextId)),
                                       old(totals).freightAmount, old(nextId));
        && (ok <==> Priceable(unpriced, terms))
        && (ok ==> Assembles(old(totals), unpriced, terms, totals, lines))
        && (!ok ==> lines == old(lines) && totals == old(totals) && nextId == old(nextId))
    {
      var savedLines, savedId := lines, nextId;
      ghost var kept := HandAdded(lines);
      lines := HandAdded(lines);
      var order, flagged := CreateDoors(scheme, openings, kept, nextId);
      EnsureFreightLine(order + 1);
      assert lines == Unpriced(kept, Created(scheme, openings, savedId), totals.freightAmount, savedId);
      ok := Reassemble(terms);
      if !ok {
        lines, nextId := savedLines, savedId;
      }
    }

    /** `generate_lines`: refuses, or rebuilds the lines it owns. */
    method GenerateLines(scheme: Scheme, openings: seq<Opening>, replace: bool, terms: Terms)
      returns (error: Option<DraftError>)
      modifies this`lines, this`totals, this`nextId
      ensures var unpriced := Unpriced(HandAdded(old(lines)), Created(scheme, openings, old(nextId)),
                                       old(totals).freightAmount, old(nextId));
        && error == Refusal(status, old(lines), replace, unpriced, terms)
        && (error.None? ==> Assembles(old(totals), unpriced, terms, totals, lines))
        && (error.Some? ==> lines == old(lines) && totals == old(totals) && nextId == old(nextId))
    {
      if status != DRAFT {
        return Some(NotDraft);
      }
      if Generated(lines) != [] && !replace {
        return Some(HasGeneratedLines);
      }
      var ok := Rebuild(scheme, openings, terms);
      return if ok then None else Some(CannotPrice);
    }
  }

  predicate Priceable(lines: seq<DraftLine>, terms: Terms) {
    |PricedRows(RowsOf(lines), terms)| == |lines|
  }

  /** `totals` and `lines` are what assembling `unpriced` stores: the same lines, with priced rows. */
  ghost predicate Assembles(before: QuoteRow, unpriced: seq<DraftLine>, terms: Terms,
                            totals: QuoteRow, lines: seq<DraftLine>) {
    && |lines| == |unpriced| && lines == WithRows(unpriced, RowsOf(lines))
    && (totals, RowsOf(lines)) == Assembled(before, RowsOf(unpriced), terms)
  }

  /** Why generation changes nothing, if it does not. */
  function Refusal(status: QuoteStatus, lines: seq<DraftLine>, replace: bool, unpriced: seq<DraftLine>,
                   terms: Terms): Option<DraftError> {
    if status != DRAFT then Some(NotDraft)
    else if Generated(lines) != [] && !replace then Some(HasGeneratedLines)
    else if Priceable(unpriced, terms) then None
    else Some(CannotPrice)
  }
}
