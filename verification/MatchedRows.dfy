/**
 What a match run leaves in the table: the criteria openings and components are matched by, what
 each row holds, which rows a whole run leaves, where every stored row came from, and the counters.
 */
module MatchedRows {
  import opened Prelude
  import opened Sorting
  import opened Matching
  import opened CatalogIndex
  import opened Takeoff
  import opened MatchStore
  import opened MatchSafety

  // ------------------------------------------------------------------------
  // Criteria
  // ------------------------------------------------------------------------

  /** The constraints are the opening's, in Division 08, whatever is matched. */
  predicate DemandsOf(hard: Hard, opening: Opening) {
    && hard.division == Some("08") && hard.rating == opening.hard.rating && hard.ratingAbsent == opening.hard.ratingAbsent
    && hard.handing == opening.hard.handing && hard.handingAbsent == opening.hard.handingAbsent
  }

  predicate FinishOf(soft: Soft, opening: Opening) {
    if opening.finish.Some? then soft.finish == Some(opening.finish.value.0) && soft.baseMetal == opening.finish.value.1
    else soft.finish == None && soft.baseMetal == ""
  }

  /**
   A door is matched on its size and names no vendor or part; a component on its manufacturer and
   part number, and has no size of its own. Both take the opening's finish.
   */
  lemma CriteriaAre(opening: Opening, component: Option<Component>)
    ensures var criteria := CriteriaFor(opening, component);
      && DemandsOf(criteria.hard, opening) && FinishOf(criteria.soft, opening) && criteria.soft.series == ""
      && (component.None? ==>
            && criteria.soft.size == opening.size && criteria.soft.vendor == criteria.soft.partNumber == ""
            && criteria.soft.description == Join([opening.group, opening.sizeRaw, opening.finishRaw]))
      && (component.Some? ==>
            var c := component.value;
            && criteria.soft.size == None && criteria.soft.vendor == c.manufacturer && criteria.soft.partNumber == c.partNumber
            && criteria.soft.description == Join([c.description, c.manufacturer, c.partNumber, c.finishRaw]))
  {
  }

  lemma JoinOfOneMore(parts: seq<string>, last: string)
    requires last != ""
    ensures Join(parts + [last]) == if Join(parts) == "" then last else Join(parts) + " " + last
  {
    assert (parts + [last])[..|parts|] == parts;
  }

  lemma {:induction false} JoinIsNoBlank(parts: seq<string>)
    requires parts != [] && "" !in parts
    ensures Join(parts) != ""
  {
    assert parts[|parts| - 1] in parts;
  }

  lemma {:induction false} JoinOfMore(first: string, rest: seq<string>)
    requires first != "" && "" !in rest
    ensures Join([first] + rest) == if rest == [] then first else first + " " + Join(rest)
  {
    if rest == [] {
      JoinOfOneMore([], first);
      assert [first] + rest == [] + [first];
    } else {
      var before, last := rest[..|rest| - 1], rest[|rest| - 1];
      assert last in rest && forall x :: x in before ==> x in rest;
      JoinOfMore(first, before);
      JoinOfFirstAndLast(first, before, last);
      assert rest == before + [last];
    }
  }

  lemma JoinOfFirstAndLast(first: string, before: seq<string>, last: string)
    requires first != "" && last != "" && "" !in before
    requires Join([first] + before) == if before == [] then first else first + " " + Join(before)
    ensures Join([first] + (before + [last])) == first + " " + Join(before + [last])
  {
    JoinOfOneMore([first] + before, last);
    JoinOfOneMore(before, last);
    assert [first] + (before + [last]) == ([first] + before) + [last];
    if before == [] {
      assert Join(before) == "" && first != "";
    } else {
      JoinIsNoBlank(before);
      SpacesAssociate(first, Join(before), last);
    }
  }

  lemma SpacesAssociate(a: string, b: string, c: string)
    ensures (a + " " + b) + " " + c == a + " " + (b + " " + c)
    ensures a + " " + b != ""
  {
    assert |a + " " + b| > 0;
  }

  /** A description is its parts that are not blank, with a space between each two. */
  lemma {:induction false} JoinSkipsBlanks(parts: seq<string>)
    ensures Join(parts) == Join(Filter(parts, (part: string) => part != ""))
  {
    if parts != [] {
      var before, last := parts[..|parts| - 1], parts[|parts| - 1];
      JoinSkipsBlanks(before);
      var kept := Filter(before, (part: string) => part != "");
      assert (kept + [last])[..|kept|] == kept;
    }
  }

  // ------------------------------------------------------------------------
  // Rows
  // ------------------------------------------------------------------------

  /** The row holds candidate `k` of a result for this opening and component. */
  predicate HoldsCandidate(row: MatchRow, opening: Opening, component: Option<Component>, result: MatchResult, k: nat)
    requires k < |result.accepted|
  {
    var c := result.accepted[k];
    && row.opening == opening.id && (component.None? <==> row.component.None?)
    && (component.Some? ==> row.component.value == component.value.id)
    && row.item == c.item && row.confidence == c.confidence && row.isDirectEqual == c.isDirectEqual
    && row.rank == k + 1 && row.status == result.status && DemandsOf(row.matchedFor, opening)
  }

  /** The rows are the candidates of a result, best first. */
  ghost predicate HoldResult(rows: seq<MatchRow>, opening: Opening, component: Option<Component>, result: MatchResult) {
    |rows| == |result.accepted| && forall k :: 0 <= k < |rows| ==> HoldsCandidate(rows[k], opening, component, result, k)
  }

  function RowsFor(rows: seq<MatchRow>, opening: nat, component: Option<nat>): seq<MatchRow> {
    Filter(rows, (r: MatchRow) => IsFor(r, opening, component))
  }

  lemma RematchedRows(rows: seq<MatchRow>, plan: Plan, opening: Opening, component: Option<Component>)
    ensures var after := Rematched(rows, plan, opening, component);
      HoldResult(RowsFor(after, opening.id, IdOf(component)), opening, component, plan.results(opening, component))
  {
    var result := plan.results(opening, component);
    var mine, others := (r: MatchRow) => IsFor(r, opening.id, IdOf(component)),
                        (r: MatchRow) => !IsFor(r, opening.id, IdOf(component));
    var added := NewRows(opening, component, result, |result.accepted|);
    NewRowsAre(opening, component, result, |result.accepted|);
    PartOf(rows, added, mine, others);
  }

  lemma OtherTargets(rows: seq<MatchRow>, plan: Plan, opening: Opening, component: Option<Component>, id: nat, part: Option<nat>)
    requires id != opening.id || part != IdOf(component)
    ensures RowsFor(Rematched(rows, plan, opening, component), id, part) == RowsFor(rows, id, part)
  {
    var result := plan.results(opening, component);
    var mine, others := (r: MatchRow) => IsFor(r, id, part), (r: MatchRow) => !IsFor(r, opening.id, IdOf(component));
    var added := NewRows(opening, component, result, |result.accepted|);
    NewRowsAre(opening, component, result, |result.accepted|);
    FilterInParts(Filter(rows, others), added, mine);
    FilterNone(added, mine);
    FilterTwice(rows, others, mine);
  }

  ghost predicate DistinctParts(plan: Plan, opening: Opening) {
    forall j, k :: 0 <= j < k < |plan.SetOf(opening)| ==> plan.SetOf(opening)[j].id != plan.SetOf(opening)[k].id
  }

  /** Whether a target of the opening, the door or a component, is among the first `n` components. */
  ghost predicate IsTarget(plan: Plan, opening: Opening, component: Option<Component>, n: nat)
    requires n <= |plan.SetOf(opening)|
  {
    component.None? || exists k :: 0 <= k < n && component.value == plan.SetOf(opening)[k]
  }

  lemma {:induction false} ComponentTargets(rows: seq<MatchRow>, plan: Plan, opening: Opening, n: nat, component: Option<Component>)
    requires n <= |plan.SetOf(opening)| && DistinctParts(plan, opening)
    requires IsTarget(plan, opening, component, n)
    requires component.None? ==>
      HoldResult(RowsFor(rows, opening.id, None), opening, None, plan.results(opening, None))
    ensures HoldResult(RowsFor(AfterComponents(rows, plan, opening, n), opening.id, IdOf(component)),
                       opening, component, plan.results(opening, component))
  {
    if n > 0 {
      var before, last := AfterComponents(rows, plan, opening, n - 1), plan.SetOf(opening)[n - 1];
      if component == Some(last) {
        RematchedRows(before, plan, opening, component);
      } else {
        ComponentTargets(rows, plan, opening, n - 1, component);
        OtherTargets(before, plan, opening, Some(last), opening.id, IdOf(component));
      }
    }
  }

  lemma OpeningTargets(rows: seq<MatchRow>, plan: Plan, opening: Opening, component: Option<Component>)
    requires DistinctParts(plan, opening) && IsTarget(plan, opening, component, |plan.SetOf(opening)|)
    ensures HoldResult(RowsFor(AfterOpening(rows, plan, opening), opening.id, IdOf(component)),
                       opening, component, plan.results(opening, component))
  {
    RematchedRows(rows, plan, opening, None);
    ComponentTargets(Rematched(rows, plan, opening, None), plan, opening, |plan.SetOf(opening)|, component);
  }

  lemma {:induction false} OtherComponents(rows: seq<MatchRow>, plan: Plan, opening: Opening, n: nat, id: nat, part: Option<nat>)
    requires id != opening.id && n <= |plan.SetOf(opening)|
    ensures RowsFor(AfterComponents(rows, plan, opening, n), id, part) == RowsFor(rows, id, part)
  {
    if n > 0 {
      OtherComponents(rows, plan, opening, n - 1, id, part);
      OtherTargets(AfterComponents(rows, plan, opening, n - 1), plan, opening, Some(plan.SetOf(opening)[n - 1]), id, part);
    }
  }

  lemma OtherOpening(rows: seq<MatchRow>, plan: Plan, opening: Opening, id: nat, part: Option<nat>)
    requires id != opening.id
    ensures RowsFor(AfterOpening(rows, plan, opening), id, part) == RowsFor(rows, id, part)
  {
    OtherTargets(rows, plan, opening, None, id, part);
    OtherComponents(Rematched(rows, plan, opening, None), plan, opening, |plan.SetOf(opening)|, id, part);
  }

  /**
   A whole run leaves, for every opening and every resolved component of its group, exactly the
   candidates accepted for it, best first; and leaves openings it does not visit as they were.
   */
  lemma {:induction false} RunLeavesItsResults(rows: seq<MatchRow>, plan: Plan, n: nat, i: nat, component: Option<Component>)
    requires i < n <= |plan.openings| && DistinctOpenings(plan) && DistinctParts(plan, plan.openings[i])
    requires IsTarget(plan, plan.openings[i], component, |plan.SetOf(plan.openings[i])|)
    ensures HoldResult(RowsFor(AfterOpenings(rows, plan, n), plan.openings[i].id, IdOf(component)),
                       plan.openings[i], component, plan.results(plan.openings[i], component))
  {
    if i == n - 1 {
      OpeningTargets(AfterOpenings(rows, plan, n - 1), plan, plan.openings[i], component);
    } else {
      RunLeavesItsResults(rows, plan, n - 1, i, component);
      OtherOpening(AfterOpenings(rows, plan, n - 1), plan, plan.openings[n - 1], plan.openings[i].id, IdOf(component));
    }
  }

  /** The components of a group: those that are resolved and of that callout, by index. */
  lemma SetIs(components: seq<Component>, group: string)
    ensures var r := ComponentsOf(components, group);
      && (forall c :: c in r <==> c in components && c.resolved && c.group == group)
      && (forall j, k :: 0 <= j < k < |r| ==> r[j].index <= r[k].index)
      && multiset(r) == multiset(Filter(components, (c: Component) => c.resolved && c.group == group))
  {
    var inGroup := (c: Component) => c.resolved && c.group == group;
    var key := (c: Component) => c.index;
    FilterMembers(components, inGroup);
    SortKeepsMembers(Filter(components, inGroup), key);
    SortKeepsElements(Filter(components, inGroup), key);
    SortIsSorted(Filter(components, inGroup), key);
    var r := ComponentsOf(components, group);
    forall j, k | 0 <= j < k < |r| ensures r[j].index <= r[k].index {
      assert key(r[j]) <= key(r[k]);
    }
  }

  /** An item is offered when it is of the division asked for, or of none. */
  lemma OfferedIff(items: seq<Item>, division: Option<string>, item: Item)
    ensures item in Offered(items, division)
      <==> item in items && (division.None? || item.offer.division.None? || item.offer.division == division)
  {
    FilterMembers(items, (it: Item) => it.offer.division == division);
    FilterMembers(items, (it: Item) => it.offer.division == None);
  }

  // ------------------------------------------------------------------------
  // Origins
  // ------------------------------------------------------------------------

  /** The run matched the row's opening, or a component of its group, by that opening's constraints. */
  predicate CameFrom(row: MatchRow, run: Run, opening: Opening) {
    && opening in run.openings && row.opening == opening.id && DemandsOf(row.matchedFor, opening)
    && row.item in run.catalog
    && (row.component.Some? ==>
          exists c :: c in run.components && c.resolved && c.group == opening.group && row.component == Some(c.id))
  }

  ghost predicate FromRun(row: MatchRow, run: Run) {
    exists opening :: CameFrom(row, run, opening)
  }

  /** The row is of a match run of the history. */
  ghost predicate FromHistory(row: MatchRow, events: seq<Event>) {
    exists e :: 0 <= e < |events| && events[e].Matched? && FromRun(row, events[e].run)
  }

  lemma AcceptedIsOffered(run: Run, opening: Opening, component: Option<Component>, k: nat)
    requires k < |ResultFor(run, opening, component).accepted|
    ensures ResultFor(run, opening, component).accepted[k].item in run.catalog
  {
    var criteria, c := CriteriaFor(opening, component), ResultFor(run, opening, component).accepted[k];
    AcceptedItemsSuit(criteria, Offered(run.catalog, criteria.hard.division), run.settings, run.similarity, c);
    OfferedIff(run.catalog, criteria.hard.division, c.item);
  }

  lemma NewRowCameFrom(run: Run, opening: Opening, component: Option<Component>, k: nat)
    requires opening in run.openings && k < |ResultFor(run, opening, component).accepted|
    requires component.Some? ==> component.value in ComponentsOf(run.components, opening.group)
    ensures CameFrom(NewRow(opening, component, ResultFor(run, opening, component), k), run, opening)
  {
    AcceptedIsOffered(run, opening, component, k);
    SetIs(run.components, opening.group);
  }

  /** Every row written for the opening's door, or for a component of its set, has property `p`. */
  ghost predicate Yields(plan: Plan, opening: Opening, p: MatchRow -> bool) {
    forall component: Option<Component>, k ::
      ((component.Some? ==> component.value in plan.SetOf(opening))
       && 0 <= k < |plan.results(opening, component).accepted|) ==>
        p(NewRow(opening, component, plan.results(opening, component), k))
  }

  lemma RematchedOrigins(rows: seq<MatchRow>, plan: Plan, opening: Opening, component: Option<Component>,
                         p: MatchRow -> bool, row: MatchRow)
    requires Yields(plan, opening, p) && (component.Some? ==> component.value in plan.SetOf(opening))
    requires row in Rematched(rows, plan, opening, component)
    ensures row in rows || p(row)
  {
    var result := plan.results(opening, component);
    NewRowsAre(opening, component, result, |result.accepted|);
    FilterMembers(rows, (r: MatchRow) => !IsFor(r, opening.id, IdOf(component)));
  }

  lemma {:induction false} ComponentOrigins(rows: seq<MatchRow>, plan: Plan, opening: Opening, n: nat, p: MatchRow -> bool, row: MatchRow)
    requires n <= |plan.SetOf(opening)| && Yields(plan, opening, p)
    requires row in AfterComponents(rows, plan, opening, n)
    ensures row in rows || p(row)
  {
    if n > 0 {
      RematchedOrigins(AfterComponents(rows, plan, opening, n - 1), plan, opening, Some(plan.SetOf(opening)[n - 1]), p, row);
      if !p(row) {
        ComponentOrigins(rows, plan, opening, n - 1, p, row);
      }
    }
  }

  lemma {:induction false} OpeningOrigins(rows: seq<MatchRow>, plan: Plan, n: nat, p: MatchRow -> bool, row: MatchRow)
    requires n <= |plan.openings| && (forall i :: 0 <= i < n ==> Yields(plan, plan.openings[i], p))
    requires row in AfterOpenings(rows, plan, n)
    ensures row in rows || p(row)
  {
    if n > 0 && !p(row) {
      var before, opening := AfterOpenings(rows, plan, n - 1), plan.openings[n - 1];
      ComponentOrigins(Rematched(before, plan, opening, None), plan, opening, |plan.SetOf(opening)|, p, row);
      RematchedOrigins(before, plan, opening, None, p, row);
      OpeningOrigins(rows, plan, n - 1, p, row);
    }
  }

  lemma RunOrigins(rows: seq<MatchRow>, run: Run, row: MatchRow)
    requires row in AfterOpenings(rows, PlanOf(run), |run.openings|)
    ensures row in rows || FromRun(row, run)
  {
    var plan, p := PlanOf(run), (r: MatchRow) => exists opening :: opening in run.openings && CameFrom(r, run, opening);
    forall i | 0 <= i < |run.openings| ensures Yields(plan, run.openings[i], p) {
      RunYields(run, run.openings[i], p);
    }
    OpeningOrigins(rows, plan, |run.openings|, p, row);
  }

  lemma RunYields(run: Run, opening: Opening, p: MatchRow -> bool)
    requires opening in run.openings && forall r :: CameFrom(r, run, opening) ==> p(r)
    ensures Yields(PlanOf(run), opening, p)
  {
    var plan := PlanOf(run);
    forall component: Option<Component>, k | (component.Some? ==> component.value in plan.SetOf(opening))
      && 0 <= k < |plan.results(opening, component).accepted|
      ensures p(NewRow(opening, component, plan.results(opening, component), k))
    {
      assert plan.results(opening, component) == ResultFor(run, opening, component);
      NewRowCameFrom(run, opening, component, k);
    }
  }

  lemma ReviewedCameFrom(row: MatchRow, status: MatchStatus, events: seq<Event>)
    requires FromHistory(row, events)
    ensures FromHistory(row.(status := status), events)
  {
    var e :| 0 <= e < |events| && events[e].Matched? && FromRun(row, events[e].run);
    var opening :| CameFrom(row, events[e].run, opening);
    assert CameFrom(row.(status := status), events[e].run, opening);
  }

  lemma LongerHistory(row: MatchRow, before: seq<Event>, events: seq<Event>)
    requires FromHistory(row, before) && before <= events
    ensures FromHistory(row, events)
  {
    var e :| 0 <= e < |before| && before[e].Matched? && FromRun(row, before[e].run);
    assert events[e] == before[e];
  }

  /**
   Every stored row came from a match run of the history: from an opening that run visited, matched
   by that opening's rating and handing in Division 08, with an item of the run's catalogue, for the
   door or for a resolved component of the opening's group.
   */
  lemma {:induction false} EveryRowHasAnOrigin(events: seq<Event>, row: MatchRow)
    requires row in After(events)
    ensures FromHistory(row, events)
    decreases |events|
  {
    var n := |events| - 1;
    var before, rows := events[..n], After(events[..n]);
    match events[n]
    case Matched(run) =>
      RunOrigins(rows, run, row);
      if row in rows {
        EveryRowHasAnOrigin(before, row);
        LongerHistory(row, before, events);
      }
    case Reviewed(k, status) =>
      var was := if k < |rows| && row !in rows then rows[k] else row;
      EveryRowHasAnOrigin(before, was);
      LongerHistory(was, before, events);
      ReviewedCameFrom(was, row.status, events);
    case Deleted(k) =>
      EveryRowHasAnOrigin(before, row);
      LongerHistory(row, before, events);
  }

  // ------------------------------------------------------------------------
  // Counters
  // ------------------------------------------------------------------------

  predicate IsManual(plan: Plan, i: nat) {
    i < |plan.openings| && plan.results(plan.openings[i], None).status == MANUAL
  }

  lemma {:induction false} CountIs(plan: Plan, n: nat)
    requires n <= |plan.openings|
    ensures Count(plan, n, true) == |set i | 0 <= i < n && IsManual(plan, i)|
  {
    var manual := set i | 0 <= i < n && IsManual(plan, i);
    if n == 0 {
      assert manual == {};
    } else {
      CountIs(plan, n - 1);
      var before := set i | 0 <= i < n - 1 && IsManual(plan, i);
      assert manual == if IsManual(plan, n - 1) then before + {n - 1} else before;
    }
  }

  function Sum(amounts: seq<nat>): nat {
    if amounts == [] then 0 else amounts[0] + Sum(amounts[1..])
  }

  lemma {:induction false} SumOfAppend(amounts: seq<nat>, last: nat)
    ensures Sum(amounts + [last]) == Sum(amounts) + last
  {
    if amounts == [] {
      assert amounts + [last] == [last] && [last][1..] == [];
    } else {
      assert (amounts + [last])[1..] == amounts[1..] + [last];
      SumOfAppend(amounts[1..], last);
    }
  }

  /** How many components each of the first `n` openings has. */
  function Parts(plan: Plan, n: nat): seq<nat>
    requires n <= |plan.openings|
  {
    seq(n, i requires 0 <= i < n => |plan.SetOf(plan.openings[i])|)
  }

  /** How many were accepted for the first `n` components of an opening. */
  function PartRows(plan: Plan, opening: Opening, n: nat): seq<nat>
    requires n <= |plan.SetOf(opening)|
  {
    seq(n, k requires 0 <= k < n => |plan.results(opening, Some(plan.SetOf(opening)[k])).accepted|)
  }

  /** How many were accepted for the door of an opening and for all its components. */
  function RowsOfOpening(plan: Plan, opening: Opening): nat {
    |plan.results(opening, None).accepted| + Sum(PartRows(plan, opening, |plan.SetOf(opening)|))
  }

  /** The same for each of the first `n` openings. */
  function OpeningRows(plan: Plan, n: nat): seq<nat>
    requires n <= |plan.openings|
  {
    seq(n, i requires 0 <= i < n => RowsOfOpening(plan, plan.openings[i]))
  }

  lemma {:induction false} WrittenForIs(plan: Plan, opening: Opening, n: nat)
    requires n <= |plan.SetOf(opening)|
    ensures WrittenFor(plan, opening, n) == Sum(PartRows(plan, opening, n))
  {
    if n > 0 {
      WrittenForIs(plan, opening, n - 1);
      assert PartRows(plan, opening, n)
        == PartRows(plan, opening, n - 1) + [|plan.results(opening, Some(plan.SetOf(opening)[n - 1])).accepted|];
      SumOfAppend(PartRows(plan, opening, n - 1), |plan.results(opening, Some(plan.SetOf(opening)[n - 1])).accepted|);
    }
  }

  lemma {:induction false} PartsAddUp(plan: Plan, n: nat)
    requires n <= |plan.openings|
    ensures ComponentsMatched(plan, n) == Sum(Parts(plan, n))
  {
    if n > 0 {
      PartsAddUp(plan, n - 1);
      assert Parts(plan, n) == Parts(plan, n - 1) + [|plan.SetOf(plan.openings[n - 1])|];
      SumOfAppend(Parts(plan, n - 1), |plan.SetOf(plan.openings[n - 1])|);
    }
  }

  lemma OneMoreOpeningRows(plan: Plan, n: nat)
    requires n < |plan.openings|
    ensures Sum(OpeningRows(plan, n + 1)) == Sum(OpeningRows(plan, n)) + RowsOfOpening(plan, plan.openings[n])
  {
    assert OpeningRows(plan, n + 1) == OpeningRows(plan, n) + [RowsOfOpening(plan, plan.openings[n])];
    SumOfAppend(OpeningRows(plan, n), RowsOfOpening(plan, plan.openings[n]));
  }

  lemma OneMoreWritten(plan: Plan, n: nat)
    requires n < |plan.openings|
    ensures Written(plan, n + 1) == Written(plan, n) + RowsOfOpening(plan, plan.openings[n])
  {
    WrittenForIs(plan, plan.openings[n], |plan.SetOf(plan.openings[n])|);
  }

  lemma {:induction false} RowsAddUp(plan: Plan, n: nat)
    requires n <= |plan.openings|
    ensures Written(plan, n) == Sum(OpeningRows(plan, n))
  {
    if n > 0 {
      RowsAddUp(plan, n - 1);
      OneMoreOpeningRows(plan, n - 1);
      OneMoreWritten(plan, n - 1);
    }
  }

  /**
   The counters of a run: every opening, every component of every opening, the openings whose door
   went to the manual path and the others, and every row accepted for a door or a component.
   */
  lemma CountersAre(plan: Plan)
    ensures var n := |plan.openings|;
      var counts := CountsOf(plan, n);
      && counts.openings == n && counts.components == Sum(Parts(plan, n))
      && counts.manual == |set i | 0 <= i < n && IsManual(plan, i)|
      && counts.proposed == n - counts.manual
      && counts.written == Sum(OpeningRows(plan, n))
  {
    var n := |plan.openings|;
    EveryOpeningIsCounted(plan, n);
    CountIs(plan, n);
    PartsAddUp(plan, n);
    RowsAddUp(plan, n);
  }
}
