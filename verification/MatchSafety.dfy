/**
 Safety of matching over every run: whatever is matched, edited or deleted, and whatever the text
 similarity says, a stored row's item suits the demands it was matched against.
 */
module MatchSafety {
  import opened Prelude
  import opened Sorting
  import opened Matching
  import opened CatalogIndex
  import opened Takeoff
  import opened MatchStore

  /** The item passed rating, handing and division, and rating and handing were known or positively absent. */
  ghost predicate Sound(row: MatchRow) {
    && Suits(row.matchedFor, row.item.offer)
    && (row.matchedFor.rating.Some? || row.matchedFor.ratingAbsent)
    && (row.matchedFor.handing.Some? || row.matchedFor.handingAbsent)
  }

  ghost predicate AllSound(rows: seq<MatchRow>) {
    forall r :: r in rows ==> Sound(r)
  }

  /** The opening's rating or its handing is neither known nor positively absent. */
  predicate NotRead(opening: Opening) {
    || (opening.hard.rating.None? && !opening.hard.ratingAbsent)
    || (opening.hard.handing.None? && !opening.hard.handingAbsent)
  }

  /**
   The matcher accepts nothing for an opening whose rating or handing was not read, and for any
   other only items of Division 08 or none that suit its rating and its handing.
   */
  ghost predicate SoundPlan(plan: Plan) {
    && (forall o: Opening, c: Option<Component> :: NotRead(o) ==> plan.results(o, c).accepted == [])
    && (forall o, c, k :: 0 <= k < |plan.results(o, c).accepted| ==>
          Suits(o.hard.(division := Some("08")), plan.results(o, c).accepted[k].item.offer))
  }

  lemma PlansAreSound(run: Run)
    ensures SoundPlan(PlanOf(run))
  {
    var plan := PlanOf(run);
    forall o, c, k | 0 <= k < |plan.results(o, c).accepted|
      ensures Suits(o.hard.(division := Some("08")), plan.results(o, c).accepted[k].item.offer)
    {
      var criteria := CriteriaFor(o, c);
      assert plan.results(o, c) == ResultFor(run, o, c);
      AcceptedItemsSuit(criteria, Offered(run.catalog, criteria.hard.division), run.settings, run.similarity,
                        ResultFor(run, o, c).accepted[k]);
    }
  }

  lemma RematchedIsSound(rows: seq<MatchRow>, plan: Plan, opening: Opening, component: Option<Component>)
    requires AllSound(rows) && SoundPlan(plan)
    ensures AllSound(Rematched(rows, plan, opening, component))
  {
    var result := plan.results(opening, component);
    NewRowsAre(opening, component, result, |result.accepted|);
    FilterMembers(rows, (r: MatchRow) => !IsFor(r, opening.id, IdOf(component)));
  }

  /** Ranks of new rows are 1, 2, ... with the best first, and all carry the result's status. */
  ghost predicate RankedBestFirst(rows: seq<MatchRow>, status: MatchStatus) {
    && (forall k :: 0 <= k < |rows| ==> rows[k].rank == k + 1 && rows[k].status == status)
    && (forall j, k :: 0 <= j < k < |rows| ==> rows[j].confidence >= rows[k].confidence)
  }

  /**
   Matching an opening, or one of its components, again leaves for it exactly the rows of the new
   result, ranked from 1 with the best first, and every other row as and where it was.
   */
  lemma RematchReplacesRows(rows: seq<MatchRow>, run: Run, opening: Opening, component: Option<Component>)
    ensures var after, result := Rematched(rows, PlanOf(run), opening, component), ResultFor(run, opening, component);
      var mine, others := (r: MatchRow) => IsFor(r, opening.id, IdOf(component)),
                          (r: MatchRow) => !IsFor(r, opening.id, IdOf(component));
      && Filter(after, mine) == NewRows(opening, component, result, |result.accepted|)
      && RankedBestFirst(Filter(after, mine), result.status)
      && Filter(after, others) == Filter(rows, others)
  {
    var result := ResultFor(run, opening, component);
    var mine, others := (r: MatchRow) => IsFor(r, opening.id, IdOf(component)),
                        (r: MatchRow) => !IsFor(r, opening.id, IdOf(component));
    var added := NewRows(opening, component, result, |result.accepted|);
    assert PlanOf(run).results(opening, component) == result;
    NewRowsAre(opening, component, result, |result.accepted|);
    ResultIsBestFirst(run, opening, component);
    PartOf(rows, added, mine, others);
  }

  lemma ResultIsBestFirst(run: Run, opening: Opening, component: Option<Component>)
    ensures var accepted := ResultFor(run, opening, component).accepted;
      forall j, k :: 0 <= j < k < |accepted| ==> accepted[j].confidence >= accepted[k].confidence
  {
    var criteria := CriteriaFor(opening, component);
    if Resolved(criteria.hard) {
      AcceptedIsTopN(criteria, Offered(run.catalog, criteria.hard.division), run.settings, run.similarity);
    }
  }

  lemma PartOf(rows: seq<MatchRow>, added: seq<MatchRow>, mine: MatchRow -> bool, others: MatchRow -> bool)
    requires forall r :: others(r) == !mine(r)
    requires forall k :: 0 <= k < |added| ==> mine(added[k])
    ensures Filter(Filter(rows, others) + added, mine) == added
    ensures Filter(Filter(rows, others) + added, others) == Filter(rows, others)
  {
    var kept := Filter(rows, others);
    forall k | 0 <= k < |kept| ensures others(kept[k]) {
      FilterKeepsOnly(rows, others, k);
    }
    FilterInParts(kept, added, mine);
    FilterInParts(kept, added, others);
    FilterNone(kept, mine);
    FilterAll(added, mine);
    FilterAll(kept, others);
    FilterNone(added, others);
  }

  lemma {:induction false} ComponentsAreSound(rows: seq<MatchRow>, plan: Plan, opening: Opening, n: nat)
    requires AllSound(rows) && SoundPlan(plan) && n <= |plan.SetOf(opening)|
    ensures AllSound(AfterComponents(rows, plan, opening, n))
  {
    if n > 0 {
      ComponentsAreSound(rows, plan, opening, n - 1);
      RematchedIsSound(AfterComponents(rows, plan, opening, n - 1), plan, opening,
                       Some(plan.SetOf(opening)[n - 1]));
    }
  }

  lemma {:induction false} OpeningsAreSound(rows: seq<MatchRow>, plan: Plan, n: nat)
    requires AllSound(rows) && SoundPlan(plan) && n <= |plan.openings|
    ensures AllSound(AfterOpenings(rows, plan, n))
  {
    if n > 0 {
      var before, opening := AfterOpenings(rows, plan, n - 1), plan.openings[n - 1];
      OpeningsAreSound(rows, plan, n - 1);
      RematchedIsSound(before, plan, opening, None);
      ComponentsAreSound(Rematched(before, plan, opening, None), plan, opening,
                         |plan.SetOf(opening)|);
    }
  }

  /** What can happen to the rows: a matching run, an estimator's decision, a deletion. */
  datatype Event = Matched(run: Run) | Reviewed(k: nat, status: MatchStatus) | Deleted(k: nat)

  function Apply(rows: seq<MatchRow>, event: Event): seq<MatchRow> {
    match event
    case Matched(run) => AfterOpenings(rows, PlanOf(run), |run.openings|)
    case Reviewed(k, status) => if k < |rows| then rows[k := rows[k].(status := status)] else rows
    case Deleted(k) => if k < |rows| then rows[..k] + rows[k + 1..] else rows
  }

  function After(events: seq<Event>): seq<MatchRow> {
    if events == [] then [] else Apply(After(events[..|events| - 1]), events[|events| - 1])
  }

  lemma EventKeepsSoundness(rows: seq<MatchRow>, event: Event)
    requires AllSound(rows)
    ensures AllSound(Apply(rows, event))
  {
    match event
    case Matched(run) =>
      PlansAreSound(run);
      OpeningsAreSound(rows, PlanOf(run), |run.openings|);
    case Reviewed(k, status) =>
      if k < |rows| {
        assert Sound(rows[k]);
      }
    case Deleted(k) =>
  }

  /**
   Over every run, each stored row, whatever status it has come to have, satisfies the hard
   constraints of its opening as matched. It holds for every similarity function: no text score
   overturns a constraint.
   */
  lemma {:induction false} StoredRowsAreSound(events: seq<Event>)
    ensures AllSound(After(events))
  {
    if events != [] {
      StoredRowsAreSound(events[..|events| - 1]);
      EventKeepsSoundness(After(events[..|events| - 1]), events[|events| - 1]);
    }
  }

  // Openings with an unresolved rating or handing.

  /** The row is for the door itself or for a component of its hardware group now. */
  ghost predicate IsCurrent(row: MatchRow, plan: Plan, opening: Opening) {
    row.component.None?
    || exists k :: 0 <= k < |plan.SetOf(opening)|
         && row.component == Some(plan.SetOf(opening)[k].id)
  }

  lemma UnresolvedRematch(rows: seq<MatchRow>, plan: Plan, opening: Opening, component: Option<Component>)
    requires NotRead(opening) && SoundPlan(plan)
    ensures forall r ::
      (r in Rematched(rows, plan, opening, component) <==> r in rows && !IsFor(r, opening.id, IdOf(component)))
  {
    assert plan.results(opening, component).accepted == [];
    FilterMembers(rows, (r: MatchRow) => !IsFor(r, opening.id, IdOf(component)));
  }

  lemma {:induction false} UnresolvedComponents(rows: seq<MatchRow>, plan: Plan, opening: Opening, n: nat)
    requires NotRead(opening) && SoundPlan(plan) && n <= |plan.SetOf(opening)|
    ensures forall r ::
      (r in AfterComponents(rows, plan, opening, n)
       <==> r in rows && forall k :: 0 <= k < n ==>
              !IsFor(r, opening.id, Some(plan.SetOf(opening)[k].id)))
  {
    if n > 0 {
      UnresolvedComponents(rows, plan, opening, n - 1);
      UnresolvedRematch(AfterComponents(rows, plan, opening, n - 1), plan, opening,
                        Some(plan.SetOf(opening)[n - 1]));
    }
  }

  lemma UnresolvedOpening(rows: seq<MatchRow>, plan: Plan, opening: Opening)
    requires NotRead(opening) && SoundPlan(plan)
    ensures forall r ::
      (r in AfterOpening(rows, plan, opening)
       <==> r in rows && !(r.opening == opening.id && IsCurrent(r, plan, opening)))
  {
    UnresolvedRematch(rows, plan, opening, None);
    UnresolvedComponents(Rematched(rows, plan, opening, None), plan, opening,
                         |plan.SetOf(opening)|);
  }

  lemma OthersRematch(rows: seq<MatchRow>, plan: Plan, opening: Opening, component: Option<Component>, id: nat)
    requires id != opening.id
    ensures forall r: MatchRow :: r.opening == id ==> (r in Rematched(rows, plan, opening, component) <==> r in rows)
  {
    var result := plan.results(opening, component);
    NewRowsAre(opening, component, result, |result.accepted|);
    FilterMembers(rows, (r: MatchRow) => !IsFor(r, opening.id, IdOf(component)));
  }

  lemma {:induction false} OthersComponents(rows: seq<MatchRow>, plan: Plan, opening: Opening, n: nat, id: nat)
    requires id != opening.id && n <= |plan.SetOf(opening)|
    ensures forall r: MatchRow :: r.opening == id ==> (r in AfterComponents(rows, plan, opening, n) <==> r in rows)
  {
    if n > 0 {
      OthersComponents(rows, plan, opening, n - 1, id);
      OthersRematch(AfterComponents(rows, plan, opening, n - 1), plan, opening,
                    Some(plan.SetOf(opening)[n - 1]), id);
    }
  }

  lemma OthersOpening(rows: seq<MatchRow>, plan: Plan, opening: Opening, id: nat)
    requires id != opening.id
    ensures forall r: MatchRow :: r.opening == id ==> (r in AfterOpening(rows, plan, opening) <==> r in rows)
  {
    OthersRematch(rows, plan, opening, None, id);
    OthersComponents(Rematched(rows, plan, opening, None), plan, opening,
                     |plan.SetOf(opening)|, id);
  }

  ghost predicate DistinctOpenings(plan: Plan) {
    forall i, j :: 0 <= i < j < |plan.openings| ==> plan.openings[i].id != plan.openings[j].id
  }

  lemma {:induction false} UnresolvedAmongOpenings(rows: seq<MatchRow>, plan: Plan, n: nat, i: nat)
    requires i < |plan.openings| && n <= |plan.openings|
    requires SoundPlan(plan) && DistinctOpenings(plan) && NotRead(plan.openings[i])
    ensures var o := plan.openings[i];
      forall r: MatchRow :: r.opening == o.id ==>
        (r in AfterOpenings(rows, plan, n) <==> r in rows && (i < n ==> !IsCurrent(r, plan, o)))
  {
    if n > 0 {
      UnresolvedAmongOpenings(rows, plan, n - 1, i);
      if n - 1 == i {
        UnresolvedOpening(AfterOpenings(rows, plan, n - 1), plan, plan.openings[i]);
      } else {
        OthersOpening(AfterOpenings(rows, plan, n - 1), plan, plan.openings[n - 1], plan.openings[i].id);
      }
    }
  }

  /**
   After a run, an opening whose rating or handing is unresolved has no row for the door or for a
   component of its present hardware group. So it keeps no row at all exactly when it had none
   for a component outside that group: rows left from a former group are not cleared.
   */
  lemma UnresolvedKeepsNoRowsIff(rows: seq<MatchRow>, run: Run, i: nat)
    requires i < |run.openings| && DistinctOpenings(PlanOf(run)) && NotRead(run.openings[i])
    ensures var o, plan := run.openings[i], PlanOf(run);
      && (forall r :: r in AfterOpenings(rows, plan, |run.openings|) && r.opening == o.id ==> !IsCurrent(r, plan, o))
      && ((forall r :: r in AfterOpenings(rows, plan, |run.openings|) ==> r.opening != o.id)
          <==> (forall r :: r in rows && r.opening == o.id ==> IsCurrent(r, plan, o)))
  {
    PlansAreSound(run);
    UnresolvedAmongOpenings(rows, PlanOf(run), |run.openings|, i);
  }

  /**
   An opening moved to another hardware group keeps the row matched for a component of its former
   one, though its rating or handing is unresolved and it ought to have none.
   */
  lemma FormerGroupRowStays(row: MatchRow, opening: Opening, component: Component, run: Run)
    requires run.openings == [opening] && run.components == [component]
    requires NotRead(opening) && component.group != opening.group
    requires row.opening == opening.id && row.component == Some(component.id)
    ensures row in AfterOpenings([row], PlanOf(run), 1)
  {
    PlansAreSound(run);
    var inGroup := (c: Component) => c.resolved && c.group == opening.group;
    FilterNone(run.components, inGroup);
    assert PlanOf(run).SetOf(opening) == [];
    assert !IsCurrent(row, PlanOf(run), opening);
    UnresolvedAmongOpenings([row], PlanOf(run), 1, 0);
  }
}
