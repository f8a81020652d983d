/**
 Match rows (`persist_matches`, `match_project`, backend/pipeline/stages/match.py).

 A row carries `matchedFor`, the demands it was matched against. The table has no such column;
 it is what lets a later state say what held when the row was written.
 */
module MatchStore {
  import opened Prelude
  import opened Sorting
  import opened Matching
  import opened CatalogIndex
  import opened Takeoff

  datatype MatchRow = MatchRow(
    opening: nat, component: Option<nat>, item: Item, rank: nat, confidence: int, status: MatchStatus,
    isDirectEqual: bool, matchedFor: Hard)

  datatype Run = Run(
    openings: seq<Opening>, components: seq<Component>, catalog: seq<Item>, settings: Settings, similarity: Similarity)

  /**
   A run as the store sees it: whatever the matcher answers for each opening or component. The
   matcher is pure, so it is a parameter of the methods below; `PlanOf` gives the real one, and
   `MatchWith` computes its answers through the snapshot.
   */
  datatype Plan = Plan(
    openings: seq<Opening>, components: seq<Component>, results: (Opening, Option<Component>) -> MatchResult)
  {
    function SetOf(opening: Opening): seq<Component> {
      ComponentsOf(components, opening.group)
    }
  }

  function PlanOf(run: Run): Plan {
    Plan(run.openings, run.components, (o: Opening, c: Option<Component>) => ResultFor(run, o, c))
  }

  /** `match_criteria` for an opening or a component, over what the snapshot offers. */
  function ResultFor(run: Run, opening: Opening, component: Option<Component>): MatchResult {
    var criteria := CriteriaFor(opening, component);
    Match(criteria, Offered(run.catalog, criteria.hard.division), run.settings, run.similarity)
  }

  function IdOf(component: Option<Component>): Option<nat> {
    if component.None? then None else Some(component.value.id)
  }

  predicate IsFor(row: MatchRow, opening: nat, component: Option<nat>) {
    row.opening == opening && row.component == component
  }

  function NewRow(opening: Opening, component: Option<Component>, result: MatchResult, k: nat): MatchRow
    requires k < |result.accepted|
  {
    var c := result.accepted[k];
    MatchRow(opening.id, IdOf(component), c.item, k + 1, c.confidence, result.status, c.isDirectEqual, Demands(opening))
  }

  function NewRows(opening: Opening, component: Option<Component>, result: MatchResult, n: nat): seq<MatchRow>
    requires n <= |result.accepted|
  {
    if n == 0 then [] else NewRows(opening, component, result, n - 1) + [NewRow(opening, component, result, n - 1)]
  }

  lemma {:induction false} NewRowsAre(opening: Opening, component: Option<Component>, result: MatchResult, n: nat)
    requires n <= |result.accepted|
    ensures var r := NewRows(opening, component, result, n);
      |r| == n && forall k :: 0 <= k < n ==> r[k] == NewRow(opening, component, result, k)
  {
    if n > 0 {
      NewRowsAre(opening, component, result, n - 1);
    }
  }

  /** The rows after one opening, or one component of it, is matched again: its rows are replaced. */
  function Persisted(rows: seq<MatchRow>, opening: Opening, component: Option<Component>, result: MatchResult): seq<MatchRow> {
    Filter(rows, (r: MatchRow) => !IsFor(r, opening.id, IdOf(component)))
      + NewRows(opening, component, result, |result.accepted|)
  }

  function Rematched(rows: seq<MatchRow>, plan: Plan, opening: Opening, component: Option<Component>): seq<MatchRow> {
    Persisted(rows, opening, component, plan.results(opening, component))
  }

  /** The rows after the first `n` components of an opening. */
  function AfterComponents(rows: seq<MatchRow>, plan: Plan, opening: Opening, n: nat): seq<MatchRow>
    requires n <= |plan.SetOf(opening)|
  {
    if n == 0 then rows
    else Rematched(AfterComponents(rows, plan, opening, n - 1), plan, opening, Some(plan.SetOf(opening)[n - 1]))
  }

  function AfterOpening(rows: seq<MatchRow>, plan: Plan, opening: Opening): seq<MatchRow> {
    AfterComponents(Rematched(rows, plan, opening, None), plan, opening, |plan.SetOf(opening)|)
  }

  /** The rows after the first `n` openings of the project. */
  function AfterOpenings(rows: seq<MatchRow>, plan: Plan, n: nat): seq<MatchRow>
    requires n <= |plan.openings|
  {
    if n == 0 then rows else AfterOpening(AfterOpenings(rows, plan, n - 1), plan, plan.openings[n - 1])
  }

  /** How many of the first `n` openings went to the manual path, or did not. */
  function Count(plan: Plan, n: nat, toManual: bool): nat
    requires n <= |plan.openings|
  {
    if n == 0 then 0
    else Count(plan, n - 1, toManual)
         + if (plan.results(plan.openings[n - 1], None).status == MANUAL) == toManual then 1 else 0
  }

  /** The rows written for the first `n` components of an opening. */
  function WrittenFor(plan: Plan, opening: Opening, n: nat): nat
    requires n <= |plan.SetOf(opening)|
  {
    if n == 0 then 0
    else WrittenFor(plan, opening, n - 1) + |plan.results(opening, Some(plan.SetOf(opening)[n - 1])).accepted|
  }

  /** The rows written for the first `n` openings and their components. */
  function Written(plan: Plan, n: nat): nat
    requires n <= |plan.openings|
  {
    if n == 0 then 0
    else
      var opening := plan.openings[n - 1];
      Written(plan, n - 1) + |plan.results(opening, None).accepted| + WrittenFor(plan, opening, |plan.SetOf(opening)|)
  }

  /** The components matched with the first `n` openings: one of a set counts once for each opening. */
  function ComponentsMatched(plan: Plan, n: nat): nat
    requires n <= |plan.openings|
  {
    if n == 0 then 0 else ComponentsMatched(plan, n - 1) + |plan.SetOf(plan.openings[n - 1])|
  }

  /** The counters `match_project` returns. */
  datatype Counts = Counts(openings: nat, components: nat, proposed: nat, manual: nat, written: nat)

  function CountsOf(plan: Plan, n: nat): Counts
    requires n <= |plan.openings|
  {
    Counts(n, ComponentsMatched(plan, n), Count(plan, n, false), Count(plan, n, true), Written(plan, n))
  }

  /** The counters after one more opening. */
  function Counted(counts: Counts, status: MatchStatus, components: nat, written: nat): Counts {
    Counts(counts.openings + 1, counts.components + components,
           counts.proposed + if status == MANUAL then 0 else 1, counts.manual + if status == MANUAL then 1 else 0,
           counts.written + written)
  }

  lemma OneMoreOpening(plan: Plan, n: nat)
    requires n < |plan.openings|
    ensures var opening := plan.openings[n];
      CountsOf(plan, n + 1) == Counted(
        CountsOf(plan, n), plan.results(opening, None).status, |plan.SetOf(opening)|,
        |plan.results(opening, None).accepted| + WrittenFor(plan, opening, |plan.SetOf(opening)|))
  {
  }

  class MatchTable {
    var rows: seq<MatchRow>

    method PersistMatches(opening: Opening, component: Option<Component>, result: MatchResult) returns (written: nat)
      modifies this
      ensures rows == Persisted(old(rows), opening, component, result)
      ensures written == |result.accepted|
    {
      var key := IdOf(component);
      rows := Filter(rows, (r: MatchRow) => !IsFor(r, opening.id, key));
      ghost var kept := rows;
      for k := 0 to |result.accepted|
        invariant rows == kept + NewRows(opening, component, result, k)
      {
        rows := rows + [NewRow(opening, component, result, k)];
      }
      written := |result.accepted|;
    }

    /** Match one opening or component and write its rows. */
    method MatchOne(plan: Plan, opening: Opening, component: Option<Component>)
      returns (status: MatchStatus, written: nat)
      modifies this
      ensures rows == Rematched(old(rows), plan, opening, component)
      ensures status == plan.results(opening, component).status
      ensures written == |plan.results(opening, component).accepted|
    {
      var result := plan.results(opening, component);
      written := PersistMatches(opening, component, result);
      status := result.status;
    }

    /** The body of the project loop, for one opening. */
    method MatchOpening(plan: Plan, opening: Opening) returns (status: MatchStatus, components: nat, written: nat)
      modifies this
      ensures rows == AfterOpening(old(rows), plan, opening)
      ensures status == plan.results(opening, None).status && components == |plan.SetOf(opening)|
      ensures written == |plan.results(opening, None).accepted| + WrittenFor(plan, opening, |plan.SetOf(opening)|)
    {
      status, written := MatchOne(plan, opening, None);
      var parts := plan.SetOf(opening);
      components := 0;
      ghost var door := rows;
      for n := 0 to |parts|
        invariant rows == AfterComponents(door, plan, opening, n) && components == n
        invariant written == |plan.results(opening, None).accepted| + WrittenFor(plan, opening, n)
      {
        var _, more := MatchOne(plan, opening, Some(parts[n]));
        written := written + more;
        components := components + 1;
      }
    }

    /** One turn of the project loop. */
    method MatchNext(plan: Plan, n: nat, before: Counts) returns (counts: Counts)
      requires n < |plan.openings| && before == CountsOf(plan, n)
      modifies this
      ensures rows == AfterOpening(old(rows), plan, plan.openings[n])
      ensures counts == CountsOf(plan, n + 1)
    {
      var status, components, written := MatchOpening(plan, plan.openings[n]);
      counts := before.(openings := before.openings + 1, components := before.components + components,
                        written := before.written + written);
      if status == MANUAL {
        counts := counts.(manual := counts.manual + 1);
      } else {
        counts := counts.(proposed := counts.proposed + 1);
      }
      OneMoreOpening(plan, n);
    }

    /** `match_project`: every opening, proposed or manual, and the components of its set. */
    method MatchProject(plan: Plan) returns (counts: Counts)
      modifies this
      ensures rows == AfterOpenings(old(rows), plan, |plan.openings|)
      ensures counts == CountsOf(plan, |plan.openings|)
    {
      counts := Counts(0, 0, 0, 0, 0);
      for n := 0 to |plan.openings|
        invariant rows == AfterOpenings(old(rows), plan, n)
        invariant counts == CountsOf(plan, n)
      {
        counts := MatchNext(plan, n, counts);
      }
    }
  }

  /** Every opening is proposed or manual, and none twice. */
  lemma {:induction false} EveryOpeningIsCounted(plan: Plan, n: nat)
    requires n <= |plan.openings|
    ensures CountsOf(plan, n).proposed + CountsOf(plan, n).manual == CountsOf(plan, n).openings
  {
    if n > 0 {
      EveryOpeningIsCounted(plan, n - 1);
    }
  }

  /** The matcher of a real run: criteria, the snapshot's candidates, the ranking. */
  method MatchWith(run: Run, snapshot: CatalogSnapshot, opening: Opening, component: Option<Component>)
    returns (result: MatchResult)
    requires snapshot.Valid() && snapshot.items == run.catalog
    ensures result == PlanOf(run).results(opening, component)
  {
    var criteria := CriteriaFor(opening, component);
    var items := snapshot.CandidatesFor(criteria);
    result := Match(criteria, items, run.settings, run.similarity);
  }
}
