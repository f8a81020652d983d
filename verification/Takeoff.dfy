/** Openings and the components of their hardware sets, as matching and drafting read them. */
module Takeoff {
  import opened Prelude
  import opened Sorting
  import opened Matching

  /** `doorRank` is the collation rank of the door number. */
  datatype Opening = Opening(
    id: nat, doorRank: int, group: string, sizeRaw: string, finishRaw: string,
    hard: Hard, finish: Option<(nat, string)>, size: Option<(int, int)>)

  datatype Component = Component(
    id: nat, group: string, index: int, resolved: bool, description: string, manufacturer: string,
    partNumber: string, finishRaw: string, quantity: Option<int>)

  /** The resolved components of one callout, in the specification's order. */
  function ComponentsOf(components: seq<Component>, group: string): seq<Component> {
    StableSort(Filter(components, (c: Component) => c.resolved && c.group == group), (c: Component) => c.index)
  }

  /** `" ".join(part for part in parts if part)` */
  function Join(parts: seq<string>): string {
    if parts == [] then
      ""
    else
      var before, last := Join(parts[..|parts| - 1]), parts[|parts| - 1];
      if last == "" then before else if before == "" then last else before + " " + last
  }

  const OPENINGS_DIVISION := "08"

  function Demands(opening: Opening): Hard {
    opening.hard.(division := Some(OPENINGS_DIVISION))
  }

  function BaseMetal(opening: Opening): string {
    if opening.finish.Some? then opening.finish.value.1 else ""
  }

  function FinishId(opening: Opening): Option<nat> {
    if opening.finish.Some? then Some(opening.finish.value.0) else None
  }

  /** `MatchCriteria.from_opening` */
  function FromOpening(opening: Opening): Criteria {
    Criteria(Demands(opening),
             Soft(Join([opening.group, opening.sizeRaw, opening.finishRaw]),
                  FinishId(opening), BaseMetal(opening), opening.size, "", "", ""))
  }

  /** `MatchCriteria.from_component`: the constraints are the opening's, the part is the component's. */
  function FromComponent(component: Component, opening: Opening): Criteria {
    Criteria(Demands(opening),
             Soft(Join([component.description, component.manufacturer, component.partNumber, component.finishRaw]),
                  FinishId(opening), BaseMetal(opening), None, component.manufacturer, "", component.partNumber))
  }

  function CriteriaFor(opening: Opening, component: Option<Component>): Criteria {
    if component.None? then FromOpening(opening) else FromComponent(component.value, opening)
  }
}
