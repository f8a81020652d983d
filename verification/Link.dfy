/**
 Linking a record's fields (`link_fields`, backend/pipeline/stages/link.py): one result a field,
 and counters that add up, for any gate; what a clean result means, for the gate the code uses.
 */
module Link {
  import opened Prelude
  import opened Gate

  datatype ReviewState = AUTO | FLAGGED | CONFIRMED | CORRECTED | REJECTED

  /** What the model returned for one field. */
  datatype Emitted = Emitted(value: Option<string>, ids: seq<string>, llm: Option<real>)

  datatype LinkedField = LinkedField(
    name: string, value: Option<string>, ids: seq<string>, state: ReviewState,
    confidence: Confidence, penalty: real, score: Option<real>)

  /** The counters of `LinkStats`. */
  datatype Counts = Counts(
    emitted: nat, accepted: nat, rejectedCitation: nat, rejectedGrounding: nat, flaggedLow: nat, nullWithCitation: nat)

  function Plus(a: Counts, b: Counts): Counts {
    Counts(a.emitted + b.emitted, a.accepted + b.accepted, a.rejectedCitation + b.rejectedCitation,
           a.rejectedGrounding + b.rejectedGrounding, a.flaggedLow + b.flaggedLow,
           a.nullWithCitation + b.nullWithCitation)
  }

  const NONE := Counts(0, 0, 0, 0, 0, 0)

  /**
   What `link_fields` is given: the fields the model returned, the measured confidence of each
   element, each field's floor, the zero-tolerance fields, and the gate, any function at all.
   */
  datatype Task = Task(
    fields: map<string, Emitted>, elements: map<string, Option<real>>, floor: string -> real,
    zeroTolerance: set<string>, gate: (Option<string>, seq<string>) -> FieldVerdict)

  function Populated(task: Task, names: seq<string>): nat {
    if names == [] then
      0
    else
      var last := names[|names| - 1];
      Populated(task, names[..|names| - 1])
        + if last in task.fields && task.fields[last].value !in {None, Some("")} then 1 else 0
  }

  /** The confidences of the cited elements that are known. */
  function CitedConfidences(task: Task, ids: seq<string>): seq<Option<real>> {
    if ids == [] then
      []
    else
      var before, last := CitedConfidences(task, ids[..|ids| - 1]), ids[|ids| - 1];
      if last in task.elements then before + [task.elements[last]] else before
  }

  const UNMEASURED := Confidence(None, None, None)

  /** The state of a field the gate accepted. */
  function AcceptedState(task: Task, name: string, verdict: Verdict, final: Option<real>): ReviewState {
    if verdict == ACCEPT_NULL then
      if name in task.zeroTolerance then FLAGGED else AUTO
    else if final.Some? && final.value < task.floor(name) then FLAGGED
    else if final.None? && name in task.zeroTolerance then FLAGGED
    else AUTO
  }

  /** One field's result. */
  function Linked(task: Task, name: string, penalty: real): LinkedField {
    if name !in task.fields then
      LinkedField(name, None, [], FLAGGED, UNMEASURED, penalty, None)
    else
      var e := task.fields[name];
      var v := task.gate(e.value, e.ids);
      if v.verdict == REJECT then
        LinkedField(name, e.value, [], REJECTED, Confidence(None, e.llm, None), penalty, v.score)
      else
        var confidence := Compose(CitedConfidences(task, e.ids), e.llm, penalty);
        LinkedField(name, e.value, e.ids, AcceptedState(task, name, v.verdict, confidence.final),
                    confidence, penalty, v.score)
  }

  /** What one field adds to the counters. */
  function Counted(task: Task, name: string, penalty: real): Counts {
    if name !in task.fields then
      NONE
    else
      var e := task.fields[name];
      var v := task.gate(e.value, e.ids);
      if v.verdict == REJECT then
        match v.code
        case Some(NOT_GROUNDED) => NONE.(emitted := 1, rejectedGrounding := 1)
        case Some(NULL_WITH_CITATION) => NONE.(emitted := 1, rejectedCitation := 1, nullWithCitation := 1)
        case _ => NONE.(emitted := 1, rejectedCitation := 1)
      else
        var low := v.verdict == ACCEPT && Linked(task, name, penalty).state == FLAGGED;
        NONE.(emitted := 1, accepted := 1, flaggedLow := if low then 1 else 0)
  }

  /** The results and the counters of the first `n` fields. */
  function LinkedFields(task: Task, names: seq<string>, penalty: real, n: nat): (r: seq<LinkedField>)
    requires n <= |names|
    ensures |r| == n
  {
    if n == 0 then [] else LinkedFields(task, names, penalty, n - 1) + [Linked(task, names[n - 1], penalty)]
  }

  function CountsOf(task: Task, names: seq<string>, penalty: real, n: nat): Counts
    requires n <= |names|
  {
    if n == 0 then NONE else Plus(CountsOf(task, names, penalty, n - 1), Counted(task, names[n - 1], penalty))
  }

  function PenaltyFor(task: Task, names: seq<string>): real {
    Penalty(Populated(task, names), |names|)
  }

  class LinkStats {
    var emitted: nat
    var accepted: nat
    var rejectedCitation: nat
    var rejectedGrounding: nat
    var flaggedLow: nat
    var nullWithCitation: nat

    function Value(): Counts
      reads this
    {
      Counts(emitted, accepted, rejectedCitation, rejectedGrounding, flaggedLow, nullWithCitation)
    }

    /** The loop body of `link_fields`. */
    method LinkField(task: Task, name: string, penalty: real) returns (r: LinkedField)
      modifies this
      ensures r == Linked(task, name, penalty)
      ensures Value() == Plus(old(Value()), Counted(task, name, penalty))
      ensures var counted := Counted(task, name, penalty);
        && emitted == old(emitted) + counted.emitted && accepted == old(accepted) + counted.accepted
        && rejectedCitation == old(rejectedCitation) + counted.rejectedCitation
        && rejectedGrounding == old(rejectedGrounding) + counted.rejectedGrounding
        && flaggedLow == old(flaggedLow) + counted.flaggedLow
        && nullWithCitation == old(nullWithCitation) + counted.nullWithCitation
    {
      if name !in task.fields {
        return LinkedField(name, None, [], FLAGGED, UNMEASURED, penalty, None);
      }
      emitted := emitted + 1;
      var e := task.fields[name];
      var v := task.gate(e.value, e.ids);
      if v.verdict == REJECT {
        if v.code == Some(NOT_GROUNDED) {
          rejectedGrounding := rejectedGrounding + 1;
        } else if v.code == Some(NULL_WITH_CITATION) {
          nullWithCitation := nullWithCitation + 1;
          rejectedCitation := rejectedCitation + 1;
        } else {
          rejectedCitation := rejectedCitation + 1;
        }
        return LinkedField(name, e.value, [], REJECTED, Confidence(None, e.llm, None), penalty, v.score);
      }
      var confidence := Compose(CitedConfidences(task, e.ids), e.llm, penalty);
      var state := AUTO;
      accepted := accepted + 1;
      if v.verdict == ACCEPT_NULL {
        if name in task.zeroTolerance {
          state := FLAGGED;
        }
      } else {
        var floor := task.floor(name);
        if confidence.final.Some? && confidence.final.value < floor {
          state := FLAGGED;
          flaggedLow := flaggedLow + 1;
        } else if name in task.zeroTolerance && confidence.final.None? {
          state := FLAGGED;
          flaggedLow := flaggedLow + 1;
        }
      }
      return LinkedField(name, e.value, e.ids, state, confidence, penalty, v.score);
    }

    method LinkFields(task: Task, names: seq<string>) returns (linked: seq<LinkedField>)
      modifies this
      ensures linked == LinkedFields(task, names, PenaltyFor(task, names), |names|)
      ensures Value() == Plus(old(Value()), CountsOf(task, names, PenaltyFor(task, names), |names|))
    {
      var penalty := PenaltyFor(task, names);
      linked := [];
      for n := 0 to |names|
        invariant linked == LinkedFields(task, names, penalty, n)
        invariant Value() == Plus(old(Value()), CountsOf(task, names, penalty, n))
      {
        var field := LinkField(task, names[n], penalty);
        linked := linked + [field];
      }
    }
  }

  // Accounting, for every gate.

  /** One result per expected field, in order; and nothing rejected keeps a citation. */
  lemma {:induction false} OneResultPerField(task: Task, names: seq<string>, penalty: real, n: nat, i: nat)
    requires i < n <= |names|
    ensures var r := LinkedFields(task, names, penalty, n);
      && r[i] == Linked(task, names[i], penalty) && r[i].name == names[i]
      && (r[i].state == REJECTED ==> r[i].ids == [] && r[i].confidence.final.None?)
  {
    if i < n - 1 {
      OneResultPerField(task, names, penalty, n - 1, i);
    }
  }

  function Returned(task: Task, names: seq<string>, n: nat): nat
    requires n <= |names|
  {
    if n == 0 then 0 else Returned(task, names, n - 1) + if names[n - 1] in task.fields then 1 else 0
  }

  function InState(linked: seq<LinkedField>, state: ReviewState): nat {
    if linked == [] then 0
    else InState(linked[..|linked| - 1], state) + if linked[|linked| - 1].state == state then 1 else 0
  }

  /**
   The counters add up: every field returned is counted once, as accepted, rejected for its
   citation or rejected for grounding; the rejected ones are those marked so.
   */
  lemma {:induction false} CountersAddUp(task: Task, names: seq<string>, penalty: real, n: nat)
    requires n <= |names|
    ensures var c := CountsOf(task, names, penalty, n);
      && c.emitted == Returned(task, names, n)
      && c.emitted == c.accepted + c.rejectedCitation + c.rejectedGrounding
      && c.rejectedCitation + c.rejectedGrounding == InState(LinkedFields(task, names, penalty, n), REJECTED)
      && c.nullWithCitation <= c.rejectedCitation && c.flaggedLow <= c.accepted
  {
    if n > 0 {
      CountersAddUp(task, names, penalty, n - 1);
      var r := LinkedFields(task, names, penalty, n);
      assert r[..n - 1] == LinkedFields(task, names, penalty, n - 1);
      OneCounts(task, names[n - 1], penalty);
    }
  }

  lemma OneCounts(task: Task, name: string, penalty: real)
    ensures var c := Counted(task, name, penalty);
      && c.emitted == (if name in task.fields then 1 else 0)
      && c.emitted == c.accepted + c.rejectedCitation + c.rejectedGrounding
      && c.rejectedCitation + c.rejectedGrounding == (if Linked(task, name, penalty).state == REJECTED then 1 else 0)
      && c.nullWithCitation <= c.rejectedCitation && c.flaggedLow <= c.accepted
  {
  }

  /**
   A zero-tolerance field comes out clean exactly when the gate accepted a value for it and a
   measured confidence reaches its own floor. Absence, rejection and doubt are all flagged.
   */
  lemma ZeroToleranceIsCleanIff(task: Task, name: string, penalty: real)
    requires name in task.zeroTolerance
    ensures var r := Linked(task, name, penalty);
      r.state == AUTO <==>
        && name in task.fields && task.gate(task.fields[name].value, task.fields[name].ids).verdict == ACCEPT
        && r.confidence.final.Some? && r.confidence.final.value >= task.floor(name)
  {
  }

  // The gate the code uses.

  function GateOver(supplied: map<string, string>, grounding: Grounding, minRatio: real)
    : (Option<string>, seq<string>) -> FieldVerdict
  {
    (value: Option<string>, ids: seq<string>) => Validate(value, ids, supplied, grounding, minRatio)
  }

  /**
   With the real gate, a clean zero-tolerance field has a value that is not blank, cites elements
   the model was shown, is found in their text, and is measured at or above its floor.
   */
  lemma CleanZeroToleranceIsTraceable(
      task: Task, name: string, penalty: real, supplied: map<string, string>, grounding: Grounding, minRatio: real)
    requires name in task.zeroTolerance && task.gate == GateOver(supplied, grounding, minRatio)
    requires Linked(task, name, penalty).state == AUTO
    ensures var r := Linked(task, name, penalty);
      && IsTraceable(r.value, r.ids, supplied, grounding, minRatio)
      && r.confidence.final.Some? && r.confidence.final.value >= task.floor(name)
  {
    ZeroToleranceIsCleanIff(task, name, penalty);
    AcceptedIffTraceable(task.fields[name].value, task.fields[name].ids, supplied, grounding, minRatio);
  }
}
