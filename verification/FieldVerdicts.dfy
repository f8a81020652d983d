/** What the gate and the linking loop say of each field, stated on its value, citations and elements. */
module FieldVerdicts {
  import opened Prelude
  import opened Texts
  import opened Gate
  import opened Link

  // ------------------------------------------------------------------------
  // The gate
  // ------------------------------------------------------------------------

  lemma BlankIff(value: Option<string>)
    ensures IsBlank(value) <==> value.None? || AllSpace(value.value)
  {
    if value.Some? {
      var before, after := StripIs(value.value);
      var middle := Strip(value.value);
      if middle != "" {
        assert value.value[|before|] == middle[0];
      }
    }
  }

  /** Which verdict, with which code: citations first, then absence, then the text. */
  lemma VerdictIs(value: Option<string>, ids: seq<string>, supplied: map<string, string>, grounding: Grounding, minRatio: real)
    ensures var v := Validate(value, ids, supplied, grounding, minRatio);
      var known := forall id :: id in ids ==> id in supplied;
      var blank := value.None? || AllSpace(value.value);
      && (v.verdict == ACCEPT_NULL <==> blank && ids == [])
      && (v.code == Some(UNKNOWN_ELEMENT) <==> !known)
      && (v.code == Some(NULL_WITH_CITATION) <==> known && blank && ids != [])
      && (v.code == Some(VALUE_WITHOUT_CITATION) <==> !blank && ids == [])
      && (v.code == Some(NOT_GROUNDED) <==>
            known && !blank && ids != [] && grounding(value.value, CitedText(ids, supplied)) < minRatio)
      && (v.verdict == REJECT <==> v.code.Some?)
      && (v.score.Some? <==> known && !blank && ids != [])
      && (v.score.Some? ==> v.score.value == grounding(value.value, CitedText(ids, supplied)))
  {
    BlankIff(value);
    if AllSupplied(ids, supplied) {
      assert forall id :: id in ids ==> id in supplied;
    } else {
      var i :| 0 <= i < |ids| && ids[i] !in supplied;
      assert ids[i] in ids;
    }
  }

  /** The cited text is the first element's, then the others', each after a space. */
  lemma {:induction false} CitedTextIs(id: string, rest: seq<string>, supplied: map<string, string>)
    requires AllSupplied([id] + rest, supplied)
    ensures AllSupplied(rest, supplied) && id in supplied
    ensures CitedText([id] + rest, supplied) == if rest == [] then supplied[id] else supplied[id] + " " + CitedText(rest, supplied)
  {
    assert ([id] + rest)[0] == id && forall i :: 0 <= i < |rest| ==> ([id] + rest)[i + 1] == rest[i];
    if |rest| > 0 {
      var before, last := rest[..|rest| - 1], rest[|rest| - 1];
      assert ([id] + rest)[..|rest|] == [id] + before && ([id] + rest)[|rest|] == last;
      assert AllSupplied([id] + before, supplied);
      CitedTextIs(id, before, supplied);
    }
  }

  // ------------------------------------------------------------------------
  // Confidence
  // ------------------------------------------------------------------------

  /** The share of expected fields that are populated, never above one. */
  predicate IsShare(penalty: real, populated: nat, expected: nat) {
    if populated >= expected then penalty == 1.0 else penalty * expected as real == populated as real
  }

  lemma PenaltyIs(populated: nat, expected: nat)
    ensures IsShare(Penalty(populated, expected), populated, expected)
  {
    if 0 < expected <= populated {
      var share := populated as real / expected as real;
      assert share * expected as real == populated as real;
      AtLeastOne(share, expected as real, populated as real);
    } else if populated < expected {
      var share := populated as real / expected as real;
      assert share * expected as real == populated as real;
      BelowOne(share, expected as real, populated as real);
    }
  }

  lemma AtLeastOne(share: real, whole: real, part: real)
    requires whole > 0.0 && share * whole == part && part >= whole
    ensures share >= 1.0
  {
    if share < 1.0 {
      Shrinks(share, whole);
    }
  }

  lemma BelowOne(share: real, whole: real, part: real)
    requires whole > 0.0 && share * whole == part && part < whole
    ensures share < 1.0
  {
    Grows(share, whole);
  }

  lemma Grows(share: real, whole: real)
    requires whole > 0.0
    ensures share >= 1.0 ==> share * whole >= whole
  {
    if share >= 1.0 {
      assert (share - 1.0) * whole == share * whole - whole;
    }
  }

  lemma Shrinks(share: real, whole: real)
    requires whole > 0.0 && share < 1.0
    ensures share * whole < whole
  {
    assert (1.0 - share) * whole == whole - share * whole;
  }

  predicate IsPopulated(task: Task, name: string) {
    name in task.fields && task.fields[name].value.Some? && |task.fields[name].value.value| > 0
  }

  /** The penalty of a record is the share of its expected fields the model returned a value for. */
  lemma PenaltyForIs(task: Task, names: seq<string>)
    ensures IsShare(PenaltyFor(task, names), |PopulatedPlaces(task, names)|, |names|)
  {
    PopulatedIs(task, names);
    PenaltyIs(Populated(task, names), |names|);
  }

  ghost function PopulatedPlaces(task: Task, names: seq<string>): set<int> {
    set i | 0 <= i < |names| && IsPopulated(task, names[i])
  }

  lemma {:induction false} PopulatedIs(task: Task, names: seq<string>)
    ensures Populated(task, names) == |PopulatedPlaces(task, names)|
    decreases |names|
  {
    if names == [] {
      assert PopulatedPlaces(task, names) == {};
    } else {
      var rest, n := names[..|names| - 1], |names| - 1;
      PopulatedIs(task, rest);
      OneMorePlace(PopulatedPlaces(task, rest), PopulatedPlaces(task, names), n, IsPopulated(task, names[n]));
    }
  }

  /** The final confidence: the lesser of what is known, scaled by the penalty. */
  predicate IsFinal(final: Option<real>, ocr: Option<real>, llm: Option<real>, penalty: real) {
    && (final.None? <==> ocr.None? && llm.None?)
    && (ocr.Some? && (llm.None? || ocr.value <= llm.value) ==> final.Some? && final.value == ocr.value * penalty)
    && (llm.Some? && (ocr.None? || llm.value < ocr.value) ==> final.Some? && final.value == llm.value * penalty)
  }

  lemma FinalIs(ocr: Option<real>, llm: Option<real>, penalty: real)
    ensures IsFinal(Final(ocr, llm, penalty), ocr, llm, penalty)
  {
    var lesser := Lesser(ocr, llm);
    if lesser.Some? {
      assert Final(ocr, llm, penalty).value == lesser.value * penalty;
    }
  }

  lemma {:induction false} CitedIs(task: Task, ids: seq<string>, c: Option<real>)
    ensures c in CitedConfidences(task, ids) <==> exists i :: 0 <= i < |ids| && ids[i] in task.elements && task.elements[ids[i]] == c
  {
    if ids != [] {
      var rest, n := ids[..|ids| - 1], |ids| - 1;
      CitedIs(task, rest, c);
      assert forall i :: 0 <= i < n ==> rest[i] == ids[i];
    }
  }

  /** The element is cited and its confidence was measured. */
  predicate Measured(task: Task, ids: seq<string>, id: string, confidence: real) {
    id in ids && id in task.elements && task.elements[id] == Some(confidence)
  }

  /** The OCR part: that of some cited element, and no higher than any other's; none when none was measured. */
  ghost predicate IsOcrPart(ocr: Option<real>, task: Task, ids: seq<string>) {
    && (ocr.Some? ==> exists id :: Measured(task, ids, id, ocr.value))
    && (forall id, c :: Measured(task, ids, id, c) ==> ocr.Some? && ocr.value <= c)
  }

  lemma OcrPartIs(task: Task, ids: seq<string>)
    ensures IsOcrPart(Lowest(CitedConfidences(task, ids)), task, ids)
  {
    var ocr, cited := Lowest(CitedConfidences(task, ids)), CitedConfidences(task, ids);
    LowestIsLowest(cited);
    if ocr.Some? {
      CitedIs(task, ids, ocr);
      var i :| 0 <= i < |ids| && ids[i] in task.elements && task.elements[ids[i]] == ocr;
      assert Measured(task, ids, ids[i], ocr.value);
    }
    forall id, c | Measured(task, ids, id, c) ensures ocr.Some? && ocr.value <= c {
      CitedIs(task, ids, Some(c));
      var i :| 0 <= i < |ids| && ids[i] == id;
      assert Some(c) in cited;
    }
  }

  // ------------------------------------------------------------------------
  // A linked field
  // ------------------------------------------------------------------------

  ghost predicate WasReturned(task: Task, name: string) {
    name in task.fields
  }

  /** The gate's verdict on a field the model returned. */
  ghost predicate Ruled(task: Task, name: string, verdict: Verdict) {
    name in task.fields && task.gate(task.fields[name].value, task.fields[name].ids).verdict == verdict
  }

  /** The field has a final confidence below its own floor. */
  predicate IsLow(task: Task, name: string, final: Option<real>) {
    final.Some? && final.value < task.floor(name)
  }

  /**
   The state of every field. Rejected: what the gate rejected. Flagged: what was not returned, a
   zero-tolerance field that is absent or has no confidence, and any value below its floor.
   */
  lemma StateIff(task: Task, name: string, penalty: real)
    ensures var r := Linked(task, name, penalty);
      var zero := name in task.zeroTolerance;
      && (r.state == REJECTED <==> Ruled(task, name, REJECT))
      && (r.state == FLAGGED <==>
            || !WasReturned(task, name)
            || (Ruled(task, name, ACCEPT_NULL) && zero)
            || (Ruled(task, name, ACCEPT) && (IsLow(task, name, r.confidence.final) || (r.confidence.final.None? && zero))))
      && r.state in {REJECTED, FLAGGED, AUTO}
  {
  }

  /**
   An accepted field keeps its value and citations. Its OCR part is the lowest measured confidence
   among the elements it cites, and its final confidence the lesser of that and the model's, scaled.
   A rejected one keeps its value and the model's confidence alone; one not returned has nothing.
   */
  lemma FieldHolds(task: Task, name: string, penalty: real)
    ensures var r := Linked(task, name, penalty);
      && r.name == name && r.penalty == penalty
      && (!WasReturned(task, name) ==> r.value.None? && r.ids == [] && r.score.None? && r.confidence == Confidence(None, None, None))
      && (Ruled(task, name, REJECT) ==>
            && r.value == task.fields[name].value && r.ids == []
            && r.confidence == Confidence(None, task.fields[name].llm, None))
      && (Ruled(task, name, ACCEPT) || Ruled(task, name, ACCEPT_NULL) ==>
            && r.value == task.fields[name].value && r.ids == task.fields[name].ids
            && r.confidence.llm == task.fields[name].llm && IsOcrPart(r.confidence.ocr, task, r.ids)
            && IsFinal(r.confidence.final, r.confidence.ocr, r.confidence.llm, penalty))
      && (WasReturned(task, name) ==> r.score == task.gate(task.fields[name].value, task.fields[name].ids).score)
  {
    if name in task.fields {
      var e := task.fields[name];
      OcrPartIs(task, e.ids);
      FinalIs(Lowest(CitedConfidences(task, e.ids)), e.llm, penalty);
    }
  }

  /** So no final confidence exceeds the model's own, or that of any element the field cites. */
  lemma FinalIsNoHigher(task: Task, name: string, penalty: real, id: string, c: real)
    requires name in task.fields && !Ruled(task, name, REJECT) && 0.0 <= penalty <= 1.0
    requires task.fields[name].llm.Some? ==> task.fields[name].llm.value >= 0.0
    requires forall e :: e in task.elements && task.elements[e].Some? ==> task.elements[e].value >= 0.0
    ensures var r := Linked(task, name, penalty);
      && (task.fields[name].llm.Some? ==> r.confidence.final.Some? && r.confidence.final.value <= task.fields[name].llm.value)
      && (Measured(task, task.fields[name].ids, id, c) ==> r.confidence.final.Some? && r.confidence.final.value <= c)
  {
    var e := task.fields[name];
    var cited := CitedConfidences(task, e.ids);
    forall i | 0 <= i < |cited| && cited[i].Some? ensures cited[i].value >= 0.0 {
      CitedIs(task, e.ids, cited[i]);
    }
    FinalNeverExceedsItsInputs(cited, e.llm, penalty);
    assert Linked(task, name, penalty).confidence == Compose(cited, e.llm, penalty);
    if Measured(task, e.ids, id, c) {
      CitedIs(task, e.ids, Some(c));
      var i :| 0 <= i < |e.ids| && e.ids[i] == id;
      assert Some(c) in cited;
      var k :| 0 <= k < |cited| && cited[k] == Some(c);
    }
  }

  // ------------------------------------------------------------------------
  // The counters
  // ------------------------------------------------------------------------

  datatype Counter = Emissions | Acceptances | CitationRejections | GroundingRejections | LowConfidences | NullsCited

  function ValueOf(counts: Counts, counter: Counter): nat {
    match counter
    case Emissions => counts.emitted
    case Acceptances => counts.accepted
    case CitationRejections => counts.rejectedCitation
    case GroundingRejections => counts.rejectedGrounding
    case LowConfidences => counts.flaggedLow
    case NullsCited => counts.nullWithCitation
  }

  ghost predicate RejectedFor(task: Task, name: string, code: RejectionCode) {
    Ruled(task, name, REJECT) && task.gate(task.fields[name].value, task.fields[name].ids).code == Some(code)
  }

  /** Which fields a counter counts. */
  ghost predicate IsCounted(task: Task, name: string, penalty: real, counter: Counter) {
    match counter
    case Emissions => WasReturned(task, name)
    case Acceptances => Ruled(task, name, ACCEPT) || Ruled(task, name, ACCEPT_NULL)
    case CitationRejections => Ruled(task, name, REJECT) && !RejectedFor(task, name, NOT_GROUNDED)
    case GroundingRejections => RejectedFor(task, name, NOT_GROUNDED)
    case LowConfidences => Ruled(task, name, ACCEPT) && Linked(task, name, penalty).state == FLAGGED
    case NullsCited => RejectedFor(task, name, NULL_WITH_CITATION)
  }

  lemma OneFieldCounts(task: Task, name: string, penalty: real, counter: Counter)
    ensures ValueOf(Counted(task, name, penalty), counter) == if IsCounted(task, name, penalty, counter) then 1 else 0
  {
  }

  lemma OneMoreCounted(task: Task, names: seq<string>, penalty: real, n: nat, counter: Counter)
    requires n < |names|
    ensures ValueOf(CountsOf(task, names, penalty, n + 1), counter)
      == ValueOf(CountsOf(task, names, penalty, n), counter) + if IsCounted(task, names[n], penalty, counter) then 1 else 0
  {
    OneFieldCounts(task, names[n], penalty, counter);
    ValueOfPlus(CountsOf(task, names, penalty, n), Counted(task, names[n], penalty), counter);
  }

  lemma ValueOfPlus(a: Counts, b: Counts, counter: Counter)
    ensures ValueOf(Plus(a, b), counter) == ValueOf(a, counter) + ValueOf(b, counter)
  {
  }

  ghost function CountedPlaces(task: Task, names: seq<string>, penalty: real, n: nat, counter: Counter): set<int>
    requires n <= |names|
  {
    set i | 0 <= i < n && IsCounted(task, names[i], penalty, counter)
  }

  lemma OneMoreCountedPlace(task: Task, names: seq<string>, penalty: real, n: nat, counter: Counter)
    requires n < |names|
    ensures |CountedPlaces(task, names, penalty, n + 1, counter)|
      == |CountedPlaces(task, names, penalty, n, counter)| + if IsCounted(task, names[n], penalty, counter) then 1 else 0
  {
    OneMorePlace(CountedPlaces(task, names, penalty, n, counter), CountedPlaces(task, names, penalty, n + 1, counter), n,
                 IsCounted(task, names[n], penalty, counter));
  }

  /** After the first `n` fields each counter is the number of those it counts. */
  lemma {:induction false} CountersAre(task: Task, names: seq<string>, penalty: real, n: nat, counter: Counter)
    requires n <= |names|
    ensures ValueOf(CountsOf(task, names, penalty, n), counter) == |CountedPlaces(task, names, penalty, n, counter)|
  {
    if n == 0 {
      assert CountedPlaces(task, names, penalty, 0, counter) == {};
    } else {
      CountersAre(task, names, penalty, n - 1, counter);
      OneMoreCounted(task, names, penalty, n - 1, counter);
      OneMoreCountedPlace(task, names, penalty, n - 1, counter);
    }
  }
}
