/** The validation gate and the composite confidence (backend/pipeline/llm/validators/gate.py). */
module Gate {
  import opened Prelude
  import opened Texts

  datatype Verdict = ACCEPT | ACCEPT_NULL | REJECT

  datatype RejectionCode = UNKNOWN_ELEMENT | NULL_WITH_CITATION | VALUE_WITHOUT_CITATION | NOT_GROUNDED

  datatype FieldVerdict = FieldVerdict(verdict: Verdict, code: Option<RejectionCode>, score: Option<real>)

  /** `grounding_score` of a value in the cited text: any function, between 0 and 100. */
  type Grounding = (string, string) -> real

  predicate IsBlank(value: Option<string>) {
    value.None? || Strip(value.value) == ""
  }

  predicate AllSupplied(ids: seq<string>, supplied: map<string, string>) {
    forall i :: 0 <= i < |ids| ==> ids[i] in supplied
  }

  /** The texts of the cited elements, joined with spaces. */
  function CitedText(ids: seq<string>, supplied: map<string, string>): string
    requires AllSupplied(ids, supplied)
  {
    if ids == [] then ""
    else if |ids| == 1 then supplied[ids[0]]
    else CitedText(ids[..|ids| - 1], supplied) + " " + supplied[ids[|ids| - 1]]
  }

  /** `validate_field` */
  function Validate(value: Option<string>, ids: seq<string>, supplied: map<string, string>,
                    grounding: Grounding, minRatio: real): FieldVerdict {
    if !AllSupplied(ids, supplied) then
      FieldVerdict(REJECT, Some(UNKNOWN_ELEMENT), None)
    else if IsBlank(value) then
      if ids != [] then FieldVerdict(REJECT, Some(NULL_WITH_CITATION), None) else FieldVerdict(ACCEPT_NULL, None, None)
    else if ids == [] then
      FieldVerdict(REJECT, Some(VALUE_WITHOUT_CITATION), None)
    else
      var score := grounding(value.value, CitedText(ids, supplied));
      if score < minRatio then FieldVerdict(REJECT, Some(NOT_GROUNDED), Some(score))
      else FieldVerdict(ACCEPT, None, Some(score))
  }

  /** A value is accepted exactly when it cites, cites only what the model was shown, and is there. */
  ghost predicate IsTraceable(value: Option<string>, ids: seq<string>, supplied: map<string, string>,
                              grounding: Grounding, minRatio: real) {
    && !IsBlank(value) && ids != [] && AllSupplied(ids, supplied)
    && grounding(value.value, CitedText(ids, supplied)) >= minRatio
  }

  lemma AcceptedIffTraceable(value: Option<string>, ids: seq<string>, supplied: map<string, string>,
                             grounding: Grounding, minRatio: real)
    ensures var v := Validate(value, ids, supplied, grounding, minRatio).verdict;
      && (v == ACCEPT <==> IsTraceable(value, ids, supplied, grounding, minRatio))
      && (v == ACCEPT_NULL <==> IsBlank(value) && ids == [])
  {
  }

  // Confidence.

  datatype Confidence = Confidence(ocr: Option<real>, llm: Option<real>, final: Option<real>)

  function Min(a: real, b: real): real {
    if a <= b then a else b
  }

  /** The lowest measured confidence; elements read from a text layer have none. */
  function Lowest(confidences: seq<Option<real>>): Option<real> {
    if confidences == [] then
      None
    else
      var before, last := Lowest(confidences[..|confidences| - 1]), confidences[|confidences| - 1];
      if last.None? then before else if before.None? then last else Some(Min(before.value, last.value))
  }

  /** `completeness_penalty` */
  function Penalty(populated: nat, expected: nat): real {
    if expected == 0 then 1.0 else Min(1.0, populated as real / expected as real)
  }

  /** The lesser of what is known. */
  function Lesser(ocr: Option<real>, llm: Option<real>): Option<real> {
    if ocr.None? then llm else if llm.None? then ocr else Some(Min(ocr.value, llm.value))
  }

  function Final(ocr: Option<real>, llm: Option<real>, penalty: real): Option<real> {
    var lesser := Lesser(ocr, llm);
    if lesser.None? then None else Some(lesser.value * penalty)
  }

  /** `compose` */
  function Compose(confidences: seq<Option<real>>, llm: Option<real>, penalty: real): Confidence {
    var ocr := Lowest(confidences);
    Confidence(ocr, llm, Final(ocr, llm, penalty))
  }

  lemma {:induction false} LowestIsLowest(confidences: seq<Option<real>>)
    ensures Lowest(confidences).None? <==> forall i :: 0 <= i < |confidences| ==> confidences[i].None?
    ensures Lowest(confidences).Some? ==> Lowest(confidences) in confidences
    ensures forall i :: 0 <= i < |confidences| && confidences[i].Some? ==>
      Lowest(confidences).Some? && Lowest(confidences).value <= confidences[i].value
  {
    if confidences != [] {
      var rest := confidences[..|confidences| - 1];
      LowestIsLowest(rest);
      assert forall i :: 0 <= i < |rest| ==> rest[i] == confidences[i];
    }
  }

  lemma ScaledDown(x: real, penalty: real, scaled: real)
    requires 0.0 <= x && 0.0 <= penalty <= 1.0 && scaled == x * penalty
    ensures 0.0 <= scaled <= x
  {
  }

  lemma PenaltyIsAFraction(populated: nat, expected: nat)
    ensures 0.0 <= Penalty(populated, expected) <= 1.0
  {
    if expected > 0 {
      assert populated as real / expected as real >= 0.0;
    }
  }

  lemma LesserIsLesser(ocr: Option<real>, llm: Option<real>)
    ensures var lesser := Lesser(ocr, llm);
      && (lesser.None? <==> llm.None? && ocr.None?) && lesser in {ocr, llm, None}
      && (llm.Some? ==> lesser.Some? && lesser.value <= llm.value)
      && (ocr.Some? ==> lesser.Some? && lesser.value <= ocr.value)
  {
  }

  lemma LesserIsNonNegative(ocr: Option<real>, llm: Option<real>)
    requires (ocr.Some? ==> ocr.value >= 0.0) && (llm.Some? ==> llm.value >= 0.0)
    ensures Lesser(ocr, llm).Some? ==> Lesser(ocr, llm).value >= 0.0
  {
  }

  lemma LowestIsNonNegative(confidences: seq<Option<real>>)
    requires forall i :: 0 <= i < |confidences| && confidences[i].Some? ==> confidences[i].value >= 0.0
    ensures Lowest(confidences).Some? ==> Lowest(confidences).value >= 0.0
  {
    LowestIsLowest(confidences);
    if Lowest(confidences).Some? {
      var i :| 0 <= i < |confidences| && confidences[i] == Lowest(confidences);
    }
  }

  lemma FinalIsBelowLesser(ocr: Option<real>, llm: Option<real>, penalty: real)
    requires 0.0 <= penalty <= 1.0 && (Lesser(ocr, llm).Some? ==> Lesser(ocr, llm).value >= 0.0)
    ensures var final, lesser := Final(ocr, llm, penalty), Lesser(ocr, llm);
      (final.None? <==> lesser.None?) && (final.Some? ==> final.value <= lesser.value)
  {
    var lesser, final := Lesser(ocr, llm), Final(ocr, llm, penalty);
    if lesser.Some? {
      ScaledDown(lesser.value, penalty, final.value);
    }
  }

  lemma ComposedIsBelowLesser(confidences: seq<Option<real>>, llm: Option<real>, penalty: real)
    requires 0.0 <= penalty <= 1.0 && (llm.Some? ==> llm.value >= 0.0)
    requires forall i :: 0 <= i < |confidences| && confidences[i].Some? ==> confidences[i].value >= 0.0
    ensures var final, lesser := Compose(confidences, llm, penalty).final, Lesser(Lowest(confidences), llm);
      (final.None? <==> lesser.None?) && (final.Some? ==> final.value <= lesser.value)
  {
    LowestIsNonNegative(confidences);
    LesserIsNonNegative(Lowest(confidences), llm);
    FinalIsBelowLesser(Lowest(confidences), llm, penalty);
  }

  /** What is below the lesser is below the model's confidence and every cited element's. */
  lemma BelowLesser(confidences: seq<Option<real>>, llm: Option<real>, final: Option<real>)
    requires var lesser := Lesser(Lowest(confidences), llm);
      (final.None? <==> lesser.None?) && (final.Some? ==> final.value <= lesser.value)
    ensures NoHigher(confidences, llm, final)
  {
    LowestIsLowest(confidences);
    LesserIsLesser(Lowest(confidences), llm);
  }

  /** Something known exactly when an input is, and no higher than any of them. */
  ghost predicate NoHigher(confidences: seq<Option<real>>, llm: Option<real>, final: Option<real>) {
    && (final.None? <==> llm.None? && forall i :: 0 <= i < |confidences| ==> confidences[i].None?)
    && (final.Some? && llm.Some? ==> final.value <= llm.value)
    && (final.Some? ==> forall i :: 0 <= i < |confidences| && confidences[i].Some? ==> final.value <= confidences[i].value)
  }

  /**
   Under any penalty in [0, 1] (`PenaltyIsAFraction`), the final confidence never exceeds the
   model's own, nor that of any cited element.
   */
  lemma FinalNeverExceedsItsInputs(confidences: seq<Option<real>>, llm: Option<real>, penalty: real)
    requires 0.0 <= penalty <= 1.0 && (llm.Some? ==> llm.value >= 0.0)
    requires forall i :: 0 <= i < |confidences| && confidences[i].Some? ==> confidences[i].value >= 0.0
    ensures NoHigher(confidences, llm, Compose(confidences, llm, penalty).final)
  {
    ComposedIsBelowLesser(confidences, llm, penalty);
    BelowLesser(confidences, llm, Compose(confidences, llm, penalty).final);
  }
}
