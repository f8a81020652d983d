/**
 What a scored candidate says of its item, stated on the opening's criteria and the catalogue row,
 and which candidates a match turns away.
 */
module CandidateScores {
  import opened Prelude
  import opened Texts
  import opened Sorting
  import opened Matching

  /**
   The verdicts of a candidate: the three hard constraints one by one, over-specification (a rating
   beyond what is asked), the finish that was wanted, and a vendor other than the one named.
   */
  lemma VerdictsAre(criteria: Criteria, item: Item, tolerance: int, similarity: Similarity)
    ensures var c, hard, offer := Scored(criteria, item, tolerance, similarity), criteria.hard, item.offer;
      && c.item == item
      && (c.ratingOk <==> hard.rating.None? || (offer.rating.Some? && offer.rating.value >= hard.rating.value))
      && (c.handingOk <==> hard.handing.None? || offer.handing.None? || offer.handing == hard.handing)
      && (c.divisionOk <==> hard.division.None? || offer.division.None? || offer.division == hard.division)
      && (c.overSpecified <==>
            c.ratingOk && offer.rating.Some? && (hard.rating.None? || offer.rating.value != hard.rating.value))
      && (c.finishOk <==>
            criteria.soft.finish.Some? && item.looks.finish.Some? && criteria.soft.finish.value == item.looks.finish.value.0)
      && (c.isDirectEqual <==> criteria.soft.vendor != "" && Upper(criteria.soft.vendor) != Upper(item.looks.vendor))
  {
  }

  // The soft scores.

  /** Finish: exact, same base metal, another, none on the item, none asked. */
  predicate IsFinishScore(score: real, soft: Soft, looks: Looks) {
    && (soft.finish.None? ==> score == 0.5)
    && (soft.finish.Some? && looks.finish.None? ==> score == 0.3)
    && (soft.finish.Some? && looks.finish.Some? ==>
          var same := looks.finish.value.0 == soft.finish.value;
          var sameMetal := |soft.baseMetal| > 0 && looks.finish.value.1 == soft.baseMetal;
          && (same ==> score == 1.0) && (!same && sameMetal ==> score == 0.4) && (!same && !sameMetal ==> score == 0.05))
  }

  predicate Within(a: (int, int), b: (int, int), tolerance: int) {
    -tolerance <= a.0 - b.0 <= tolerance && -tolerance <= a.1 - b.1 <= tolerance
  }

  predicate IsSizeScore(score: real, soft: Soft, looks: Looks, tolerance: int) {
    && (soft.size.None? || looks.size.None? ==> score == 0.5)
    && (soft.size.Some? && looks.size.Some? ==>
          && (looks.size.value == soft.size.value ==> score == 1.0)
          && (looks.size.value != soft.size.value && Within(looks.size.value, soft.size.value, tolerance) ==> score == 0.6)
          && (looks.size.value != soft.size.value && !Within(looks.size.value, soft.size.value, tolerance) ==> score == 0.1))
  }

  /** Vendor and series: not named, another vendor, the same in another series, in the same, or with a series untold. */
  predicate IsVendorScore(score: real, soft: Soft, looks: Looks) {
    var sameVendor := Upper(looks.vendor) == Upper(soft.vendor);
    var sameSeries := Upper(looks.series) == Upper(soft.series);
    var told := |soft.series| > 0 && |looks.series| > 0;
    && (soft.vendor == "" ==> score == 0.5)
    && (soft.vendor != "" && !sameVendor ==> score == 0.3)
    && (soft.vendor != "" && sameVendor && told && sameSeries ==> score == 1.0)
    && (soft.vendor != "" && sameVendor && told && !sameSeries ==> score == 0.6)
    && (soft.vendor != "" && sameVendor && !told ==> score == 0.9)
  }

  predicate IsStockScore(score: real, looks: Looks) {
    score == if looks.isStock then 1.0 else 0.4
  }

  /** Text is worth something only between two descriptions. */
  predicate IsTextScore(score: real, soft: Soft, looks: Looks, similarity: Similarity) {
    if |soft.description| == 0 || |looks.description| == 0 then score == 0.0
    else score * 100.0 == similarity(soft.description, looks.description)
  }

  lemma ScoresAre(criteria: Criteria, item: Item, tolerance: int, similarity: Similarity)
    ensures var s := Scored(criteria, item, tolerance, similarity).scores;
      && IsFinishScore(s.finish, criteria.soft, item.looks) && IsSizeScore(s.size, criteria.soft, item.looks, tolerance)
      && IsVendorScore(s.vendor, criteria.soft, item.looks) && IsStockScore(s.stock, item.looks)
      && IsTextScore(s.text, criteria.soft, item.looks, similarity)
  {
    SizeScoreIs(criteria.soft, item.looks, tolerance);
  }

  lemma SizeScoreIs(soft: Soft, looks: Looks, tolerance: int)
    ensures IsSizeScore(ScoreSize(soft, looks, tolerance), soft, looks, tolerance)
  {
  }

  /** `n` ten-thousandths are nearest to `x`, the even ones on a tie. */
  predicate IsNearestEven(n: int, x: real) {
    var off := n as real - x * 10_000.0;
    -0.5 <= off <= 0.5 && (off == 0.5 || off == -0.5 ==> n % 2 == 0)
  }

  lemma RoundIsNearest(x: real)
    ensures IsNearestEven(Round4(x), x)
  {
  }

  /** Both the opening and the item give a part number, and they agree but for case. */
  predicate PartIsNamed(soft: Soft, looks: Looks) {
    |soft.partNumber| > 0 && |looks.partNumber| > 0 && Upper(looks.partNumber) == Upper(soft.partNumber)
  }

  /**
   The confidence: nothing for an item that does not suit, 0.98 for the part that is named, else
   the weighted sum of the scores to four places.
   */
  lemma ConfidenceIs(criteria: Criteria, item: Item, tolerance: int, similarity: Similarity)
    ensures var c := Scored(criteria, item, tolerance, similarity);
      && c.confidence == Confidence(criteria, item, tolerance, similarity)
      && (!Suits(criteria.hard, item.offer) ==> c.confidence == 0)
      && (Suits(criteria.hard, item.offer) && PartIsNamed(criteria.soft, item.looks) ==> c.confidence == 9_800)
      && (Suits(criteria.hard, item.offer) && !PartIsNamed(criteria.soft, item.looks) ==>
            IsNearestEven(c.confidence, 0.30 * c.scores.finish + 0.25 * c.scores.vendor + 0.20 * c.scores.size
                                        + 0.15 * c.scores.text + 0.10 * c.scores.stock))
  {
    EligibleIffItSuits(criteria, item, tolerance, similarity);
    RoundIsNearest(Weighted(ScoresOf(criteria.soft, item.looks, tolerance, similarity)));
  }

  // What is turned away.

  function Suitable(hard: Hard, items: seq<Item>, suits: bool): seq<Item> {
    Filter(items, (item: Item) => Suits(hard, item.offer) == suits)
  }

  lemma {:induction false} ScoredByVerdict(criteria: Criteria, items: seq<Item>, tolerance: int, similarity: Similarity)
    ensures Eligible(ScoredAll(criteria, items, tolerance, similarity))
      == ScoredAll(criteria, Suitable(criteria.hard, items, true), tolerance, similarity)
    ensures Rejected(ScoredAll(criteria, items, tolerance, similarity))
      == ScoredAll(criteria, Suitable(criteria.hard, items, false), tolerance, similarity)
  {
    if items != [] {
      var before, last := items[..|items| - 1], items[|items| - 1];
      ScoredByVerdict(criteria, before, tolerance, similarity);
      EligibleIffItSuits(criteria, last, tolerance, similarity);
      var scored := ScoredAll(criteria, items, tolerance, similarity);
      assert scored[..|scored| - 1] == ScoredAll(criteria, before, tolerance, similarity);
    }
  }

  /**
   With rating and handing resolved, the suitable items are ranked and the others turned away, each
   in the order offered; otherwise nothing is ranked or turned away and the opening is manual.
   */
  lemma OffersAreSorted(criteria: Criteria, items: seq<Item>, settings: Settings, similarity: Similarity)
    ensures var r := Match(criteria, items, settings, similarity);
      && (Resolved(criteria.hard) ==>
            && r.rejected == ScoredAll(criteria, Suitable(criteria.hard, items, false), settings.tolerance, similarity)
            && IsTopN(r.accepted,
                      Rest(Ranked(ScoredAll(criteria, Suitable(criteria.hard, items, true), settings.tolerance, similarity)), settings.topN),
                      ScoredAll(criteria, Suitable(criteria.hard, items, true), settings.tolerance, similarity), settings.topN))
      && (!Resolved(criteria.hard) ==> r.accepted == [] && r.rejected == [] && r.status == MANUAL)
  {
    ScoredByVerdict(criteria, items, settings.tolerance, similarity);
    if Resolved(criteria.hard) {
      AcceptedIsTopN(criteria, items, settings, similarity);
    }
  }
}
