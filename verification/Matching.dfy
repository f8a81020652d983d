/**
 Scoring and ranking of catalogue items (backend/pipeline/stages/match.py).

 Hard constraints decide who is a candidate, soft constraints rank. Scores are exact reals and
 confidences count ten-thousandths; the text similarity is any function of two texts. A text
 that Python treats as absent (None or empty) is the empty string here.
 */
module Matching {
  import opened Prelude
  import opened Texts
  import opened Sorting

  datatype Handing = LH | RH | LHR | RHR

  /** What the hard constraints need to know of an opening. `absent` is a positive statement. */
  datatype Hard = Hard(
    division: Option<string>, rating: Option<int>, ratingAbsent: bool,
    handing: Option<Handing>, handingAbsent: bool)

  datatype Soft = Soft(
    description: string, finish: Option<nat>, baseMetal: string, size: Option<(int, int)>,
    vendor: string, series: string, partNumber: string)

  datatype Criteria = Criteria(hard: Hard, soft: Soft)

  /** What a catalogue item offers against the hard constraints. */
  datatype Offer = Offer(division: Option<string>, rating: Option<int>, handing: Option<Handing>)

  datatype Looks = Looks(
    description: string, finish: Option<(nat, string)>, size: Option<(int, int)>,
    vendor: string, series: string, partNumber: string, isStock: bool)

  datatype Item = Item(id: nat, offer: Offer, looks: Looks)

  type Similarity = (string, string) -> real

  // Hard constraints.

  /** `(ok, over-specified)` */
  function CheckRating(hard: Hard, offer: Offer): (bool, bool) {
    if hard.rating.None? then (true, offer.rating.Some?)
    else if offer.rating.None? || offer.rating.value < hard.rating.value then (false, false)
    else (true, offer.rating.value > hard.rating.value)
  }

  /** `(ok, flagged)` */
  function CheckHanding(hard: Hard, offer: Offer): (bool, bool) {
    if offer.handing.None? then (true, false)
    else if hard.handing.None? then (true, true)
    else (hard.handing == offer.handing, false)
  }

  function CheckDivision(hard: Hard, offer: Offer): bool {
    offer.division.None? || hard.division.None? || offer.division == hard.division
  }

  /**
   What estimators mean by a legitimate item: certified for at least the required minutes, not of
   another hand, not of another division.
   */
  predicate Suits(hard: Hard, offer: Offer) {
    && (hard.rating.Some? ==> offer.rating.Some? && offer.rating.value >= hard.rating.value)
    && (hard.handing.Some? && offer.handing.Some? ==> offer.handing.value == hard.handing.value)
    && (hard.division.Some? && offer.division.Some? ==> offer.division.value == hard.division.value)
  }

  predicate Unresolved(hard: Hard) {
    (hard.rating.None? && !hard.ratingAbsent) || (hard.handing.None? && !hard.handingAbsent)
  }

  /** The rating is known or positively absent, and so is the handing. */
  predicate Resolved(hard: Hard) {
    (hard.rating.Some? || hard.ratingAbsent) && (hard.handing.Some? || hard.handingAbsent)
  }

  // Soft constraints.

  function ScoreFinish(soft: Soft, looks: Looks): (real, bool) {
    if soft.finish.None? then (0.5, false)
    else if looks.finish.None? then (0.3, false)
    else if looks.finish.value.0 == soft.finish.value then (1.0, true)
    else if soft.baseMetal != "" && looks.finish.value.1 == soft.baseMetal then (0.4, false)
    else (0.05, false)
  }

  function Distance(a: int, b: int): nat {
    if a < b then b - a else a - b
  }

  function ScoreSize(soft: Soft, looks: Looks, tolerance: int): real {
    if soft.size.None? || looks.size.None? then 0.5
    else if looks.size == soft.size then 1.0
    else if Distance(looks.size.value.0, soft.size.value.0) <= tolerance
         && Distance(looks.size.value.1, soft.size.value.1) <= tolerance then 0.6
    else 0.1
  }

  predicate SameText(a: string, b: string) {
    Upper(a) == Upper(b)
  }

  /** `(score, is a direct equal)` */
  function ScoreVendor(soft: Soft, looks: Looks): (real, bool) {
    if soft.vendor == "" then (0.5, false)
    else if !SameText(looks.vendor, soft.vendor) then (0.3, true)
    else if soft.series != "" && looks.series != "" then
      (if SameText(looks.series, soft.series) then 1.0 else 0.6, false)
    else (0.9, false)
  }

  function ScoreStock(looks: Looks): real {
    if looks.isStock then 1.0 else 0.4
  }

  function ScoreText(soft: Soft, looks: Looks, similarity: Similarity): real {
    if soft.description == "" || looks.description == "" then 0.0
    else similarity(soft.description, looks.description) / 100.0
  }

  /** `round(x, 4)`, as a count of ten-thousandths: half to even. */
  function Round4(x: real): int {
    var whole := (x * 10_000.0).Floor;
    var rest := x * 10_000.0 - whole as real;
    if rest < 0.5 || (rest == 0.5 && whole % 2 == 0) then whole else whole + 1
  }

  const PART_NUMBER_CONFIDENCE := 9_800

  datatype Scores = Scores(finish: real, size: real, vendor: real, stock: real, text: real)

  function Weighted(s: Scores): real {
    s.finish * 0.30 + s.vendor * 0.25 + s.size * 0.20 + s.text * 0.15 + s.stock * 0.10
  }

  datatype Settings = Settings(topN: nat, cutoff: int, tolerance: int)

  datatype Candidate = Candidate(
    item: Item, ratingOk: bool, handingOk: bool, divisionOk: bool, overSpecified: bool,
    finishOk: bool, isDirectEqual: bool, scores: Scores, confidence: int)
  {
    predicate Eligible() {
      ratingOk && handingOk && divisionOk
    }
  }

  predicate NamesThePart(soft: Soft, looks: Looks) {
    soft.partNumber != "" && looks.partNumber != "" && SameText(soft.partNumber, looks.partNumber)
  }

  function ScoresOf(soft: Soft, looks: Looks, tolerance: int, similarity: Similarity): Scores {
    Scores(ScoreFinish(soft, looks).0, ScoreSize(soft, looks, tolerance), ScoreVendor(soft, looks).0,
           ScoreStock(looks), ScoreText(soft, looks, similarity))
  }

  function Confidence(criteria: Criteria, item: Item, tolerance: int, similarity: Similarity): int {
    var eligible := CheckRating(criteria.hard, item.offer).0 && CheckHanding(criteria.hard, item.offer).0
                    && CheckDivision(criteria.hard, item.offer);
    if !eligible then 0
    else if NamesThePart(criteria.soft, item.looks) then PART_NUMBER_CONFIDENCE
    else Round4(Weighted(ScoresOf(criteria.soft, item.looks, tolerance, similarity)))
  }

  /** `score_candidate` */
  function Scored(criteria: Criteria, item: Item, tolerance: int, similarity: Similarity): Candidate {
    var (ratingOk, overSpecified) := CheckRating(criteria.hard, item.offer);
    Candidate(item, ratingOk, CheckHanding(criteria.hard, item.offer).0, CheckDivision(criteria.hard, item.offer),
              overSpecified, ScoreFinish(criteria.soft, item.looks).1, ScoreVendor(criteria.soft, item.looks).1,
              ScoresOf(criteria.soft, item.looks, tolerance, similarity),
              Confidence(criteria, item, tolerance, similarity))
  }

  /** No score buys eligibility: a candidate is eligible exactly when the item suits the opening. */
  lemma EligibleIffItSuits(criteria: Criteria, item: Item, tolerance: int, similarity: Similarity)
    ensures Scored(criteria, item, tolerance, similarity).Eligible() <==> Suits(criteria.hard, item.offer)
  {
  }

  ghost predicate IsSimilarity(similarity: Similarity) {
    forall a, b :: 0.0 <= similarity(a, b) <= 100.0
  }

  /** The weights sum to one, so a confidence is a fraction and compares with the cut-off. */
  lemma ConfidenceIsAFraction(criteria: Criteria, item: Item, tolerance: int, similarity: Similarity)
    requires IsSimilarity(similarity)
    ensures 0 <= Scored(criteria, item, tolerance, similarity).confidence <= 10_000
  {
    var s := ScoresOf(criteria.soft, item.looks, tolerance, similarity);
    assert 0.0 <= s.text <= 1.0 by {
      assert 0.0 <= similarity(criteria.soft.description, item.looks.description) <= 100.0;
    }
    RoundOfFraction(Weighted(s));
  }

  lemma RoundOfFraction(x: real)
    requires 0.0 <= x <= 1.0
    ensures 0 <= Round4(x) <= 10_000
  {
    assert 0.0 <= x * 10_000.0 <= 10_000.0;
    if x * 10_000.0 == 10_000.0 {
      assert (x * 10_000.0).Floor == 10_000;
    }
  }

  // How far text similarity can go.

  lemma RoundIsMonotone(x: real, y: real)
    requires x <= y
    ensures Round4(x) <= Round4(y)
  {
  }

  /** Rounding commutes with adding an even number of ten-thousandths. */
  lemma RoundOfShift(x: real, k: int)
    ensures Round4(x + 2.0 * k as real / 10_000.0) == Round4(x) + 2 * k
  {
    var y := x + 2.0 * k as real / 10_000.0;
    assert y * 10_000.0 == x * 10_000.0 + (2 * k) as real;
    assert (x * 10_000.0 + (2 * k) as real).Floor == (x * 10_000.0).Floor + 2 * k;
  }

  /** The score with the text left out; the text adds between nothing and 0.15. */
  function WithoutText(s: Scores): real {
    s.finish * 0.30 + s.vendor * 0.25 + s.size * 0.20 + s.stock * 0.10
  }

  lemma TextAddsAtMost(soft: Soft, looks: Looks, tolerance: int, similarity: Similarity)
    requires IsSimilarity(similarity)
    ensures var s := ScoresOf(soft, looks, tolerance, similarity);
      WithoutText(s) <= Weighted(s) <= WithoutText(s) + 0.15
  {
    assert 0.0 <= similarity(soft.description, looks.description) <= 100.0;
  }

  /**
   Whatever two similarity functions say, they place an item within 0.15 of each other; and they
   agree on an item that is ineligible or is the named part.
   */
  lemma TextIsWorthAtMost(criteria: Criteria, item: Item, tolerance: int, a: Similarity, b: Similarity)
    requires IsSimilarity(a) && IsSimilarity(b)
    ensures Confidence(criteria, item, tolerance, a) <= Confidence(criteria, item, tolerance, b) + 1_500
    ensures !Suits(criteria.hard, item.offer) || NamesThePart(criteria.soft, item.looks) ==>
      Confidence(criteria, item, tolerance, a) == Confidence(criteria, item, tolerance, b)
  {
    var s, t := ScoresOf(criteria.soft, item.looks, tolerance, a), ScoresOf(criteria.soft, item.looks, tolerance, b);
    TextAddsAtMost(criteria.soft, item.looks, tolerance, a);
    TextAddsAtMost(criteria.soft, item.looks, tolerance, b);
    RoundIsMonotone(Weighted(s), Weighted(t) + 0.15);
    RoundOfShift(Weighted(t), 750);
  }

  /** The items differ in nothing that is scored but their finish and their description. */
  ghost predicate AlikeButFinish(a: Item, b: Item) {
    a.offer == b.offer && a.looks == b.looks.(description := a.looks.description, finish := a.looks.finish)
  }

  /**
   No description makes up for a finish: of two items alike but for finish and text, the one with
   the wanted finish code ranks above one with any other finish, for every similarity function.
   */
  lemma ExactFinishOutranksText(criteria: Criteria, a: Item, b: Item, tolerance: int, similarity: Similarity)
    requires IsSimilarity(similarity) && AlikeButFinish(a, b) && Suits(criteria.hard, a.offer)
    requires !NamesThePart(criteria.soft, a.looks)
    requires ScoreFinish(criteria.soft, a.looks).1 && !ScoreFinish(criteria.soft, b.looks).1
    ensures Confidence(criteria, a, tolerance, similarity) >= Confidence(criteria, b, tolerance, similarity) + 300
  {
    var s, t := ScoresOf(criteria.soft, a.looks, tolerance, similarity), ScoresOf(criteria.soft, b.looks, tolerance, similarity);
    EligibleIffItSuits(criteria, a, tolerance, similarity);
    TextAddsAtMost(criteria.soft, a.looks, tolerance, similarity);
    TextAddsAtMost(criteria.soft, b.looks, tolerance, similarity);
    assert s.finish == 1.0 && t.finish <= 0.4 && s.vendor == t.vendor && s.size == t.size && s.stock == t.stock;
    RoundIsMonotone(Weighted(t) + 0.03, Weighted(s));
    RoundOfShift(Weighted(t), 150);
  }

  /**
   Text is no mere tiebreaker, and not the lowest weight: it can put an item that is not stocked
   above a stocked one that is alike but for its description.
   */
  lemma TextCanOutrankStock(criteria: Criteria, a: Item, b: Item, tolerance: int, similarity: Similarity)
    requires a.offer == b.offer && Suits(criteria.hard, a.offer) && !NamesThePart(criteria.soft, a.looks)
    requires !a.looks.isStock && a.looks == b.looks.(description := a.looks.description, isStock := false) && b.looks.isStock
    requires criteria.soft.description != "" && a.looks.description != "" && b.looks.description != ""
    requires similarity(criteria.soft.description, a.looks.description) == 100.0
    requires similarity(criteria.soft.description, b.looks.description) == 0.0
    ensures Confidence(criteria, a, tolerance, similarity) == Confidence(criteria, b, tolerance, similarity) + 900
  {
    var s, t := ScoresOf(criteria.soft, a.looks, tolerance, similarity), ScoresOf(criteria.soft, b.looks, tolerance, similarity);
    EligibleIffItSuits(criteria, a, tolerance, similarity);
    assert Weighted(s) == Weighted(t) + 0.09;
    RoundOfShift(Weighted(t), 450);
  }

  // Ranking.

  function ScoredAll(criteria: Criteria, items: seq<Item>, tolerance: int, similarity: Similarity): (r: seq<Candidate>)
    ensures |r| == |items|
    ensures forall i :: 0 <= i < |items| ==> r[i] == Scored(criteria, items[i], tolerance, similarity)
  {
    seq(|items|, i requires 0 <= i < |items| => Scored(criteria, items[i], tolerance, similarity))
  }

  function Eligible(scored: seq<Candidate>): seq<Candidate> {
    Filter(scored, (c: Candidate) => c.Eligible())
  }

  function Rejected(scored: seq<Candidate>): seq<Candidate> {
    Filter(scored, (c: Candidate) => !c.Eligible())
  }

  /** Best first, ties in scoring order: a stable descending sort. */
  function Ranked(eligible: seq<Candidate>): (r: seq<Candidate>)
    ensures |r| == |eligible|
  {
    StableSort(eligible, (c: Candidate) => -c.confidence)
  }

  datatype MatchStatus = PROPOSED | ACCEPTED | REJECTED | MANUAL | AWAITING_RFQ

  datatype MatchResult = MatchResult(accepted: seq<Candidate>, rejected: seq<Candidate>, status: MatchStatus)

  function Top(ranked: seq<Candidate>, n: nat): seq<Candidate> {
    if n < |ranked| then ranked[..n] else ranked
  }

  /** `match_criteria`, over the items the snapshot offers. */
  function Match(criteria: Criteria, items: seq<Item>, settings: Settings, similarity: Similarity): MatchResult {
    if Unresolved(criteria.hard) then
      MatchResult([], [], MANUAL)
    else
      var scored := ScoredAll(criteria, items, settings.tolerance, similarity);
      var accepted := Top(Ranked(Eligible(scored)), settings.topN);
      MatchResult(accepted, Rejected(scored),
                  if accepted == [] || accepted[0].confidence < settings.cutoff then MANUAL else PROPOSED)
  }

  function Rest(ranked: seq<Candidate>, n: nat): seq<Candidate> {
    if n < |ranked| then ranked[n..] else []
  }

  /** `accepted` and `out` split the candidates into the best `n` and the others. */
  ghost predicate IsTopN(accepted: seq<Candidate>, out: seq<Candidate>, candidates: seq<Candidate>, n: nat) {
    && multiset(accepted) + multiset(out) == multiset(candidates)
    && (forall i, j :: 0 <= i < j < |accepted| ==> accepted[i].confidence >= accepted[j].confidence)
    && (forall i, j :: 0 <= i < |accepted| && 0 <= j < |out| ==> accepted[i].confidence >= out[j].confidence)
    && |accepted| <= n && (out != [] ==> |accepted| == n)
  }

  ghost predicate BestFirst(ranked: seq<Candidate>) {
    forall i, j :: 0 <= i < j < |ranked| ==> ranked[i].confidence >= ranked[j].confidence
  }

  lemma RankedIsBestFirst(eligible: seq<Candidate>)
    ensures BestFirst(Ranked(eligible)) && multiset(Ranked(eligible)) == multiset(eligible)
  {
    var key := (c: Candidate) => -c.confidence;
    SortIsSorted(eligible, key);
    SortKeepsElements(eligible, key);
    var ranked := Ranked(eligible);
    forall i, j | 0 <= i < j < |ranked| ensures ranked[i].confidence >= ranked[j].confidence {
      assert key(ranked[i]) <= key(ranked[j]);
    }
  }

  lemma TopIsTopN(ranked: seq<Candidate>, n: nat)
    requires BestFirst(ranked)
    ensures IsTopN(Top(ranked, n), Rest(ranked, n), ranked, n)
  {
    assert Top(ranked, n) + Rest(ranked, n) == ranked;
  }

  /**
   The result is the true top-n: accepted and left-out candidates together are the eligible ones,
   accepted ones are best first, none left out beats one accepted, and some are left out only
   when n were taken.
   */
  lemma AcceptedIsTopN(criteria: Criteria, items: seq<Item>, settings: Settings, similarity: Similarity)
    requires Resolved(criteria.hard)
    ensures var eligible := Eligible(ScoredAll(criteria, items, settings.tolerance, similarity));
      IsTopN(Match(criteria, items, settings, similarity).accepted, Rest(Ranked(eligible), settings.topN),
             eligible, settings.topN)
  {
    var eligible := Eligible(ScoredAll(criteria, items, settings.tolerance, similarity));
    RankedIsBestFirst(eligible);
    TopIsTopN(Ranked(eligible), settings.topN);
  }

  /** The candidates of one confidence. */
  function AtConfidence(candidates: seq<Candidate>, confidence: int): seq<Candidate> {
    Filter(candidates, (c: Candidate) => c.confidence == confidence)
  }

  /**
   Ties go by the order in which items were offered: of the eligible candidates with one confidence
   the first few are accepted, in that order, and any left out come after all of them.
   */
  lemma TiesKeepOfferedOrder(
      criteria: Criteria, items: seq<Item>, settings: Settings, similarity: Similarity, confidence: int)
    requires Resolved(criteria.hard)
    ensures var eligible := Eligible(ScoredAll(criteria, items, settings.tolerance, similarity));
      var accepted := Match(criteria, items, settings, similarity).accepted;
      && AtConfidence(accepted, confidence) <= AtConfidence(eligible, confidence)
      && AtConfidence(eligible, confidence)
        == AtConfidence(accepted, confidence) + AtConfidence(Rest(Ranked(eligible), settings.topN), confidence)
  {
    var eligible := Eligible(ScoredAll(criteria, items, settings.tolerance, similarity));
    var ranked, out := Ranked(eligible), Rest(Ranked(eligible), settings.topN);
    var accepted := Top(ranked, settings.topN);
    RankingIsStable(eligible, confidence);
    FilterInParts(accepted, out, (c: Candidate) => c.confidence == confidence);
    assert accepted + out == ranked;
  }

  lemma RankingIsStable(eligible: seq<Candidate>, confidence: int)
    ensures AtConfidence(Ranked(eligible), confidence) == AtConfidence(eligible, confidence)
  {
    SortIsStable(eligible, (c: Candidate) => -c.confidence, -confidence, (c: Candidate) => c.confidence == confidence);
  }

  /** Every accepted candidate is the score of an item that was offered and that suits. */
  lemma AcceptedItemsSuit(criteria: Criteria, items: seq<Item>, settings: Settings, similarity: Similarity, c: Candidate)
    requires c in Match(criteria, items, settings, similarity).accepted
    ensures c.item in items && c == Scored(criteria, c.item, settings.tolerance, similarity)
    ensures Suits(criteria.hard, c.item.offer)
    ensures criteria.hard.rating.Some? || criteria.hard.ratingAbsent
    ensures criteria.hard.handing.Some? || criteria.hard.handingAbsent
  {
    var scored := ScoredAll(criteria, items, settings.tolerance, similarity);
    SortKeepsMembers(Eligible(scored), (d: Candidate) => -d.confidence);
    FilterMembers(scored, (d: Candidate) => d.Eligible());
    assert c in Eligible(scored);
    var i :| 0 <= i < |scored| && scored[i] == c;
    EligibleIffItSuits(criteria, items[i], settings.tolerance, similarity);
  }

  /**
   A line is proposed exactly when rating and handing are resolved and the best suitable item
   reaches the cut-off; otherwise the opening goes to the manual path.
   */
  lemma ProposedIff(criteria: Criteria, items: seq<Item>, settings: Settings, similarity: Similarity)
    requires settings.topN >= 1
    ensures Match(criteria, items, settings, similarity).status == PROPOSED
      <==> (criteria.hard.rating.Some? || criteria.hard.ratingAbsent)
           && (criteria.hard.handing.Some? || criteria.hard.handingAbsent)
           && (exists i :: 0 <= i < |items| && Suits(criteria.hard, items[i].offer)
                           && Confidence(criteria, items[i], settings.tolerance, similarity) >= settings.cutoff)
    ensures Match(criteria, items, settings, similarity).status in {PROPOSED, MANUAL}
  {
    if Resolved(criteria.hard) {
      var accepted := Match(criteria, items, settings, similarity).accepted;
      AcceptedIsTopN(criteria, items, settings, similarity);
      if accepted != [] && accepted[0].confidence >= settings.cutoff {
        BestIsAnItem(criteria, items, settings, similarity);
      }
      forall i | 0 <= i < |items| && Suits(criteria.hard, items[i].offer)
        ensures accepted != []
          && accepted[0].confidence >= Confidence(criteria, items[i], settings.tolerance, similarity)
      {
        BestIsBest(criteria, items, settings, similarity, i);
      }
    }
  }

  lemma BestIsAnItem(criteria: Criteria, items: seq<Item>, settings: Settings, similarity: Similarity)
    requires Resolved(criteria.hard) && Match(criteria, items, settings, similarity).accepted != []
    ensures exists i ::
      (0 <= i < |items| && Suits(criteria.hard, items[i].offer)
       && Confidence(criteria, items[i], settings.tolerance, similarity)
          == Match(criteria, items, settings, similarity).accepted[0].confidence)
  {
    var best := Match(criteria, items, settings, similarity).accepted[0];
    AcceptedItemsSuit(criteria, items, settings, similarity, best);
    var i :| 0 <= i < |items| && items[i] == best.item;
    assert Suits(criteria.hard, items[i].offer);
  }

  lemma BestIsBest(criteria: Criteria, items: seq<Item>, settings: Settings, similarity: Similarity, i: nat)
    requires Resolved(criteria.hard) && settings.topN >= 1
    requires i < |items| && Suits(criteria.hard, items[i].offer)
    ensures var accepted := Match(criteria, items, settings, similarity).accepted;
      accepted != [] && accepted[0].confidence >= Confidence(criteria, items[i], settings.tolerance, similarity)
  {
    var scored := ScoredAll(criteria, items, settings.tolerance, similarity);
    EligibleIffItSuits(criteria, items[i], settings.tolerance, similarity);
    FilterKeepsAll(scored, (c: Candidate) => c.Eligible(), i);
    AcceptedIsTopN(criteria, items, settings, similarity);
    var accepted := Match(criteria, items, settings, similarity).accepted;
    var out := Rest(Ranked(Eligible(scored)), settings.topN);
    assert scored[i] in multiset(Eligible(scored));
    assert scored[i] in multiset(accepted) + multiset(out);
    assert scored[i] in accepted || scored[i] in out;
  }
}
