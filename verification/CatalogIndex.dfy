/**
 The catalogue snapshot (`CatalogSnapshot`, backend/pipeline/stages/match.py) and its division
 index. Pre-filtering by division is an optimisation: `IndexIsTransparent` says matching over
 the indexed items gives the confidences and the status that the whole catalogue would give.
 */
module CatalogIndex {
  import opened Prelude
  import opened Sorting
  import opened Matching

  function InDivision(items: seq<Item>, division: Option<string>): seq<Item> {
    Filter(items, (item: Item) => item.offer.division == division)
  }

  class CatalogSnapshot {
    const items: seq<Item>
    var byDivision: map<Option<string>, seq<Item>>

    ghost predicate Valid()
      reads this
    {
      forall d :: InDivision(items, d) == if d in byDivision then byDivision[d] else []
    }

    constructor (items: seq<Item>)
      ensures this.items == items && Valid()
    {
      this.items := items;
      byDivision := map[];
      new;
      for i := 0 to |items|
        invariant forall d :: InDivision(items[..i], d) == if d in byDivision then byDivision[d] else []
      {
        assert items[..i + 1][..i] == items[..i];
        var d := items[i].offer.division;
        byDivision := byDivision[d := (if d in byDivision then byDivision[d] else []) + [items[i]]];
      }
      assert items[..|items|] == items;
    }

    /** Items worth scoring. */
    method CandidatesFor(criteria: Criteria) returns (r: seq<Item>)
      requires Valid()
      ensures r == Offered(items, criteria.hard.division)
    {
      var wanted := criteria.hard.division;
      if wanted.None? {
        return items;
      }
      var named := if wanted in byDivision then byDivision[wanted] else [];
      var unfiled := if None in byDivision then byDivision[None] else [];
      r := named + unfiled;
    }
  }

  function Offered(items: seq<Item>, division: Option<string>): seq<Item> {
    if division.None? then items else InDivision(items, division) + InDivision(items, None)
  }

  function Confidences(s: seq<Candidate>): (r: seq<int>)
    ensures |r| == |s|
  {
    seq(|s|, i requires 0 <= i < |s| => s[i].confidence)
  }

  /** The confidences of the suitable items, in scoring order. */
  function EligibleConfidences(criteria: Criteria, items: seq<Item>, tolerance: int, similarity: Similarity): seq<int> {
    Confidences(Eligible(ScoredAll(criteria, items, tolerance, similarity)))
  }

  lemma ConfidencesOfMore(s: seq<Candidate>, t: seq<Candidate>)
    ensures Confidences(s + t) == Confidences(s) + Confidences(t)
  {
  }

  lemma OneMoreItem(criteria: Criteria, items: seq<Item>, item: Item, tolerance: int, similarity: Similarity)
    ensures EligibleConfidences(criteria, items + [item], tolerance, similarity)
      == EligibleConfidences(criteria, items, tolerance, similarity)
         + if Suits(criteria.hard, item.offer) then [Confidence(criteria, item, tolerance, similarity)] else []
  {
    var before := ScoredAll(criteria, items, tolerance, similarity);
    var c := Scored(criteria, item, tolerance, similarity);
    assert ScoredAll(criteria, items + [item], tolerance, similarity) == before + [c];
    assert (before + [c])[..|before|] == before;
    EligibleIffItSuits(criteria, item, tolerance, similarity);
    ConfidencesOfMore(Eligible(before), [c]);
  }

  lemma {:induction false} MoreItems(
      criteria: Criteria, items: seq<Item>, more: seq<Item>, tolerance: int, similarity: Similarity)
    ensures EligibleConfidences(criteria, items + more, tolerance, similarity)
      == EligibleConfidences(criteria, items, tolerance, similarity)
         + EligibleConfidences(criteria, more, tolerance, similarity)
  {
    if more == [] {
      assert items + more == items;
    } else {
      var rest, last := more[..|more| - 1], more[|more| - 1];
      MoreItems(criteria, items, rest, tolerance, similarity);
      assert more == rest + [last];
      assert items + more == (items + rest) + [last];
      OneMoreItem(criteria, items + rest, last, tolerance, similarity);
      OneMoreItem(criteria, rest, last, tolerance, similarity);
    }
  }

  lemma DivisionOfMore(items: seq<Item>, item: Item, division: Option<string>)
    ensures InDivision(items + [item], division)
      == InDivision(items, division) + if item.offer.division == division then [item] else []
  {
    assert (items + [item])[..|items|] == items;
  }

  /** What one item adds to the eligible confidences. */
  function Adds(criteria: Criteria, item: Item, tolerance: int, similarity: Similarity): multiset<int> {
    if Suits(criteria.hard, item.offer) then multiset{Confidence(criteria, item, tolerance, similarity)} else multiset{}
  }

  lemma OneMoreOfDivision(
      criteria: Criteria, items: seq<Item>, item: Item, division: Option<string>, tolerance: int, similarity: Similarity)
    ensures multiset(EligibleConfidences(criteria, InDivision(items + [item], division), tolerance, similarity))
      == multiset(EligibleConfidences(criteria, InDivision(items, division), tolerance, similarity))
         + if item.offer.division == division then Adds(criteria, item, tolerance, similarity) else multiset{}
  {
    DivisionOfMore(items, item, division);
    if item.offer.division == division {
      OneMoreItem(criteria, InDivision(items, division), item, tolerance, similarity);
    } else {
      assert InDivision(items, division) + [] == InDivision(items, division);
    }
  }

  lemma SumOfParts(a: multiset<int>, b: multiset<int>, c: multiset<int>, x: multiset<int>, inB: bool, inC: bool)
    requires a == b + c && !(inB && inC) && (x == multiset{} || inB || inC)
    ensures a + x == (b + if inB then x else multiset{}) + (c + if inC then x else multiset{})
  {
  }

  /** Items of other divisions are never eligible, so the two divisions offered hold all that are. */
  lemma {:induction false} DivisionsHoldTheEligible(
      criteria: Criteria, items: seq<Item>, tolerance: int, similarity: Similarity)
    requires criteria.hard.division.Some?
    ensures multiset(EligibleConfidences(criteria, items, tolerance, similarity))
      == multiset(EligibleConfidences(criteria, InDivision(items, criteria.hard.division), tolerance, similarity))
         + multiset(EligibleConfidences(criteria, InDivision(items, None), tolerance, similarity))
  {
    if items != [] {
      var rest, last := items[..|items| - 1], items[|items| - 1];
      DivisionsHoldTheEligible(criteria, rest, tolerance, similarity);
      OneMoreForAll(criteria, rest, last, tolerance, similarity);
      assert items == rest + [last];
    }
  }

  lemma OneMoreForAll(criteria: Criteria, rest: seq<Item>, last: Item, tolerance: int, similarity: Similarity)
    requires criteria.hard.division.Some?
    requires multiset(EligibleConfidences(criteria, rest, tolerance, similarity))
      == multiset(EligibleConfidences(criteria, InDivision(rest, criteria.hard.division), tolerance, similarity))
         + multiset(EligibleConfidences(criteria, InDivision(rest, None), tolerance, similarity))
    ensures multiset(EligibleConfidences(criteria, rest + [last], tolerance, similarity))
      == multiset(EligibleConfidences(criteria, InDivision(rest + [last], criteria.hard.division), tolerance, similarity))
         + multiset(EligibleConfidences(criteria, InDivision(rest + [last], None), tolerance, similarity))
  {
    var wanted := criteria.hard.division;
    OneMoreItem(criteria, rest, last, tolerance, similarity);
    OneMoreOfDivision(criteria, rest, last, wanted, tolerance, similarity);
    OneMoreOfDivision(criteria, rest, last, None, tolerance, similarity);
    SumOfParts(multiset(EligibleConfidences(criteria, rest, tolerance, similarity)),
               multiset(EligibleConfidences(criteria, InDivision(rest, wanted), tolerance, similarity)),
               multiset(EligibleConfidences(criteria, InDivision(rest, None), tolerance, similarity)),
               Adds(criteria, last, tolerance, similarity), last.offer.division == wanted, last.offer.division == None);
  }

  lemma {:induction false} InsertKeepsConfidences(x: Candidate, s: seq<Candidate>, key: Candidate -> int)
    ensures multiset(Confidences(Insert(x, s, key))) == multiset(Confidences(s)) + multiset{x.confidence}
  {
    if s == [] || key(s[|s| - 1]) <= key(x) {
      ConfidencesOfMore(s, [x]);
    } else {
      var rest, last := s[..|s| - 1], s[|s| - 1];
      InsertKeepsConfidences(x, rest, key);
      ConfidencesOfMore(Insert(x, rest, key), [last]);
      assert s == rest + [last];
      ConfidencesOfMore(rest, [last]);
    }
  }

  lemma {:induction false} SortKeepsConfidences(s: seq<Candidate>, key: Candidate -> int)
    ensures multiset(Confidences(StableSort(s, key))) == multiset(Confidences(s))
  {
    if s != [] {
      var rest, last := s[..|s| - 1], s[|s| - 1];
      SortKeepsConfidences(rest, key);
      InsertKeepsConfidences(last, StableSort(rest, key), key);
      assert s == rest + [last];
      ConfidencesOfMore(rest, [last]);
    }
  }

  ghost predicate Descending(s: seq<int>) {
    forall i, j :: 0 <= i < j < |s| ==> s[i] >= s[j]
  }

  lemma LastIsLeast(s: seq<int>, v: int)
    requires Descending(s) && v in multiset(s)
    ensures s != [] && s[|s| - 1] <= v
  {
    var i :| 0 <= i < |s| && s[i] == v;
  }

  lemma DropLast(s: seq<int>)
    requires s != []
    ensures multiset(s[..|s| - 1]) == multiset(s) - multiset{s[|s| - 1]}
  {
    assert s == s[..|s| - 1] + [s[|s| - 1]];
  }

  lemma SameLast(a: seq<int>, b: seq<int>)
    requires Descending(a) && Descending(b) && multiset(a) == multiset(b) && a != []
    ensures b != [] && a[|a| - 1] == b[|b| - 1]
  {
    var x := a[|a| - 1];
    assert x in multiset(a);
    LastIsLeast(b, x);
    var y := b[|b| - 1];
    assert y in multiset(b);
    LastIsLeast(a, y);
  }

  lemma EqualByLast(a: seq<int>, b: seq<int>)
    requires a != [] && b != [] && a[..|a| - 1] == b[..|b| - 1] && a[|a| - 1] == b[|b| - 1]
    ensures a == b
  {
    assert a == a[..|a| - 1] + [a[|a| - 1]];
    assert b == b[..|b| - 1] + [b[|b| - 1]];
  }

  /** A descending sequence is determined by what is in it. */
  lemma {:induction false} DescendingIsUnique(a: seq<int>, b: seq<int>)
    requires Descending(a) && Descending(b) && multiset(a) == multiset(b)
    ensures a == b
  {
    if a == [] {
      assert |multiset(b)| == 0;
    } else {
      SameLast(a, b);
      DropLast(a);
      DropLast(b);
      DescendingIsUnique(a[..|a| - 1], b[..|b| - 1]);
      EqualByLast(a, b);
    }
  }

  lemma RankedConfidences(eligible: seq<Candidate>)
    ensures Descending(Confidences(Ranked(eligible)))
    ensures multiset(Confidences(Ranked(eligible))) == multiset(Confidences(eligible))
  {
    RankedIsBestFirst(eligible);
    SortKeepsConfidences(eligible, (c: Candidate) => -c.confidence);
  }

  lemma TopConfidences(a: seq<Candidate>, b: seq<Candidate>, n: nat)
    requires Confidences(a) == Confidences(b)
    ensures Confidences(Top(a, n)) == Confidences(Top(b, n))
  {
    assert Confidences(Top(a, n)) == if n < |a| then Confidences(a)[..n] else Confidences(a);
    assert Confidences(Top(b, n)) == if n < |b| then Confidences(b)[..n] else Confidences(b);
  }

  /** Matching over what the index offers ranks like matching over the whole catalogue. */
  lemma IndexIsTransparent(criteria: Criteria, items: seq<Item>, settings: Settings, similarity: Similarity)
    ensures var indexed, whole := Match(criteria, Offered(items, criteria.hard.division), settings, similarity),
                                  Match(criteria, items, settings, similarity);
      Confidences(indexed.accepted) == Confidences(whole.accepted) && indexed.status == whole.status
  {
    if criteria.hard.division.Some? && !Unresolved(criteria.hard) {
      var offered := Offered(items, criteria.hard.division);
      SameEligible(criteria, items, settings.tolerance, similarity);
      var a := Eligible(ScoredAll(criteria, offered, settings.tolerance, similarity));
      var b := Eligible(ScoredAll(criteria, items, settings.tolerance, similarity));
      RankedConfidences(a);
      RankedConfidences(b);
      DescendingIsUnique(Confidences(Ranked(a)), Confidences(Ranked(b)));
      TopConfidences(Ranked(a), Ranked(b), settings.topN);
      SameStatus(Top(Ranked(a), settings.topN), Top(Ranked(b), settings.topN));
    }
  }

  lemma SameStatus(a: seq<Candidate>, b: seq<Candidate>)
    requires Confidences(a) == Confidences(b)
    ensures a == [] <==> b == []
    ensures a != [] ==> a[0].confidence == b[0].confidence
  {
    assert a != [] && b != [] ==> Confidences(a)[0] == Confidences(b)[0];
  }

  lemma SameEligible(criteria: Criteria, items: seq<Item>, tolerance: int, similarity: Similarity)
    requires criteria.hard.division.Some?
    ensures multiset(EligibleConfidences(criteria, Offered(items, criteria.hard.division), tolerance, similarity))
      == multiset(EligibleConfidences(criteria, items, tolerance, similarity))
  {
    DivisionsHoldTheEligible(criteria, items, tolerance, similarity);
    MoreItems(criteria, InDivision(items, criteria.hard.division), InDivision(items, None), tolerance, similarity);
  }
}
