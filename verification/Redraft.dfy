/** Assembling rows in parts: what a regenerated quote's rows come to. */
module Redraft {
  import opened Prelude
  import opened ReferenceData
  import opened Pricing
  import opened PricingLaws
  import opened Ledger
  import opened Assembly
  import opened AssemblyLaws

  lemma {:induction false} PricedOfPrefix(a: seq<LineRow>, b: seq<LineRow>, terms: Terms, n: nat)
    requires n <= |a|
    ensures PricedFirst(a + b, terms, n) == PricedFirst(a, terms, n)
  {
    if n > 0 {
      PricedOfPrefix(a, b, terms, n - 1);
    }
  }

  lemma {:induction false} PricedOfRest(a: seq<LineRow>, b: seq<LineRow>, terms: Terms, n: nat)
    requires n <= |b|
    ensures |PricedFirst(a, terms, |a|)| == |a| ==>
      PricedFirst(a + b, terms, |a| + n) == PricedFirst(a, terms, |a|) + PricedFirst(b, terms, n)
    ensures |PricedFirst(a, terms, |a|)| < |a| ==> |PricedFirst(a + b, terms, |a| + n)| < |a|
  {
    if n == 0 {
      PricedOfPrefix(a, b, terms, |a|);
    } else {
      PricedOfRest(a, b, terms, n - 1);
    }
  }

  /** A list is priceable iff both its parts are, and it prices part by part. */
  lemma PricingInParts(a: seq<LineRow>, b: seq<LineRow>, terms: Terms)
    ensures AllPriceable(a + b, terms) <==> AllPriceable(a, terms) && AllPriceable(b, terms)
    ensures AllPriceable(a + b, terms) ==> PricedRows(a + b, terms) == PricedRows(a, terms) + PricedRows(b, terms)
  {
    PricedOfRest(a, b, terms, |b|);
  }

  lemma {:induction false} EntriesInParts(a: seq<LineRow>, b: seq<LineRow>)
    ensures Entries(a + b) == Entries(a) + Entries(b)
  {
    if b == [] {
      assert a + b == a;
    } else {
      EntriesInParts(a, b[..|b| - 1]);
      assert (a + b)[..|a + b| - 1] == a + b[..|b| - 1];
    }
  }

  /** Subtotals written from given entries. */
  function Sub(rows: seq<LineRow>, entries: seq<Entry<string>>): seq<LineRow> {
    if rows == [] then
      []
    else
      var last := rows[|rows| - 1];
      var subtotal := if last.lineGroup == FREIGHT then 0 else TotalFor(entries, SubtotalKey(last));
      Sub(rows[..|rows| - 1], entries) + [Resubtotalled(last, subtotal)]
  }

  lemma {:induction false} SubAt(rows: seq<LineRow>, entries: seq<Entry<string>>, i: nat)
    requires i < |rows|
    ensures |Sub(rows, entries)| == |rows|
    ensures Sub(rows, entries)[i] == Resubtotalled(rows[i],
      if rows[i].lineGroup == FREIGHT then 0 else TotalFor(entries, SubtotalKey(rows[i])))
  {
    if i < |rows| - 1 {
      SubAt(rows[..|rows| - 1], entries, i);
    } else if i > 0 {
      SubAt(rows[..|rows| - 1], entries, 0);
    }
  }

  lemma {:induction false} SubLength(rows: seq<LineRow>, entries: seq<Entry<string>>)
    ensures |Sub(rows, entries)| == |rows|
  {
    if rows != [] {
      SubLength(rows[..|rows| - 1], entries);
    }
  }

  lemma WithSubtotalsIsSub(rows: seq<LineRow>)
    ensures WithSubtotals(rows) == Sub(rows, Entries(rows))
  {
    SubLength(rows, Entries(rows));
    forall i | 0 <= i < |rows| ensures WithSubtotals(rows)[i] == Sub(rows, Entries(rows))[i] {
      SubAt(rows, Entries(rows), i);
    }
  }

  lemma {:induction false} SubInParts(a: seq<LineRow>, b: seq<LineRow>, entries: seq<Entry<string>>)
    ensures Sub(a + b, entries) == Sub(a, entries) + Sub(b, entries)
  {
    if b == [] {
      assert a + b == a;
    } else {
      SubInParts(a, b[..|b| - 1], entries);
      assert (a + b)[..|a + b| - 1] == a + b[..|b| - 1];
    }
  }

  /** The subtotal column is not what a line counts by. */
  lemma ResubtotalledCountsAlike(row: LineRow, subtotal: int)
    ensures CountAlike(Resubtotalled(row, subtotal), row)
  {
  }

  lemma {:induction false} SubAgain(rows: seq<LineRow>, entries: seq<Entry<string>>)
    ensures Sub(Sub(rows, entries), entries) == Sub(rows, entries)
    ensures Entries(Sub(rows, entries)) == Entries(rows)
  {
    if rows != [] {
      var rest, last := Sub(rows[..|rows| - 1], entries), rows[|rows| - 1];
      var subtotal := if last.lineGroup == FREIGHT then 0 else TotalFor(entries, SubtotalKey(last));
      SubAgain(rows[..|rows| - 1], entries);
      ResubtotalledCountsAlike(last, subtotal);
      assert (rest + [Resubtotalled(last, subtotal)])[..|rest|] == rest;
    }
  }

  /** Rows that were priced and subtotalled price to themselves. */
  lemma StoredRowsAreSettled(rows: seq<LineRow>, terms: Terms, entries: seq<Entry<string>>)
    requires AllPriceable(rows, terms)
    ensures var s := Sub(PricedRows(rows, terms), entries); AllPriceable(s, terms) && PricedRows(s, terms) == s
  {
    var priced := PricedRows(rows, terms);
    var s := Sub(priced, entries);
    SubLength(priced, entries);
    forall i | 0 <= i < |s| ensures PriceError(s[i], terms).None? && PricedRow(s[i], terms, false) == s[i] {
      SubAt(priced, entries, i);
      PricedRowAt(rows, terms, |rows|, i);
      StoredLineIsSettled(rows[i], terms, s[i].figures.subtotal);
    }
    SettledRowsStay(s, terms, |s|);
    assert s[..|s|] == s;
  }

  ghost predicate AllFreight(rows: seq<LineRow>) {
    forall i :: 0 <= i < |rows| ==> rows[i].lineGroup == FREIGHT
  }

  lemma {:induction false} FreightHasNoEntries(rows: seq<LineRow>, terms: Terms, n: nat)
    requires n <= |rows| && AllFreight(rows)
    ensures Entries(PricedFirst(rows, terms, n)) == []
  {
    if n > 0 {
      FreightHasNoEntries(rows, terms, n - 1);
      var before := PricedFirst(rows, terms, n - 1);
      var after := PricedFirst(rows, terms, n);
      assert after != before ==> after[..|before|] == before;
    }
  }

  /** The three parts of a drafted quote's rows, assembled. */
  lemma DraftedRows(kept: seq<LineRow>, created: seq<LineRow>, freight: seq<LineRow>, terms: Terms)
    requires AllPriceable(kept + created + freight, terms) && AllFreight(freight)
    ensures AllPriceable(kept, terms) && AllPriceable(created, terms) && AllPriceable(freight, terms)
    ensures var e := Entries(PricedRows(kept, terms)) + Entries(PricedRows(created, terms));
      && Entries(PricedRows(kept + created + freight, terms)) == e
      && WithSubtotals(PricedRows(kept + created + freight, terms))
         == Sub(PricedRows(kept, terms), e) + Sub(PricedRows(created, terms), e) + Sub(PricedRows(freight, terms), e)
  {
    PricingInParts(kept + created, freight, terms);
    PricingInParts(kept, created, terms);
    var k, c, f := PricedRows(kept, terms), PricedRows(created, terms), PricedRows(freight, terms);
    EntriesInParts(k + c, f);
    EntriesInParts(k, c);
    FreightHasNoEntries(freight, terms, |freight|);
    var e := Entries(k) + Entries(c);
    assert Entries(k + c + f) == e;
    WithSubtotalsIsSub(k + c + f);
    SubInParts(k + c, f, e);
    SubInParts(k, c, e);
  }

  lemma PricingInThreeParts(a: seq<LineRow>, b: seq<LineRow>, c: seq<LineRow>, terms: Terms)
    requires AllPriceable(a, terms) && AllPriceable(b, terms) && AllPriceable(c, terms)
    ensures AllPriceable(a + b + c, terms)
    ensures PricedRows(a + b + c, terms) == PricedRows(a, terms) + PricedRows(b, terms) + PricedRows(c, terms)
  {
    PricingInParts(a, b, terms);
    PricingInParts(a + b, c, terms);
  }

  /** Settled parts, of which the second counts nothing, keep their subtotals beside a third part. */
  lemma SubtotalsOfSettled(k: seq<LineRow>, f: seq<LineRow>, c: seq<LineRow>, e: seq<Entry<string>>)
    requires Sub(k, e) == k && Sub(f, e) == f && Entries(f) == [] && e == Entries(k) + Entries(c)
    ensures Entries(k + f + c) == e
    ensures WithSubtotals(k + f + c) == k + f + Sub(c, e)
  {
    EntriesInParts(k, f);
    EntriesInParts(k + f, c);
    assert Entries(k + f + c) == e;
    WithSubtotalsIsSub(k + f + c);
    SubInParts(k, f, e);
    SubInParts(k + f, c, e);
  }

  /** Drafting again over the stored kept and freight rows stores the same rows. */
  lemma RedraftedRows(kept: seq<LineRow>, created: seq<LineRow>, freight: seq<LineRow>, terms: Terms)
    requires AllPriceable(kept + created + freight, terms) && AllFreight(freight)
    ensures var e := Entries(PricedRows(kept, terms)) + Entries(PricedRows(created, terms));
      var k, c, f := Sub(PricedRows(kept, terms), e), Sub(PricedRows(created, terms), e), Sub(PricedRows(freight, terms), e);
      && AllPriceable(k + f + created, terms)
      && Entries(PricedRows(k + f + created, terms)) == e
      && WithSubtotals(PricedRows(k + f + created, terms)) == k + f + c
  {
    DraftedRows(kept, created, freight, terms);
    var pk, pc, pf := PricedRows(kept, terms), PricedRows(created, terms), PricedRows(freight, terms);
    var e := Entries(pk) + Entries(pc);
    StoredRowsAreSettled(kept, terms, e);
    StoredRowsAreSettled(freight, terms, e);
    PricingInThreeParts(Sub(pk, e), Sub(pf, e), created, terms);
    SubAgain(pk, e);
    SubAgain(pf, e);
    FreightHasNoEntries(freight, terms, |freight|);
    SubtotalsOfSettled(Sub(pk, e), Sub(pf, e), pc, e);
  }
}
