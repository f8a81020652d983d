/** What assembling a quote promises: money is conserved, freight adds none, twice is once. */
module AssemblyLaws {
  import opened Prelude
  import opened Rounding
  import opened ReferenceData
  import opened Pricing
  import opened PricingLaws
  import opened Ledger
  import opened Assembly

  ghost predicate AllPriceable(rows: seq<LineRow>, terms: Terms) {
    |PricedRows(rows, terms)| == |rows|
  }

  /** Under the database's constraints every quote can be assembled. */
  lemma {:induction false} ConstraintsMakeQuotesPriceable(rows: seq<LineRow>, terms: Terms, n: nat)
    requires MarginsBelowOne(terms) && n <= |rows|
    requires forall i :: 0 <= i < |rows| ==> rows[i].margining.margin < 10_000
    ensures |PricedFirst(rows, terms, n)| == n
    ensures n == |rows| ==> AllPriceable(rows, terms)
  {
    if n > 0 {
      ConstraintsMakeQuotesPriceable(rows, terms, n - 1);
      ConstraintsExcludeTheError(rows[n - 1], terms, false);
    }
  }

  /** The columns a line counts by. */
  ghost predicate CountAlike(a: LineRow, b: LineRow) {
    a.lineGroup == b.lineGroup && SubtotalKey(a) == SubtotalKey(b) && a.figures.extended == b.figures.extended
  }

  lemma {:induction false} SameEntries(a: seq<LineRow>, b: seq<LineRow>)
    requires |a| == |b| && forall i :: 0 <= i < |a| ==> CountAlike(a[i], b[i])
    ensures Entries(a) == Entries(b)
  {
    if a != [] {
      assert CountAlike(a[|a| - 1], b[|b| - 1]);
      SameEntries(a[..|a| - 1], b[..|b| - 1]);
    }
  }

  lemma SubtotalsKeepEntries(rows: seq<LineRow>)
    ensures Entries(WithSubtotals(rows)) == Entries(rows)
  {
    var r := WithSubtotals(rows);
    forall i | 0 <= i < |rows| ensures CountAlike(r[i], rows[i]) {
      SubtotalKeepsTheRest(rows[i], rows);
    }
    SameEntries(r, rows);
  }

  lemma SubtotalKeepsTheRest(row: LineRow, rows: seq<LineRow>)
    ensures CountAlike(WithSubtotal(row, rows), row)
  {
  }

  /**
   Each stored subtotal is the exact sum of `extended` over the stored lines of its section;
   a freight line's is zero.
   */
  lemma SubtotalsAreSectionSums(quote: QuoteRow, rows: seq<LineRow>, terms: Terms, i: nat)
    requires i < |Assembled(quote, rows, terms).1|
    ensures var r := Assembled(quote, rows, terms).1;
      r[i].figures.subtotal == if r[i].lineGroup == FREIGHT then 0 else TotalFor(Entries(r), SubtotalKey(r[i]))
  {
    var priced := PricedRows(rows, terms);
    SubtotalsKeepEntries(priced);
    SubtotalKeepsTheRest(priced[i], priced);
  }

  lemma {:induction false} EntryKeys(rows: seq<LineRow>, sections: seq<string>)
    requires forall i :: 0 <= i < |rows| && rows[i].lineGroup != FREIGHT ==> SubtotalKey(rows[i]) in sections
    ensures forall i :: 0 <= i < |Entries(rows)| ==> Entries(rows)[i].key in sections
  {
    if rows != [] {
      var rest := rows[..|rows| - 1];
      assert forall i :: 0 <= i < |rest| ==> rest[i] == rows[i];
      EntryKeys(rest, sections);
    }
  }

  /**
   Conservation: the subtotals of the sections, each section counted once, add up to the quote's
   subtotal; the grand total is exactly subtotal plus freight plus tax.
   */
  lemma SectionsAddUp(quote: QuoteRow, rows: seq<LineRow>, terms: Terms, sections: seq<string>)
    requires Distinct(sections)
    requires var r := Assembled(quote, rows, terms).1;
      forall i :: 0 <= i < |r| && r[i].lineGroup != FREIGHT ==> SubtotalKey(r[i]) in sections
    ensures var (q, r) := Assembled(quote, rows, terms);
      && SumOverKeys(sections, Entries(r)) == q.subtotalSale
      && q.grandTotal == q.subtotalSale + OrZero(q.freightAmount) + q.taxAmount
  {
    var (q, r) := Assembled(quote, rows, terms);
    EntryKeys(r, sections);
    TotalsAddUp(sections, Entries(r));
    SubtotalsKeepEntries(PricedRows(rows, terms));
  }

  /** Tax is within half a cent of the stored rate times what is taxable, and nothing without a rate. */
  lemma TaxWithinHalfACent(quote: QuoteRow, rows: seq<LineRow>, terms: Terms)
    ensures var q := Assembled(quote, rows, terms).0;
      && (q.taxRateApplied.None? ==> q.taxAmount == 0)
      && (q.taxRateApplied.Some? ==>
            2 * Abs(q.taxAmount * 10_000 - (q.subtotalSale + OrZero(q.freightAmount)) * q.taxRateApplied.value) <= 10_000)
  {
    var q := Assembled(quote, rows, terms).0;
    if q.taxRateApplied.Some? {
      HalfUpIsNearest((q.subtotalSale + OrZero(q.freightAmount)) * q.taxRateApplied.value, 10_000);
    }
  }

  /** A rate is applied exactly when the quote is for Ohio or Kentucky and a rate is in force there. */
  lemma TaxOnlyInOhioAndKentucky(quote: QuoteRow, rows: seq<LineRow>, terms: Terms)
    ensures Assembled(quote, rows, terms).0.taxAmount != 0 ==>
      quote.taxJurisdiction.Some? && Texts.Upper(Texts.Strip(quote.taxJurisdiction.value)) in ["OH", "KY"]
  {
    OnlyOhioAndKentuckyTax(terms.tables, quote.taxJurisdiction, terms.on);
  }

  function WithoutFreight(rows: seq<LineRow>): seq<LineRow> {
    if rows == [] then
      []
    else
      var before := WithoutFreight(rows[..|rows| - 1]);
      if rows[|rows| - 1].lineGroup == FREIGHT then before else before + [rows[|rows| - 1]]
  }

  /** Freight lines contribute nothing: leaving them out, or editing them, changes no entry. */
  lemma {:induction false} FreightLinesCarryNoMoney(rows: seq<LineRow>)
    ensures Entries(WithoutFreight(rows)) == Entries(rows)
  {
    if rows != [] {
      FreightLinesCarryNoMoney(rows[..|rows| - 1]);
      var before := WithoutFreight(rows[..|rows| - 1]);
      var last := rows[|rows| - 1];
      assert (before + [last])[..|before|] == before;
    }
  }

  /** Quotes whose lines differ in freight alone have the same totals. */
  lemma FreightLinesDoNotCount(quote: QuoteRow, a: seq<LineRow>, b: seq<LineRow>, terms: Terms)
    requires WithoutFreight(PricedRows(a, terms)) == WithoutFreight(PricedRows(b, terms))
    ensures Assembled(quote, a, terms).0 == Assembled(quote, b, terms).0
  {
    FreightLinesCarryNoMoney(PricedRows(a, terms));
    FreightLinesCarryNoMoney(PricedRows(b, terms));
  }

  // Idempotence.

  function Resubtotalled(row: LineRow, subtotal: int): LineRow {
    row.(figures := row.figures.(subtotal := subtotal))
  }

  /** Pricing neither reads nor writes the subtotal column. */
  lemma PricingIgnoresSubtotal(row: LineRow, terms: Terms, subtotal: int)
    requires PriceError(row, terms).None?
    ensures PriceError(Resubtotalled(row, subtotal), terms).None?
    ensures PricedRow(Resubtotalled(row, subtotal), terms, false)
      == Resubtotalled(PricedRow(row, terms, false), subtotal)
  {
    var r := Resubtotalled(row, subtotal);
    if row.lineGroup != FREIGHT {
      PricedFigures(row, terms, false);
      PricedColumns(r, terms, false, Resubtotalled(PricedRow(row, terms, false), subtotal));
    }
  }

  /** A stored line of an assembled quote prices to itself. */
  lemma StoredLineIsSettled(row: LineRow, terms: Terms, subtotal: int)
    requires PriceError(row, terms).None?
    ensures var r := Resubtotalled(PricedRow(row, terms, false), subtotal);
      PriceError(r, terms).None? && PricedRow(r, terms, false) == r
  {
    PricingAgainChangesNothing(row, terms, false);
    PricingIgnoresSubtotal(PricedRow(row, terms, false), terms, subtotal);
  }

  lemma {:induction false} SettledRowsStay(rows: seq<LineRow>, terms: Terms, n: nat)
    requires n <= |rows|
    requires forall i :: 0 <= i < |rows| ==>
      PriceError(rows[i], terms).None? && PricedRow(rows[i], terms, false) == rows[i]
    ensures PricedFirst(rows, terms, n) == rows[..n]
  {
    if n > 0 {
      SettledRowsStay(rows, terms, n - 1);
      assert rows[..n] == rows[..n - 1] + [rows[n - 1]];
    }
  }

  lemma AssembledLinesAreSettled(rows: seq<LineRow>, terms: Terms)
    requires AllPriceable(rows, terms)
    ensures var r := WithSubtotals(PricedRows(rows, terms)); PricedRows(r, terms) == r
  {
    var priced := PricedRows(rows, terms);
    var r := WithSubtotals(priced);
    forall i | 0 <= i < |r| ensures PriceError(r[i], terms).None? && PricedRow(r[i], terms, false) == r[i] {
      PricedRowAt(rows, terms, |rows|, i);
      StoredLineIsSettled(rows[i], terms, r[i].figures.subtotal);
    }
    SettledRowsStay(r, terms, |r|);
    assert r[..|r|] == r;
  }

  lemma SubtotalsAgain(rows: seq<LineRow>)
    ensures WithSubtotals(WithSubtotals(rows)) == WithSubtotals(rows)
  {
    var r := WithSubtotals(rows);
    SubtotalsKeepEntries(rows);
    forall i | 0 <= i < |rows| ensures WithSubtotal(r[i], r) == r[i] {
      SubtotalKeepsTheRest(rows[i], rows);
    }
  }

  lemma TotalsAgain(quote: QuoteRow, goods: int, rate: Option<TaxRate>)
    ensures var q := Totalled(quote, goods, rate);
      q.taxJurisdiction == quote.taxJurisdiction && Totalled(q, goods, rate) == q
  {
  }

  /** Assembling twice on the same terms stores exactly what assembling once stored. */
  lemma AssemblingTwiceIsOnce(quote: QuoteRow, rows: seq<LineRow>, terms: Terms)
    requires AllPriceable(rows, terms)
    ensures var (q, r) := Assembled(quote, rows, terms);
      AllPriceable(r, terms) && Assembled(q, r, terms) == (q, r)
  {
    var priced := PricedRows(rows, terms);
    AssembledLinesAreSettled(rows, terms);
    SubtotalsAgain(priced);
    SubtotalsKeepEntries(priced);
    TotalsAgain(quote, Sum(Entries(priced)), terms.tables.TaxRateOn(quote.taxJurisdiction, terms.on));
  }
}
