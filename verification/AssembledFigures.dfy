/** What an assembled quote and its lines hold, stated on the lines themselves. */
module AssembledFigures {
  import opened Prelude
  import opened Rounding
  import opened ReferenceData
  import opened Pricing
  import opened PricingLaws
  import opened Ledger
  import opened Assembly
  import opened AssemblyLaws
  import opened Texts

  /** The section of a line: its item's, if it has one, else its opening's, else its line group's name. */
  predicate IsIn(row: LineRow, section: string) {
    if row.item.Some? && |row.item.value.csiDivision| > 0 then section == row.item.value.csiDivision
    else if row.openingDivision.Some? && |row.openingDivision.value| > 0 then section == row.openingDivision.value
    else match row.lineGroup
      case DOOR => section == "DOOR"
      case RESTROOM_ACCESSORIES => section == "RESTROOM_ACCESSORIES"
      case FREIGHT => section == "FREIGHT"
      case OTHER => section == "OTHER"
  }

  lemma SectionIs(row: LineRow, section: string)
    ensures IsIn(row, section) <==> SubtotalKey(row) == section
  {
  }

  /** The extended amounts of the chosen lines. */
  function ExtendedOf(rows: seq<LineRow>, chosen: LineRow -> bool): int {
    if rows == [] then 0 else (if chosen(rows[0]) then rows[0].figures.extended else 0) + ExtendedOf(rows[1..], chosen)
  }

  lemma {:induction false} ExtendedOfAppend(rows: seq<LineRow>, last: LineRow, chosen: LineRow -> bool)
    ensures ExtendedOf(rows + [last], chosen) == ExtendedOf(rows, chosen) + if chosen(last) then last.figures.extended else 0
  {
    if rows == [] {
      assert rows + [last] == [last] && [last][1..] == [];
    } else {
      assert (rows + [last])[1..] == rows[1..] + [last];
      ExtendedOfAppend(rows[1..], last, chosen);
    }
  }

  predicate Goods(row: LineRow) {
    row.lineGroup != FREIGHT
  }

  lemma {:induction false} EntriesAddUp(rows: seq<LineRow>, section: string)
    ensures TotalFor(Entries(rows), section) == ExtendedOf(rows, row => Goods(row) && IsIn(row, section))
    ensures Sum(Entries(rows)) == ExtendedOf(rows, Goods)
    decreases |rows|
  {
    if rows != [] {
      var before, last := rows[..|rows| - 1], rows[|rows| - 1];
      assert before + [last] == rows;
      EntriesAddUp(before, section);
      ExtendedOfAppend(before, last, Goods);
      ExtendedOfAppend(before, last, row => Goods(row) && IsIn(row, section));
      SectionIs(last, section);
      assert (Entries(before) + [Entry(SubtotalKey(last), last.figures.extended)])[..|Entries(before)|] == Entries(before);
    }
  }

  /**
   The stored figures on the stored lines: each line of goods carries the extended amounts of the
   goods in its section, freight carries zero, and the subtotal is the extended amounts of all goods.
   */
  lemma FiguresAreSums(quote: QuoteRow, rows: seq<LineRow>, terms: Terms, i: nat, section: string)
    requires i < |Assembled(quote, rows, terms).1|
    ensures var (q, r) := Assembled(quote, rows, terms);
      && (r[i].lineGroup == FREIGHT ==> r[i].figures.subtotal == 0)
      && (r[i].lineGroup != FREIGHT && IsIn(r[i], section) ==>
            r[i].figures.subtotal == ExtendedOf(r, row => Goods(row) && IsIn(row, section)))
      && q.subtotalSale == ExtendedOf(r, Goods)
  {
    var (q, r) := Assembled(quote, rows, terms);
    SubtotalsAreSectionSums(quote, rows, terms, i);
    EntriesAddUp(r, section);
    SectionIs(r[i], section);
    SubtotalsKeepEntries(PricedRows(rows, terms));
  }

  predicate Listed(jurisdiction: Option<string>, code: string) {
    jurisdiction.Some? && Upper(Strip(jurisdiction.value)) == code && (code == "OH" || code == "KY")
  }

  /** The rate of the newest row in force for a taxed jurisdiction, if any. */
  ghost predicate IsRate(rate: Option<int>, jurisdiction: Option<string>, terms: Terms) {
    && (rate.Some? <==> exists row, code :: Listed(jurisdiction, code) && TaxInForce(row, terms.tables, code, terms.on))
    && (rate.Some? ==> exists row, code :: Listed(jurisdiction, code) && IsNewestRate(row, terms, code) && row.value == rate.value)
  }

  ghost predicate IsNewestRate(row: TaxRate, terms: Terms, code: string) {
    && TaxInForce(row, terms.tables, code, terms.on)
    && forall other :: TaxInForce(other, terms.tables, code, terms.on) ==> other.effective <= row.effective
  }

  /** The rate applied is the jurisdiction's, and tax is that rate of goods and freight, half-up to cents. */
  lemma TaxIs(quote: QuoteRow, rows: seq<LineRow>, terms: Terms)
    ensures var q := Assembled(quote, rows, terms).0;
      var freight := if quote.freightAmount.Some? then quote.freightAmount.value else 0;
      && IsRate(q.taxRateApplied, quote.taxJurisdiction, terms)
      && (q.taxRateApplied.Some? ==> IsHalfUp(q.taxAmount, (q.subtotalSale + freight) * q.taxRateApplied.value, 10_000))
      && (q.taxRateApplied.None? ==> q.taxAmount == 0)
      && q.grandTotal == q.subtotalSale + freight + q.taxAmount
      && q.freightAmount == quote.freightAmount && q.taxJurisdiction == quote.taxJurisdiction
  {
    var rate := terms.tables.TaxRateOn(quote.taxJurisdiction, terms.on);
    TaxRateIff(terms.tables, quote.taxJurisdiction, terms.on);
    if rate.Some? {
      assert Listed(quote.taxJurisdiction, Upper(Strip(quote.taxJurisdiction.value)));
      assert IsNewestRate(rate.value, terms, Upper(Strip(quote.taxJurisdiction.value)));
      HalfUpIsNearest((Sum(Entries(PricedRows(rows, terms))) + OrZero(quote.freightAmount)) * rate.value.value, 10_000);
    }
  }

  /** Line by line: each is priced on its own, up to the first that raises, and nothing after it is. */
  lemma PricedUpToTheFirstError(rows: seq<LineRow>, terms: Terms)
    ensures var priced := PricedRows(rows, terms);
      && |priced| <= |rows|
      && (forall i :: 0 <= i < |priced| ==> PriceError(rows[i], terms).None? && priced[i] == PricedRow(rows[i], terms, false))
      && (|priced| < |rows| ==> PriceError(rows[|priced|], terms).Some?)
  {
    forall i | 0 <= i < |PricedRows(rows, terms)|
      ensures PriceError(rows[i], terms).None? && PricedRows(rows, terms)[i] == PricedRow(rows[i], terms, false)
    {
      PricedRowAt(rows, terms, |rows|, i);
    }
    StoppedAtAnError(rows, terms, |rows|);
  }

  lemma {:induction false} StoppedAtAnError(rows: seq<LineRow>, terms: Terms, n: nat)
    requires n <= |rows|
    ensures |PricedFirst(rows, terms, n)| < n ==> PriceError(rows[|PricedFirst(rows, terms, n)|], terms).Some?
  {
    if n > 0 {
      StoppedAtAnError(rows, terms, n - 1);
    }
  }

  /** Assembly changes a line's pricing and its subtotal alone. */
  lemma AssembledLine(quote: QuoteRow, rows: seq<LineRow>, terms: Terms, i: nat)
    requires i < |Assembled(quote, rows, terms).1|
    ensures i < |rows| && PriceError(rows[i], terms).None?
    ensures var r := Assembled(quote, rows, terms).1[i];
      r == Resubtotalled(PricedRow(rows[i], terms, false), r.figures.subtotal)
  {
    PricedRowAt(rows, terms, |rows|, i);
  }

  // The vendor-price step on a whole quote.

  lemma EnteringRaisesAlike(row: LineRow, price: Decimal, day: int, terms: Terms)
    ensures PriceError(WithVendorPrice(row, price, day), terms) == PriceError(row, terms)
  {
  }

  ghost predicate NoneRaises(rows: seq<LineRow>, terms: Terms) {
    forall i :: 0 <= i < |rows| ==> PriceError(rows[i], terms).None?
  }

  lemma AllPriceableIff(rows: seq<LineRow>, terms: Terms)
    ensures |PricedRows(rows, terms)| == |rows| <==> NoneRaises(rows, terms)
  {
    PricedUpToTheFirstError(rows, terms);
  }

  lemma OneReplaced(rows: seq<LineRow>, k: nat, row: LineRow, terms: Terms)
    requires k < |rows| && PriceError(rows[k], terms).None? && PriceError(row, terms).None?
    ensures NoneRaises(rows[k := row], terms) <==> NoneRaises(rows, terms)
  {
    var after := rows[k := row];
    if NoneRaises(after, terms) {
      forall i | 0 <= i < |rows| ensures PriceError(rows[i], terms).None? {
        assert PriceError(after[i], terms).None?;
      }
    }
  }

  /** A vendor's price can be entered on a quote's line exactly when no line of the quote raises. */
  lemma CanEnterIff(rows: seq<LineRow>, k: nat, price: Decimal, day: int, terms: Terms)
    requires k < |rows|
    ensures CanEnter(rows, k, price, day, terms) <==> NoneRaises(rows, terms)
  {
    var row := WithVendorPrice(rows[k], price, day);
    EnteringRaisesAlike(rows[k], price, day, terms);
    if PriceError(rows[k], terms).None? {
      PricingAgainChangesNothing(row, terms, false);
      OneReplaced(rows, k, PricedRow(row, terms, false), terms);
      AllPriceableIff(Entered(rows, k, price, day, terms), terms);
    }
  }

  /** Entering it leaves line `k` priced at that price, and every other line priced as it stood. */
  lemma EnteringPricesTheLine(quote: QuoteRow, rows: seq<LineRow>, k: nat, price: Decimal, day: int, terms: Terms, i: nat)
    requires CanEnter(rows, k, price, day, terms) && i < |rows|
    ensures var r := Assembled(quote, Entered(rows, k, price, day, terms), terms).1;
      && |r| == |rows| && PriceError(rows[i], terms).None?
      && r[i] == Resubtotalled(PricedRow(if i == k then WithVendorPrice(rows[k], price, day) else rows[i], terms, false),
                               r[i].figures.subtotal)
  {
    var entered := Entered(rows, k, price, day, terms);
    CanEnterIff(rows, k, price, day, terms);
    EnteringRaisesAlike(rows[k], price, day, terms);
    AssembledLine(quote, entered, terms, i);
    if i == k {
      PricingAgainChangesNothing(WithVendorPrice(rows[k], price, day), terms, false);
    }
  }
}
