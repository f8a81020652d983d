/**
 Quote assembly (`assemble_quote`): price every line, subtotal by section, tax, total.

 Stored figures are exact cents once `extended` is, so the code's `money(...)` around sums of
 them is the identity and is not repeated here; the tax product is rounded.
 */
module Assembly {
  import opened Prelude
  import opened Rounding
  import opened ReferenceData
  import opened Pricing
  import opened PricingLaws
  import opened Ledger

  datatype QuoteRow = QuoteRow(
    subtotalSale: int, freightAmount: Option<int>, taxJurisdiction: Option<string>,
    taxRateApplied: Option<int>, taxAmount: int, grandTotal: int)

  function GroupName(group: LineGroup): string {
    match group
    case DOOR => "DOOR"
    case RESTROOM_ACCESSORIES => "RESTROOM_ACCESSORIES"
    case FREIGHT => "FREIGHT"
    case OTHER => "OTHER"
  }

  /** The section a line subtotals under: the catalogue's, else the opening's, else its line group. */
  function SubtotalKey(row: LineRow): string {
    if row.item.Some? && row.item.value.csiDivision != "" then row.item.value.csiDivision
    else if row.openingDivision.Some? && row.openingDivision.value != "" then row.openingDivision.value
    else GroupName(row.lineGroup)
  }

  /** The amounts that count towards the quote's goods, each under its section; freight has none. */
  function Entries(rows: seq<LineRow>): seq<Entry<string>> {
    if rows == [] then
      []
    else
      var last := rows[|rows| - 1];
      var before := Entries(rows[..|rows| - 1]);
      if last.lineGroup == FREIGHT then before else before + [Entry(SubtotalKey(last), last.figures.extended)]
  }

  /** The rows a pass over the first `n` lines prices, up to the first that raises. */
  function PricedFirst(rows: seq<LineRow>, terms: Terms, n: nat): (r: seq<LineRow>)
    requires n <= |rows|
    ensures |r| <= n
  {
    if n == 0 then
      []
    else
      var before := PricedFirst(rows, terms, n - 1);
      if |before| == n - 1 && PriceError(rows[n - 1], terms).None?
      then before + [PricedRow(rows[n - 1], terms, false)] else before
  }

  function PricedRows(rows: seq<LineRow>, terms: Terms): seq<LineRow> {
    PricedFirst(rows, terms, |rows|)
  }

  lemma {:induction false} PricedRowAt(rows: seq<LineRow>, terms: Terms, n: nat, i: nat)
    requires n <= |rows| && i < |PricedFirst(rows, terms, n)|
    ensures PriceError(rows[i], terms).None?
    ensures PricedFirst(rows, terms, n)[i] == PricedRow(rows[i], terms, false)
  {
    if i < |PricedFirst(rows, terms, n - 1)| {
      PricedRowAt(rows, terms, n - 1, i);
    }
  }

  lemma {:induction false} PricingStopsAtError(rows: seq<LineRow>, terms: Terms, n: nat, i: nat)
    requires i < n <= |rows| && |PricedFirst(rows, terms, i)| == i && PriceError(rows[i], terms).Some?
    ensures PricedFirst(rows, terms, n) == PricedFirst(rows, terms, i)
  {
    if i < n - 1 {
      PricingStopsAtError(rows, terms, n - 1, i);
    }
  }

  /** What pricing the next line, with outcome `error` and `row`, does to the rows priced so far. */
  lemma PricingStep(rows: seq<LineRow>, terms: Terms, i: nat, error: Option<PricingError>, row: LineRow)
    requires i < |rows| && |PricedFirst(rows, terms, i)| == i
    requires error == PriceError(rows[i], terms)
    requires error.None? ==> row == PricedRow(rows[i], terms, false)
    ensures error.None? ==> PricedFirst(rows, terms, i + 1) == PricedFirst(rows, terms, i) + [row]
    ensures error.Some? ==> PricedRows(rows, terms) == PricedFirst(rows, terms, i)
  {
    if error.Some? {
      PricingStopsAtError(rows, terms, |rows|, i);
    }
  }

  function WithSubtotal(row: LineRow, rows: seq<LineRow>): LineRow {
    var subtotal := if row.lineGroup == FREIGHT then 0 else TotalFor(Entries(rows), SubtotalKey(row));
    row.(figures := row.figures.(subtotal := subtotal))
  }

  function WithSubtotals(rows: seq<LineRow>): (r: seq<LineRow>)
    ensures |r| == |rows|
  {
    seq(|rows|, i requires 0 <= i < |rows| => WithSubtotal(rows[i], rows))
  }

  function OrZero(amount: Option<int>): int {
    if amount.Some? then amount.value else 0
  }

  /** The quote's stored totals when its goods come to `goods` and `rate` is in force. */
  function Totalled(quote: QuoteRow, goods: int, rate: Option<TaxRate>): QuoteRow {
    var taxable := goods + OrZero(quote.freightAmount);
    var tax := if rate.Some? then HalfUp(taxable * rate.value.value, 10_000) else 0;
    QuoteRow(goods, quote.freightAmount, quote.taxJurisdiction,
             if rate.Some? then Some(rate.value.value) else None, tax, taxable + tax)
  }

  /** What `assemble_quote` stores when every line can be priced: the totals and the lines. */
  function Assembled(quote: QuoteRow, rows: seq<LineRow>, terms: Terms): (QuoteRow, seq<LineRow>) {
    var priced := PricedRows(rows, terms);
    (Totalled(quote, Sum(Entries(priced)), terms.tables.TaxRateOn(quote.taxJurisdiction, terms.on)),
     WithSubtotals(priced))
  }

  /** Line `k` priced at a returned price. */
  function Entered(rows: seq<LineRow>, k: nat, price: Decimal, day: int, terms: Terms): (r: seq<LineRow>)
    requires k < |rows| && PriceError(WithVendorPrice(rows[k], price, day), terms).None?
    ensures |r| == |rows|
  {
    rows[k := PricedRow(WithVendorPrice(rows[k], price, day), terms, false)]
  }

  /** Neither pricing the line nor assembling the quote raises. */
  predicate CanEnter(rows: seq<LineRow>, k: nat, price: Decimal, day: int, terms: Terms) {
    && k < |rows| && PriceError(WithVendorPrice(rows[k], price, day), terms).None?
    && |PricedRows(Entered(rows, k, price, day, terms), terms)| == |rows|
  }

  /** The lines hold `rows` in memory. */
  ghost predicate Hold(lines: seq<QuoteLine>, rows: seq<LineRow>)
    reads lines
  {
    |lines| == |rows| && forall i :: 0 <= i < |lines| ==> lines[i].row == rows[i]
  }

  /** The lines' stored rows are `rows`. */
  ghost predicate Store(lines: seq<QuoteLine>, rows: seq<LineRow>)
    reads lines
  {
    |lines| == |rows| && forall i :: 0 <= i < |lines| ==> lines[i].saved == rows[i]
  }

  /** The first `i` lines are priced and saved as `priced`, the others are as they were. */
  ghost predicate PricedSoFar(lines: seq<QuoteLine>, i: nat, priced: seq<LineRow>,
                              rows: seq<LineRow>, stored: seq<LineRow>)
    reads lines
  {
    && |priced| == i <= |lines| == |rows| == |stored|
    && (forall j :: 0 <= j < i ==> lines[j].row == lines[j].saved == priced[j])
    && (forall j :: i <= j < |lines| ==> lines[j].row == rows[j] && lines[j].saved == stored[j])
  }

  /** One turn of the first loop. */
  method PriceNext(lines: seq<QuoteLine>, i: nat, terms: Terms, cache: ReferenceCache,
                   ghost priced: seq<LineRow>, ghost rows: seq<LineRow>, ghost stored: seq<LineRow>)
    returns (error: Option<PricingError>)
    requires Distinct(lines) && i < |lines| && PricedSoFar(lines, i, priced, rows, stored)
    requires priced == PricedFirst(rows, terms, i)
    requires cache.Valid(terms.tables) && cache.asOf == terms.on
    modifies lines[i], cache
    ensures cache.Valid(terms.tables)
    ensures error.None? ==> priced + [lines[i].row] == PricedFirst(rows, terms, i + 1)
    ensures error.Some? ==> priced == PricedRows(rows, terms)
    ensures error.None? ==> PricedSoFar(lines, i + 1, priced + [lines[i].row], rows, stored)
    ensures error.Some? ==> Store(lines, priced + stored[i..])
  {
    error := lines[i].PriceLine(terms, cache, false);
    PricingStep(rows, terms, i, error, lines[i].row);
  }

  lemma AllPriced(lines: seq<QuoteLine>, priced: seq<LineRow>, rows: seq<LineRow>, stored: seq<LineRow>)
    requires PricedSoFar(lines, |lines|, priced, rows, stored)
    ensures Hold(lines, priced) && Store(lines, priced + stored[|lines|..])
  {
  }

  /** The first loop: price each line and save it, until one raises. */
  method PriceLines(lines: seq<QuoteLine>, terms: Terms, cache: ReferenceCache,
                    ghost rows: seq<LineRow>, ghost stored: seq<LineRow>)
    returns (error: Option<PricingError>, ghost priced: seq<LineRow>)
    requires Distinct(lines) && Hold(lines, rows) && Store(lines, stored)
    requires cache.Valid(terms.tables) && cache.asOf == terms.on
    modifies lines, cache
    ensures cache.Valid(terms.tables)
    ensures priced == PricedRows(rows, terms) && (error.None? <==> |priced| == |lines|)
    ensures error.None? ==> Hold(lines, priced)
    ensures Store(lines, priced + stored[|priced|..])
  {
    priced := [];
    for i := 0 to |lines|
      invariant cache.Valid(terms.tables)
      invariant priced == PricedFirst(rows, terms, i) && PricedSoFar(lines, i, priced, rows, stored)
    {
      error := PriceNext(lines, i, terms, cache, priced, rows, stored);
      if error.Some? {
        return;
      }
      priced := priced + [lines[i].row];
    }
    AllPriced(lines, priced, rows, stored);
    error := None;
  }

  /** The second loop: a dictionary of section subtotals, kept with its insertion order. */
  method SectionSubtotals(lines: seq<QuoteLine>, ghost rows: seq<LineRow>)
    returns (order: seq<string>, subtotals: map<string, int>)
    requires Hold(lines, rows)
    ensures Balanced(order, subtotals, Entries(rows))
  {
    order, subtotals := [], map[];
    for i := 0 to |lines|
      invariant Balanced(order, subtotals, Entries(rows[..i]))
    {
      assert rows[..i + 1][..i] == rows[..i];
      if lines[i].row.lineGroup != FREIGHT {
        var key := SubtotalKey(lines[i].row);
        PostKeepsBalance(order, subtotals, Entries(rows[..i]), Entry(key, lines[i].row.figures.extended));
        var sofar := if key in subtotals then subtotals[key] else 0;
        if key !in subtotals {
          order := order + [key];
        }
        subtotals := subtotals[key := sofar + lines[i].row.figures.extended];
      }
    }
    assert rows[..|lines|] == rows;
  }

  /** The third loop: store each line's subtotal. */
  method StoreSubtotals(lines: seq<QuoteLine>, order: seq<string>, subtotals: map<string, int>,
                        ghost rows: seq<LineRow>)
    requires Distinct(lines) && Hold(lines, rows) && Store(lines, rows)
    requires Balanced(order, subtotals, Entries(rows))
    modifies lines
    ensures Hold(lines, WithSubtotals(rows)) && Store(lines, WithSubtotals(rows))
  {
    for i := 0 to |lines|
      invariant forall j :: 0 <= j < i ==> lines[j].row == lines[j].saved == WithSubtotal(rows[j], rows)
      invariant forall j :: i <= j < |lines| ==> lines[j].row == lines[j].saved == rows[j]
    {
      var line := lines[i];
      var key := SubtotalKey(line.row);
      var subtotal := if line.row.lineGroup == FREIGHT then 0 else if key in subtotals then subtotals[key] else 0;
      line.row := line.row.(figures := line.row.figures.(subtotal := subtotal));
      line.saved := line.saved.(figures := line.saved.figures.(subtotal := subtotal));
    }
  }

  /** `sum(subtotals.values())` */
  method SumValues(order: seq<string>, subtotals: map<string, int>) returns (sum: int)
    requires forall i :: 0 <= i < |order| ==> order[i] in subtotals
    ensures sum == SumOf(order, subtotals)
  {
    sum := 0;
    for i := 0 to |order|
      invariant sum == SumOf(order[..i], subtotals)
    {
      assert order[..i + 1][..i] == order[..i];
      sum := sum + subtotals[order[i]];
    }
    assert order[..|order|] == order;
  }

  class Quote {
    var subtotalSale: int
    var freightAmount: Option<int>
    var taxJurisdiction: Option<string>
    var taxRateApplied: Option<int>
    var taxAmount: int
    var grandTotal: int

    function Row(): QuoteRow
      reads this
    {
      QuoteRow(subtotalSale, freightAmount, taxJurisdiction, taxRateApplied, taxAmount, grandTotal)
    }

    /** The last part of `assemble_quote`: goods, tax and total. */
    method Total(goods: int, rate: Option<TaxRate>)
      modifies this
      ensures Row() == Totalled(old(Row()), goods, rate)
    {
      subtotalSale := goods;
      var taxable := subtotalSale + OrZero(freightAmount);
      taxRateApplied := if rate.Some? then Some(rate.value.value) else None;
      taxAmount := if rate.Some? then HalfUp(taxable * rate.value.value, 10_000) else 0;
      grandTotal := taxable + taxAmount;
    }

    /** `assemble_quote` once every line is priced. */
    method Close(lines: seq<QuoteLine>, terms: Terms, cache: ReferenceCache, ghost rows: seq<LineRow>)
      requires Distinct(lines) && Hold(lines, rows) && Store(lines, rows)
      requires cache.Valid(terms.tables) && cache.asOf == terms.on
      modifies this, lines, cache
      ensures Hold(lines, WithSubtotals(rows)) && Store(lines, WithSubtotals(rows))
      ensures Row() == Totalled(old(Row()), Sum(Entries(rows)), terms.tables.TaxRateOn(old(taxJurisdiction), terms.on))
    {
      var order, subtotals := SectionSubtotals(lines, rows);
      StoreSubtotals(lines, order, subtotals, rows);
      var goods := SumValues(order, subtotals);
      var rate := cache.TaxRate(terms.tables, taxJurisdiction);
      Total(goods, rate);
    }

    /** `assemble_quote`. When a line raises, lines priced before it stay saved and the totals stay. */
    method Assemble(lines: seq<QuoteLine>, terms: Terms, ghost rows: seq<LineRow>, ghost stored: seq<LineRow>)
      returns (error: Option<PricingError>)
      requires Distinct(lines) && Hold(lines, rows) && Store(lines, stored)
      modifies this, lines
      ensures var priced := PricedRows(rows, terms);
        && (error.None? <==> |priced| == |lines|)
        && (error.None? ==> Row() == Assembled(old(Row()), rows, terms).0)
        && (error.None? ==> Hold(lines, WithSubtotals(priced)) && Store(lines, WithSubtotals(priced)))
        && (error.Some? ==> Row() == old(Row()) && Store(lines, priced + stored[|priced|..]))
    {
      var cache := new ReferenceCache(terms.on);
      ghost var priced;
      error, priced := PriceLines(lines, terms, cache, rows, stored);
      if error.None? {
        Close(lines, terms, cache, priced);
      }
    }

    /**
     `apply_rfq_price`: the returned price becomes the cost of line `k`, the line is priced, and the
     quote it is on is assembled again. The caller's transaction undoes all of it on an error.
     */
    method ApplyRfqPrice(lines: seq<QuoteLine>, k: nat, price: Decimal, day: int, terms: Terms, ghost rows: seq<LineRow>)
      returns (error: Option<PricingError>)
      requires Distinct(lines) && k < |lines| && Hold(lines, rows) && Store(lines, rows)
      modifies this, lines
      ensures error.None? <==> CanEnter(rows, k, price, day, terms)
      ensures error.None? ==>
        && Row() == Assembled(old(Row()), Entered(rows, k, price, day, terms), terms).0
        && Hold(lines, Assembled(old(Row()), Entered(rows, k, price, day, terms), terms).1)
        && Store(lines, Assembled(old(Row()), Entered(rows, k, price, day, terms), terms).1)
      ensures error.Some? ==> Row() == old(Row())
    {
      var cache := new ReferenceCache(terms.on);
      error := lines[k].ApplyRfqPrice(price, day, terms, cache);
      if error.None? {
        ghost var entered := Entered(rows, k, price, day, terms);
        assert Hold(lines, entered) && Store(lines, entered);
        error := Assemble(lines, terms, entered, entered);
      }
    }
  }
}
