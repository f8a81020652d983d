/** What pricing one line promises: rounding, stability under repricing, and the vendor-price step. */
module PricingLaws {
  import opened Prelude
  import opened Rounding
  import opened ReferenceData
  import opened Pricing

  // Rounding.

  /** Within the money columns, the two roundings are one: exact rational half-up. */
  lemma SaleEachIsHalfUp(base: int, margin: int)
    requires margin < 10_000 && Abs(base) < TEN_TO_23
    ensures SaleEach(base, margin) == HalfUp(10_000 * base, 10_000 - margin)
  {
    DoubleRoundingIsExact(base, 10_000 - margin);
  }

  /** Margin is a divisor: for margins in [0, 1) the price never falls below cost plus adders. */
  lemma SaleCoversCost(base: int, margin: int)
    requires 0 <= margin < 10_000 && 0 <= base < TEN_TO_23
    ensures SaleEach(base, margin) >= base
  {
    SaleEachIsHalfUp(base, margin);
    var d := 10_000 - margin;
    HalfUpIsNearest(10_000 * base, d);
    NearestIsNoLess(HalfUp(10_000 * base, d), base, 10_000 * base, d);
  }

  lemma NearestIsNoLess(q: int, floor: int, n: int, d: int)
    requires 0 < d <= 10_000 && 0 <= floor && n == 10_000 * floor && IsHalfUp(q, n, d)
    ensures q >= floor
  {
    ProductIsMonotone(d, 10_000, floor);
    assert floor * d <= n;
    if q < floor {
      ProductIsMonotone(q, floor - 1, d);
      Distribute(floor, 1, d);
    }
  }

  /**
   `extended` against `quantity * base / (1 - margin)`: multiplied out, the two differ by at most
   half a cent plus half a ten-thousandth a unit, which is 0.005 + 0.00005 * quantity.
   */
  lemma ExtendedErrorBound(base: int, margin: int, quantity: int)
    requires margin < 10_000 && Abs(base) < TEN_TO_23
    ensures 2 * Abs(Extended(SaleEach(base, margin), quantity) * 10_000 * (10_000 - margin) - quantity * (10_000 * base))
      <= (10_000 - margin) * (10_000 + Abs(quantity))
  {
    var sale := HalfUp(10_000 * base, 10_000 - margin);
    SaleEachIsHalfUp(base, margin);
    HalfUpIsNearest(10_000 * base, 10_000 - margin);
    HalfUpIsNearest(sale * quantity, 10_000);
    TwoRoundings(HalfUp(sale * quantity, 10_000), sale, quantity, 10_000 * base, 10_000 - margin);
  }

  /** A priced line's figures are those of its own cost, adders, margin and quantity. */
  lemma PricedFigures(row: LineRow, terms: Terms, resource: bool)
    requires row.lineGroup != FREIGHT && PriceError(row, terms).None?
    ensures var r := PricedRow(row, terms, resource);
      && r.margining.margin < 10_000
      && r.figures.saleEach == SaleEach(Base(r), r.margining.margin)
      && r.figures.extended == Extended(r.figures.saleEach, r.quantity)
      && r.quantity == row.quantity && r.figures.totalAdders == Money(AdderTotal(r.adders))
  {
  }

  lemma TwoRoundings(e: int, s: int, q: int, n: int, d: int)
    requires d > 0 && 2 * Abs(s * d - n) <= d && 2 * Abs(e * 10_000 - s * q) <= 10_000
    ensures 2 * Abs(e * 10_000 * d - q * n) <= d * (10_000 + Abs(q))
  {
    ScaledBound(e * 10_000 - s * q, 10_000, d);
    ScaledByQuantity(q, s * d - n, d);
    SplitError(e, s, q, n, d);
    DistributeSum(d, 10_000, Abs(q));
  }

  lemma DistributeSum(d: int, a: int, b: int)
    ensures d * (a + b) == a * d + b * d
  {
  }

  lemma ScaledByQuantity(q: int, x: int, bound: int)
    requires 2 * Abs(x) <= bound
    ensures 2 * Abs(q * x) <= Abs(q) * bound
  {
    if q > 0 {
      ScaledBound(x, bound, q);
    } else if q < 0 {
      ScaledBound(x, bound, -q);
      Distribute(0, q, x);
      assert x * -q == -q * x == -(q * x);
      assert bound * -q == -q * bound;
    }
  }

  lemma SplitError(e: int, s: int, q: int, n: int, d: int)
    ensures e * 10_000 * d - q * n == (e * 10_000 - s * q) * d + q * (s * d - n)
  {
    Distribute(e * 10_000, s * q, d);
    assert q * (s * d - n) == q * (s * d) - q * n;
    assert (s * q) * d == q * (s * d);
  }

  // Where a cost and a margin come from.

  /** The multiplier row in force for the vendor, of whatever tier. */
  ghost predicate IsNewestFor(row: VendorMultiplier, vendor: string, terms: Terms) {
    && row in terms.tables.multipliers && row.key.0 == vendor && row.effective <= terms.on
    && forall other :: other in terms.tables.multipliers && other.key.0 == vendor && other.effective <= terms.on ==>
         other.effective <= row.effective
  }

  /**
   A cost that is sourced afresh from a list price is that price times the newest multiplier in
   force for the vendor, half-up to four places, with the multiplier's row kept beside it; it is
   the list price, and the line is flagged, exactly when the vendor has no multiplier in force.
   */
  lemma ListCostUsesTheNewestMultiplier(cost: Costing, item: CatalogItem, terms: Terms, resource: bool)
    requires !KeepsItsCost(cost, resource) && item.listPrice.Some?
    ensures var r, list := Sourced(cost, Some(item), terms, resource), item.listPrice.value;
      && r.source == MFR_LIST && r.listPrice == Some(list)
      && (terms.tables.MultiplierOn(item.vendor, None, terms.on).Some? ==>
            && r.vendorMultiplier.Some? && IsNewestFor(r.vendorMultiplier.value, item.vendor, terms)
            && r.multiplier == Some(r.vendorMultiplier.value.value.multiplier)
            && IsHalfUp(r.ourCost, list * r.vendorMultiplier.value.value.multiplier, 100)
            && r.needsReview == cost.needsReview)
      && (terms.tables.MultiplierOn(item.vendor, None, terms.on).None? ==>
            && r.ourCost == 100 * list && r.needsReview
            && forall row :: row in terms.tables.multipliers && row.key.0 == item.vendor ==> row.effective > terms.on)
  {
    var found := terms.tables.MultiplierOn(item.vendor, None, terms.on);
    NewestMultiplier(item.vendor, terms);
    if found.Some? {
      HalfUpIsNearest(item.listPrice.value * found.value.value.multiplier, 100);
    }
  }

  lemma NewestMultiplier(vendor: string, terms: Terms)
    ensures var found := terms.tables.MultiplierOn(vendor, None, terms.on);
      && (found.Some? ==> IsNewestFor(found.value, vendor, terms))
      && (found.None? ==>
            forall row :: row in terms.tables.multipliers && row.key.0 == vendor ==> row.effective > terms.on)
  {
    var rows: seq<VendorMultiplier>, tier: Option<string> := terms.tables.multipliers, None;
    var wanted := (key: (string, string)) => key.0 == vendor && (tier.Some? ==> key.1 == tier.value);
    EffectiveOnIsNewest(rows, wanted, terms.on);
    forall row | row in rows && row.key.0 == vendor && row.effective <= terms.on
      ensures exists i :: 0 <= i < |rows| && rows[i] == row && InForce(rows[i], wanted, terms.on)
    {
      var i :| 0 <= i < |rows| && rows[i] == row;
      assert InForce(rows[i], wanted, terms.on);
    }
  }

  // Errors.

  /** The check constraints of the database: every stored margin is below one. */
  ghost predicate MarginsBelowOne(terms: Terms) {
    forall band :: band in terms.tables.margins ==> band.value.target < 10_000
  }

  /** Under the constraints the "100% or more" error cannot be raised, and pricing keeps them. */
  lemma ConstraintsExcludeTheError(row: LineRow, terms: Terms, resource: bool)
    requires MarginsBelowOne(terms) && row.margining.margin < 10_000
    ensures PriceError(row, terms).None?
    ensures PricedRow(row, terms, resource).margining.margin < 10_000
  {
    DefaultMarginBelowOne(row.margining, row.item, terms);
    if row.lineGroup != FREIGHT {
      PricedFigures(row, terms, resource);
    }
  }

  lemma DefaultMarginBelowOne(m: Margining, item: Option<CatalogItem>, terms: Terms)
    requires MarginsBelowOne(terms) && m.margin < 10_000
    ensures Margined(m, item, terms).margin < 10_000
  {
    if item.Some? {
      var band := item.value.productTypeBand;
      EffectiveOnIsNewest(terms.tables.margins, key => key == band, terms.on);
    }
  }

  // Repricing.

  /** Pricing a priced line again, on the same terms, changes no column. */
  lemma PricingAgainChangesNothing(row: LineRow, terms: Terms, resource: bool)
    requires PriceError(row, terms).None?
    ensures var r := PricedRow(row, terms, resource);
      PriceError(r, terms).None? && PricedRow(r, terms, false) == r
  {
    if row.lineGroup != FREIGHT {
      var r := PricedRow(row, terms, resource);
      PricedFigures(row, terms, resource);
      CostingAgain(row, terms, resource, r);
      MarginingAgain(row.margining, row.item, terms);
      PricedColumns(r, terms, false, r);
    }
  }

  lemma CostingAgain(row: LineRow, terms: Terms, resource: bool, r: LineRow)
    requires r.cost == Costed(row, terms, resource) && r.item == row.item
    ensures Costed(r, terms, false) == r.cost
  {
  }

  lemma MarginingAgain(m: Margining, item: Option<CatalogItem>, terms: Terms)
    ensures var r := Floored(Margined(m, item, terms), item, terms);
      r.margin == Margined(m, item, terms).margin && Margined(r, item, terms) == r && Floored(r, item, terms) == r
  {
  }

  /** One repricing in a line's life: on any terms, with the catalogue item since edited. */
  datatype Repricing = Repricing(terms: Terms, item: Option<CatalogItem>, subtotal: int)

  /** The row after a run of repricings; one that raises leaves the row as it was. */
  function AfterRepricings(row: LineRow, run: seq<Repricing>): LineRow {
    if run == [] then row else Repriced(AfterRepricings(row, run[..|run| - 1]), run[|run| - 1])
  }

  function Repriced(row: LineRow, step: Repricing): LineRow {
    var edited := row.(item := step.item);
    if PriceError(edited, step.terms).Some? then
      edited
    else
      var r := PricedRow(edited, step.terms, false);
      r.(figures := r.figures.(subtotal := step.subtotal))
  }

  /** What an estimator entered: a positive cost and its source, and an override of the margin. */
  ghost predicate KeepsWhatWasEntered(row: LineRow, r: LineRow) {
    && r.cost.ourCost == row.cost.ourCost && r.cost.source == row.cost.source
    && r.cost.needsReview == row.cost.needsReview && r.quantity == row.quantity
    && r.margining.overridden == row.margining.overridden
    && (row.margining.overridden ==>
          r.margining.margin == row.margining.margin && r.margining.band == row.margining.band)
  }

  /**
   Whatever happens to the reference tables, the catalogue and the date, repricing keeps a
   positive cost with its known source, and keeps an overridden margin.
   */
  lemma {:induction false} RepricingKeepsWhatWasEntered(row: LineRow, run: seq<Repricing>)
    requires row.cost.ourCost > 0 && !row.cost.source.Unknown?
    ensures KeepsWhatWasEntered(row, AfterRepricings(row, run))
  {
    if run != [] {
      RepricingKeepsWhatWasEntered(row, run[..|run| - 1]);
      OneRepricingKeeps(AfterRepricings(row, run[..|run| - 1]), run[|run| - 1]);
    }
  }

  lemma OneRepricingKeeps(row: LineRow, step: Repricing)
    requires row.cost.ourCost > 0 && !row.cost.source.Unknown?
    ensures KeepsWhatWasEntered(row, Repriced(row, step))
  {
  }

  // The vendor-price step.

  /**
   The returned price is what the line is costed at, with nothing left to review, exactly when it
   rounds to something positive or the line is freight: otherwise a zero or negative one sends the
   line back to the waterfall.
   */
  lemma VendorPriceSticksIffPositive(row: LineRow, price: Decimal, day: int, terms: Terms)
    requires PriceError(row, terms).None?
    ensures PriceError(WithVendorPrice(row, price, day), terms).None?
    ensures var cost := PricedRow(WithVendorPrice(row, price, day), terms, false).cost;
      (cost.ourCost == Unit(price) && cost.source == VENDOR_RFQ && !cost.needsReview)
      <==> (Unit(price) > 0 || row.lineGroup == FREIGHT)
  {
    VendorCostIffPositive(WithVendorPrice(row, price, day), terms);
  }

  lemma VendorCostIffPositive(row: LineRow, terms: Terms)
    requires row.cost.source == VENDOR_RFQ && !row.cost.needsReview
    ensures var cost := Costed(row, terms, false);
      (cost.ourCost == row.cost.ourCost && cost.source == VENDOR_RFQ && !cost.needsReview) <==> row.cost.ourCost > 0
  {
  }

  /** A returned price of 0.00 on a line whose item lists at 100.00: the line is costed at 100.00 and flagged. */
  lemma ZeroVendorPriceIsReplaced(row: LineRow, day: int, terms: Terms)
    requires row.lineGroup != FREIGHT && PriceError(row, terms).None?
    requires row.item == Some(CatalogItem("V", Some(10_000), "", "", OTHER)) && terms.tables.multipliers == []
    ensures var entered := WithVendorPrice(row, Decimal(0, 2), day);
      && entered.cost.ourCost == 0 && entered.cost.source == VENDOR_RFQ && !entered.cost.needsReview
      && var cost := PricedRow(entered, terms, false).cost;
      cost.ourCost == 1_000_000 && cost.source == MFR_LIST && cost.needsReview
  {
    HalfUpIsNearest(0, Pow10(2));
  }
}
