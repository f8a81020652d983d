/**
 What each column of a priced line holds, stated on the line, its item and the reference rows in
 force, without the functions that compute it.
 */
module PricedLines {
  import opened Prelude
  import opened Rounding
  import opened ReferenceData
  import opened Pricing
  import opened PricingLaws

  // ------------------------------------------------------------------------
  // The margin
  // ------------------------------------------------------------------------

  predicate BandInForce(b: MarginBand, key: string, terms: Terms) {
    b in terms.tables.margins && b.key == key && b.effective <= terms.on
  }

  ghost predicate IsNewestBand(b: MarginBand, key: string, terms: Terms) {
    BandInForce(b, key, terms) && forall other :: BandInForce(other, key, terms) ==> other.effective <= b.effective
  }

  ghost predicate HasBandInForce(key: string, terms: Terms) {
    exists b :: BandInForce(b, key, terms)
  }

  /** The line names a band, no one has overridden its margin, and the band has a row in force. */
  ghost predicate TakesTheBand(row: LineRow, terms: Terms) {
    && !row.margining.overridden && row.item.Some? && row.item.value.productTypeBand != ""
    && HasBandInForce(row.item.value.productTypeBand, terms)
  }

  lemma NewestBand(key: string, terms: Terms)
    ensures var found := terms.tables.MarginBandOn(key, terms.on);
      && (found.Some? <==> HasBandInForce(key, terms))
      && (found.Some? ==> IsNewestBand(found.value, key, terms))
  {
    var rows: seq<MarginBand>, wanted := terms.tables.margins, (k: string) => k == key;
    EffectiveOnIsNewest(rows, wanted, terms.on);
    forall b | BandInForce(b, key, terms)
      ensures exists i :: 0 <= i < |rows| && rows[i] == b && InForce(rows[i], wanted, terms.on)
    {
      var i :| 0 <= i < |rows| && rows[i] == b;
      assert InForce(rows[i], wanted, terms.on);
    }
    if terms.tables.MarginBandOn(key, terms.on).Some? {
      assert BandInForce(terms.tables.MarginBandOn(key, terms.on).value, key, terms);
    }
  }

  /** The margin a line is sold at. */
  ghost predicate SoldAt(row: LineRow, terms: Terms, band: Option<MarginBand>, margin: int) {
    if TakesTheBand(row, terms) then
      band.Some? && IsNewestBand(band.value, row.item.value.productTypeBand, terms) && margin == band.value.value.target
    else
      band == row.margining.band && margin == row.margining.margin
  }

  lemma MarginedIs(row: LineRow, terms: Terms)
    ensures var m := Margined(row.margining, row.item, terms);
      SoldAt(row, terms, m.band, m.margin) && m.overridden == row.margining.overridden
  {
    if row.item.Some? {
      NewestBand(row.item.value.productTypeBand, terms);
    }
  }

  /**
   A line that is not freight, not overridden, and whose item names a band with a row in force is
   sold at the target of the newest such row; any other keeps its margin and band. The unit price
   is cost plus adders over one minus that margin, half-up.
   */
  lemma SoldAtTheBandsTarget(row: LineRow, terms: Terms, resource: bool)
    requires row.lineGroup != FREIGHT && PriceError(row, terms).None?
    ensures var r := PricedRow(row, terms, resource);
      && SoldAt(row, terms, r.margining.band, r.margining.margin) && r.margining.overridden == row.margining.overridden
      && (Abs(Base(r)) < TEN_TO_23 ==>
            IsHalfUp(r.figures.saleEach, 10_000 * (r.cost.ourCost + 100 * r.figures.totalAdders), 10_000 - r.margining.margin))
      && IsHalfUp(r.figures.extended, r.figures.saleEach * r.quantity, 10_000)
  {
    var r := PricedRow(row, terms, resource);
    MarginedIs(row, terms);
    PricedFigures(row, terms, resource);
    if Abs(Base(r)) < TEN_TO_23 {
      SaleEachIsHalfUp(Base(r), r.margining.margin);
      HalfUpIsNearest(10_000 * Base(r), 10_000 - r.margining.margin);
    }
    HalfUpIsNearest(r.figures.saleEach * r.quantity, 10_000);
  }

  /** The error is raised for a margin of one or more, and never for freight. */
  lemma ErrorIs(row: LineRow, terms: Terms)
    ensures row.lineGroup == FREIGHT ==> PriceError(row, terms).None?
    ensures PriceError(row, terms).Some? ==>
      exists band :: SoldAt(row, terms, band, PriceError(row, terms).value.margin) && PriceError(row, terms).value.margin >= 10_000
    ensures PriceError(row, terms).None? && row.lineGroup != FREIGHT ==>
      exists band, margin :: SoldAt(row, terms, band, margin) && margin < 10_000
  {
    MarginedIs(row, terms);
    var m := Margined(row.margining, row.item, terms);
    assert SoldAt(row, terms, m.band, m.margin);
  }

  predicate Below(margin: int, band: MarginBand) {
    band.value.floor.Some? && margin < band.value.floor.value
  }

  /**
   The flag compares the margin with the floor of the line's own band; a line without one is
   compared with the newest row in force for its item's band; without either it is never flagged.
   */
  lemma BelowFloorIff(row: LineRow, terms: Terms, resource: bool)
    requires row.lineGroup != FREIGHT && PriceError(row, terms).None?
    ensures var m := PricedRow(row, terms, resource).margining;
      && (m.band.Some? ==> (m.belowFloor <==> Below(m.margin, m.band.value)))
      && (m.band.None? && row.item.Some? && HasBandInForce(row.item.value.productTypeBand, terms) ==>
            exists b :: IsNewestBand(b, row.item.value.productTypeBand, terms) && (m.belowFloor <==> Below(m.margin, b)))
      && (m.band.None? && (row.item.Some? ==> !HasBandInForce(row.item.value.productTypeBand, terms)) ==> !m.belowFloor)
  {
    if row.item.Some? {
      NewestBand(row.item.value.productTypeBand, terms);
    }
  }

  // ------------------------------------------------------------------------
  // The cost
  // ------------------------------------------------------------------------

  /** A cost, its list price and its multiplier's row. */
  ghost predicate ListCost(was: Costing, cost: Costing, item: CatalogItem, terms: Terms) {
    && item.listPrice.Some? && cost.source == MFR_LIST && cost.listPrice == item.listPrice
    && if exists m :: MultiplierInForce(m, item.vendor, terms) then
         && cost.vendorMultiplier.Some? && IsNewestFor(cost.vendorMultiplier.value, item.vendor, terms)
         && cost.multiplier == Some(cost.vendorMultiplier.value.value.multiplier)
         && cost.sheetVersion == cost.vendorMultiplier.value.value.sheetVersion
         && IsHalfUp(cost.ourCost, item.listPrice.value * cost.vendorMultiplier.value.value.multiplier, 100)
         && cost.needsReview == was.needsReview
       else
         && cost.ourCost == 100 * item.listPrice.value && cost.needsReview
         && SameMultiplier(was, cost)
  }

  predicate MultiplierInForce(m: VendorMultiplier, vendor: string, terms: Terms) {
    m in terms.tables.multipliers && m.key.0 == vendor && m.effective <= terms.on
  }

  predicate SameMultiplier(was: Costing, cost: Costing) {
    && cost.multiplier == was.multiplier && cost.vendorMultiplier == was.vendorMultiplier
    && cost.sheetVersion == was.sheetVersion
  }

  /**
   The whole waterfall: a positive cost stays with its source unless it is sourced anew; else the
   item's list price times the newest multiplier; else the entered cost, flagged. The line is stale
   when its cost is dated more than the window's months of thirty days before the pricing day.
   */
  lemma CostIs(row: LineRow, terms: Terms, resource: bool)
    requires row.lineGroup != FREIGHT && PriceError(row, terms).None?
    ensures var was, cost := row.cost, PricedRow(row, terms, resource).cost;
      && (!resource && was.ourCost > 0 ==>
            && cost.ourCost == was.ourCost && cost.source == (if was.source.Unknown? then MANUAL else was.source)
            && cost.listPrice == was.listPrice && SameMultiplier(was, cost) && cost.needsReview == was.needsReview)
      && ((resource || was.ourCost <= 0) && row.item.Some? && row.item.value.listPrice.Some? ==>
            ListCost(was, cost, row.item.value, terms))
      && ((resource || was.ourCost <= 0) && (row.item.Some? ==> row.item.value.listPrice.None?) ==>
            && cost.ourCost == was.ourCost && cost.source == MANUAL && cost.needsReview
            && cost.listPrice == was.listPrice && SameMultiplier(was, cost))
      && cost.effectiveDate == was.effectiveDate
      && (cost.isStale <==> was.effectiveDate.Some? && was.effectiveDate.value + 30 * terms.freshnessMonths < terms.on)
  {
    if (resource || row.cost.ourCost <= 0) && row.item.Some? && row.item.value.listPrice.Some? {
      ListCostUsesTheNewestMultiplier(row.cost, row.item.value, terms, resource);
      MultiplierFoundIff(row.item.value.vendor, terms);
    }
  }

  lemma MultiplierFoundIff(vendor: string, terms: Terms)
    ensures terms.tables.MultiplierOn(vendor, None, terms.on).Some? <==> exists m :: MultiplierInForce(m, vendor, terms)
  {
    NewestMultiplier(vendor, terms);
    var found := terms.tables.MultiplierOn(vendor, None, terms.on);
    if found.Some? {
      assert MultiplierInForce(found.value, vendor, terms);
    }
  }

  /** A freight line is sold at its entered cost, times its quantity or one, and nothing else of it changes. */
  lemma FreightIsNotComputed(row: LineRow, terms: Terms, resource: bool)
    requires row.lineGroup == FREIGHT
    ensures PriceError(row, terms).None?
    ensures var r := PricedRow(row, terms, resource);
      && r.figures.saleEach == row.cost.ourCost
      && IsHalfUp(r.figures.extended, row.cost.ourCost * (if row.quantity == 0 then 100 else row.quantity), 10_000)
      && r == row.(figures := row.figures.(saleEach := r.figures.saleEach, extended := r.figures.extended))
  {
    HalfUpIsNearest(row.cost.ourCost * (if row.quantity == 0 then 100 else row.quantity), 10_000);
  }

  /** A vendor's price is entered half-up to four places under the day it came, and clears the flag. */
  lemma VendorPriceIsEntered(row: LineRow, price: Decimal, day: int)
    ensures var r := WithVendorPrice(row, price, day);
      && IsHalfUp(r.cost.ourCost, 10_000 * price.coefficient, Pow10(price.places))
      && r.cost.source == VENDOR_RFQ && r.cost.effectiveDate == Some(day) && !r.cost.needsReview
      && r == row.(cost := r.cost) && r.cost.listPrice == row.cost.listPrice && SameMultiplier(row.cost, r.cost)
  {
    HalfUpIsNearest(10_000 * price.coefficient, Pow10(price.places));
  }

  // ------------------------------------------------------------------------
  // The adders
  // ------------------------------------------------------------------------

  /** Every adder that is a number has at most `places` places. */
  predicate Holds(adders: seq<Option<Decimal>>, places: nat) {
    forall i :: 0 <= i < |adders| && adders[i].Some? ==> adders[i].value.places <= places
  }

  /** The sum of the adders that are numbers, in units of `places` places. */
  function SumIn(adders: seq<Option<Decimal>>, places: nat): int
    requires Holds(adders, places)
  {
    if adders == [] then 0
    else
      var rest := SumIn(adders[1..], places);
      if adders[0].None? then rest
      else rest + adders[0].value.coefficient * Pow10(places - adders[0].value.places)
  }

  lemma {:induction false} SumInOfAppend(adders: seq<Option<Decimal>>, last: Option<Decimal>, places: nat)
    requires Holds(adders + [last], places) && (last.Some? ==> last.value.places <= places)
    ensures Holds(adders, places)
    ensures SumIn(adders + [last], places)
      == SumIn(adders, places) + if last.Some? then last.value.coefficient * Pow10(places - last.value.places) else 0
  {
    assert forall i :: 0 <= i < |adders| ==> (adders + [last])[i] == adders[i];
    assert (adders + [last])[|adders|] == last;
    if adders == [] {
      assert adders + [last] == [last] && [last][1..] == [];
    } else {
      assert (adders + [last])[1..] == adders[1..] + [last];
      SumInOfAppend(adders[1..], last, places);
    }
  }

  lemma {:induction false} PowersMultiply(a: nat, b: nat)
    ensures Pow10(a + b) == Pow10(a) * Pow10(b)
  {
    if a > 0 {
      PowersMultiply(a - 1, b);
      assert 10 * (Pow10(a - 1) * Pow10(b)) == (10 * Pow10(a - 1)) * Pow10(b);
    }
  }

  lemma Rescale(c: int, from: nat, via: nat, to: nat)
    requires from <= via <= to
    ensures c * Pow10(via - from) * Pow10(to - via) == c * Pow10(to - from)
  {
    PowersMultiply(via - from, to - via);
    Associate(c, Pow10(via - from), Pow10(to - via));
  }

  lemma Associate(a: int, b: int, c: int)
    ensures (a * b) * c == a * (b * c)
  {
  }

  lemma SumDistributes(a: int, b: int, c: int)
    ensures (a + b) * c == a * c + b * c
  {
  }

  lemma PlusAddsUp(a: Decimal, b: Decimal, places: nat)
    requires a.places <= places && b.places <= places
    ensures Plus(a, b).places <= places
    ensures Plus(a, b).coefficient * Pow10(places - Plus(a, b).places)
      == a.coefficient * Pow10(places - a.places) + b.coefficient * Pow10(places - b.places)
  {
    var via := Plus(a, b).places;
    Rescale(a.coefficient, a.places, via, places);
    Rescale(b.coefficient, b.places, via, places);
    SumDistributes(a.coefficient * Pow10(via - a.places), b.coefficient * Pow10(via - b.places), Pow10(places - via));
  }

  lemma {:induction false} TotalIsSum(adders: seq<Option<Decimal>>, places: nat)
    requires Holds(adders, places)
    ensures AdderTotal(adders).places <= places
    ensures AdderTotal(adders).coefficient * Pow10(places - AdderTotal(adders).places) == SumIn(adders, places)
    decreases |adders|
  {
    if adders != [] {
      var before, last := adders[..|adders| - 1], adders[|adders| - 1];
      assert before + [last] == adders && adders[|adders| - 1] == last;
      SumInOfAppend(before, last, places);
      TotalIsSum(before, places);
      if last.Some? {
        PlusAddsUp(AdderTotal(before), last.value, places);
      }
    }
  }

  lemma HalfUpScales(q: int, n: int, d: int, k: int)
    requires d > 0 && k > 0 && IsHalfUp(q, n, d)
    ensures IsHalfUp(q, n * k, d * k)
  {
    AbsOfProduct(q * d - n, k);
    Distribute(q * d, n, k);
    Associate(q, d, k);
    Associate(Abs(q), d, k);
    AbsOfProduct(n, k);
    ScaledTie(Abs(q * d - n), d, k, Abs(q) * d, Abs(n));
  }

  lemma ScaledTie(off: int, d: int, k: int, above: int, n: int)
    requires k > 0 && 2 * off <= d && (2 * off == d ==> above > n)
    ensures 2 * (off * k) <= d * k && (2 * (off * k) == d * k ==> above * k > n * k)
  {
    ProductIsMonotone(2 * off, d, k);
    Associate(2, off, k);
    if 2 * off < d {
      ProductIsMonotone(2 * off, d - 1, k);
      Distribute(d, 1, k);
    } else {
      ProductIsMonotone(n + 1, above, k);
      SumDistributes(n, 1, k);
    }
  }

  lemma RoundedTotal(total: Decimal, places: nat, sum: int)
    requires total.places <= places && total.coefficient * Pow10(places - total.places) == sum
    ensures IsHalfUp(Money(total), 100 * sum, Pow10(places))
  {
    var k := Pow10(places - total.places);
    HalfUpIsNearest(100 * total.coefficient, Pow10(total.places));
    HalfUpScales(Money(total), 100 * total.coefficient, Pow10(total.places), k);
    PowersMultiply(total.places, places - total.places);
    Associate(100, total.coefficient, k);
  }

  /** The adder total is the sum of the adders that are numbers, half-up to cents; the others count nothing. */
  lemma AddersAddUp(row: LineRow, terms: Terms, resource: bool, places: nat)
    requires row.lineGroup != FREIGHT && PriceError(row, terms).None? && Holds(row.adders, places)
    ensures IsHalfUp(PricedRow(row, terms, resource).figures.totalAdders, 100 * SumIn(row.adders, places), Pow10(places))
  {
    TotalIsSum(row.adders, places);
    RoundedTotal(AdderTotal(row.adders), places, SumIn(row.adders, places));
    PricedFigures(row, terms, resource);
  }
}
