/**
 The pricing engine (backend/api/quotes/pricing_ops.py).

 Columns are integer coefficients: unit costs, margins, multipliers, rates and `sale_each` count
 ten-thousandths; money, quantities and list prices count hundredths. `Priced` says what pricing
 does to one line's row, and the `QuoteLine` methods compute it step by step in the code's order.
 What pricing promises about money is proved in `PricingLaws`; assembly is in `Assembly`.
 */
module Pricing {
  import opened Prelude
  import opened Rounding
  import opened ReferenceData

  datatype LineGroup = DOOR | RESTROOM_ACCESSORIES | FREIGHT | OTHER

  /** Where a cost came from; `Unknown` is any column text that is none of the five. */
  datatype CostSource = P21_LAST_PO | DISTRIBUTOR_SHEET | MFR_LIST | VENDOR_RFQ | MANUAL | Unknown(text: string)

  datatype CatalogItem = CatalogItem(
    vendor: string, listPrice: Option<int>, productTypeBand: string, csiDivision: string, lineGroup: LineGroup)

  /** The cost columns of a line. */
  datatype Costing = Costing(
    ourCost: int, source: CostSource, effectiveDate: Option<int>, isStale: bool, listPrice: Option<int>,
    multiplier: Option<int>, vendorMultiplier: Option<VendorMultiplier>, sheetVersion: string, needsReview: bool)

  datatype Margining = Margining(margin: int, overridden: bool, band: Option<MarginBand>, belowFloor: bool)

  datatype Figures = Figures(totalAdders: int, saleEach: int, extended: int, subtotal: int)

  /** A quote line's row. `adders` are the values of the JSON column, None where not a number. */
  datatype LineRow = LineRow(
    item: Option<CatalogItem>, openingDivision: Option<string>, lineGroup: LineGroup, quantity: int,
    adders: seq<Option<Decimal>>, cost: Costing, margining: Margining, figures: Figures)

  /** What a pricing run reads besides the line: the reference tables, the day, the freshness window. */
  datatype Terms = Terms(tables: Tables, on: int, freshnessMonths: int)

  datatype PricingError = MarginIsNoDivisor(margin: int)

  // Steps 1 to 3: cost, adders, margin.

  predicate KeepsItsCost(cost: Costing, resource: bool) {
    !resource && cost.ourCost > 0
  }

  /** The cost waterfall: a positive cost stays; else list times multiplier, else list, else as entered. */
  function Sourced(cost: Costing, item: Option<CatalogItem>, terms: Terms, resource: bool): Costing {
    if KeepsItsCost(cost, resource) then
      cost.(source := if cost.source.Unknown? then MANUAL else cost.source)
    else if item.Some? && item.value.listPrice.Some? then
      var list := item.value.listPrice.value;
      var found := terms.tables.MultiplierOn(item.value.vendor, None, terms.on);
      if found.Some? then
        cost.(listPrice := Some(list), multiplier := Some(found.value.value.multiplier), vendorMultiplier := found,
              sheetVersion := found.value.value.sheetVersion,
              ourCost := HalfUp(list * found.value.value.multiplier, 100), source := MFR_LIST)
      else
        cost.(listPrice := Some(list), needsReview := true, ourCost := 100 * list, source := MFR_LIST)
    else
      cost.(needsReview := true, source := MANUAL)
  }

  predicate IsStale(date: Option<int>, terms: Terms) {
    date.Some? && date.value < terms.on - terms.freshnessMonths * 30
  }

  function Plus(a: Decimal, b: Decimal): Decimal {
    var places := if a.places < b.places then b.places else a.places;
    Decimal(a.coefficient * Pow10(places - a.places) + b.coefficient * Pow10(places - b.places), places)
  }

  function AdderTotal(adders: seq<Option<Decimal>>): Decimal {
    if adders == [] then
      Decimal(0, 0)
    else
      var before := AdderTotal(adders[..|adders| - 1]);
      var last := adders[|adders| - 1];
      if last.Some? then Plus(before, last.value) else before
  }

  function Money(value: Decimal): int {
    HalfUp(100 * value.coefficient, Pow10(value.places))
  }

  /** The band a line's default margin comes from, if it has one. */
  function DefaultBand(m: Margining, item: Option<CatalogItem>, terms: Terms): Option<MarginBand> {
    if m.overridden || item.None? || item.value.productTypeBand == "" then None
    else terms.tables.MarginBandOn(item.value.productTypeBand, terms.on)
  }

  function Margined(m: Margining, item: Option<CatalogItem>, terms: Terms): Margining {
    var band := DefaultBand(m, item, terms);
    if band.None? then m else m.(band := band, margin := band.value.value.target)
  }

  function Floored(m: Margining, item: Option<CatalogItem>, terms: Terms): Margining {
    var band :=
      if m.band.Some? then m.band
      else if item.Some? then terms.tables.MarginBandOn(item.value.productTypeBand, terms.on)
      else None;
    var floor := if band.Some? then band.value.value.floor else None;
    m.(belowFloor := floor.Some? && m.margin < floor.value)
  }

  /** The cost columns `price_line` leaves. */
  function Costed(row: LineRow, terms: Terms, resource: bool): Costing {
    Sourced(row.cost, row.item, terms, resource).(isStale := IsStale(row.cost.effectiveDate, terms))
  }

  /** What the margin divides: cost plus adders, in ten-thousandths. */
  function Base(row: LineRow): int {
    row.cost.ourCost + 100 * row.figures.totalAdders
  }

  /** `unit(base / (1 - margin))` */
  function SaleEach(base: int, margin: int): int
    requires margin < 10_000
  {
    Unit(Quotient28(base, 10_000 - margin))
  }

  /** `money(each * quantity)` */
  function Extended(each: int, quantity: int): int {
    HalfUp(each * quantity, 10_000)
  }

  function PricedFreight(row: LineRow): LineRow {
    var extended := Extended(row.cost.ourCost, if row.quantity == 0 then 100 else row.quantity);
    row.(figures := row.figures.(saleEach := row.cost.ourCost, extended := extended))
  }

  /** The row once cost, adders and margin are settled, with `sale` as the unit price. */
  function Finished(row: LineRow, terms: Terms, resource: bool, sale: int): LineRow {
    row.(cost := Costed(row, terms, resource),
         margining := Floored(Margined(row.margining, row.item, terms), row.item, terms),
         figures := row.figures.(totalAdders := Money(AdderTotal(row.adders)), saleEach := sale,
                                 extended := Extended(sale, row.quantity)))
  }

  /** The error `price_line` raises, if any. */
  function PriceError(row: LineRow, terms: Terms): Option<PricingError> {
    var margin := Margined(row.margining, row.item, terms).margin;
    if row.lineGroup == FREIGHT || margin < 10_000 then None else Some(MarginIsNoDivisor(margin))
  }

  /** The row `price_line` saves when it raises no error. */
  function PricedRow(row: LineRow, terms: Terms, resource: bool): LineRow
    requires PriceError(row, terms).None?
  {
    if row.lineGroup == FREIGHT then
      PricedFreight(row)
    else
      var base := Costed(row, terms, resource).ourCost + 100 * Money(AdderTotal(row.adders));
      Finished(row, terms, resource, SaleEach(base, Margined(row.margining, row.item, terms).margin))
  }

  /** `apply_rfq_price` before its `price_line`: the returned price becomes the cost. */
  function WithVendorPrice(row: LineRow, price: Decimal, day: int): LineRow {
    row.(cost := row.cost.(ourCost := Unit(price), source := VENDOR_RFQ, effectiveDate := Some(day), needsReview := false))
  }

  /** `PricedRow` of a line that is not freight, column by column. */
  lemma PricedColumns(row: LineRow, terms: Terms, resource: bool, r: LineRow)
    requires row.lineGroup != FREIGHT && PriceError(row, terms).None?
    requires r == row.(cost := r.cost, margining := r.margining, figures := r.figures)
    requires r.cost == Costed(row, terms, resource)
    requires r.margining == Floored(Margined(row.margining, row.item, terms), row.item, terms)
    requires r.figures.subtotal == row.figures.subtotal
    requires r.figures.totalAdders == Money(AdderTotal(row.adders))
    requires r.figures.saleEach == SaleEach(Base(r), Margined(row.margining, row.item, terms).margin)
    requires r.figures.extended == Extended(r.figures.saleEach, row.quantity)
    ensures r == PricedRow(row, terms, resource)
  {
  }

  /** A line held in memory beside its stored row. */
  class QuoteLine {
    var row: LineRow
    var saved: LineRow

    method ResolveCost(terms: Terms, cache: ReferenceCache, resource: bool) returns (ourCost: int, source: CostSource)
      requires cache.Valid(terms.tables) && cache.asOf == terms.on
      modifies this`row, cache
      ensures cache.Valid(terms.tables)
      ensures row.cost.(ourCost := ourCost, source := source) == Sourced(old(row.cost), row.item, terms, resource)
      ensures row == old(row).(cost := row.cost) && row.cost.effectiveDate == old(row.cost.effectiveDate)
    {
      if !resource && row.cost.ourCost > 0 {
        return row.cost.ourCost, if row.cost.source.Unknown? then MANUAL else row.cost.source;
      }
      if row.item.Some? && row.item.value.listPrice.Some? {
        var list := row.item.value.listPrice.value;
        var found := cache.Multiplier(terms.tables, row.item.value.vendor, None);
        if found.Some? {
          row := row.(cost := row.cost.(listPrice := Some(list)));
          row := row.(cost := row.cost.(multiplier := Some(found.value.value.multiplier)));
          row := row.(cost := row.cost.(vendorMultiplier := found));
          row := row.(cost := row.cost.(sheetVersion := found.value.value.sheetVersion));
          return HalfUp(list * found.value.value.multiplier, 100), MFR_LIST;
        }
        row := row.(cost := row.cost.(listPrice := Some(list)));
        row := row.(cost := row.cost.(needsReview := true));
        return 100 * list, MFR_LIST;
      }
      row := row.(cost := row.cost.(needsReview := true));
      return row.cost.ourCost, MANUAL;
    }

    method MarkStaleness(terms: Terms)
      modifies this`row
      ensures row == old(row).(cost := old(row.cost).(isStale := IsStale(old(row.cost).effectiveDate, terms)))
    {
      if row.cost.effectiveDate.None? {
        row := row.(cost := row.cost.(isStale := false));
      } else {
        row := row.(cost := row.cost.(isStale := row.cost.effectiveDate.value < terms.on - terms.freshnessMonths * 30));
      }
    }

    method SumAdders() returns (total: int)
      ensures total == Money(AdderTotal(row.adders))
    {
      var sum := Decimal(0, 0);
      for i := 0 to |row.adders|
        invariant sum == AdderTotal(row.adders[..i])
      {
        assert row.adders[..i + 1][..i] == row.adders[..i];
        if row.adders[i].Some? {
          sum := Plus(sum, row.adders[i].value);
        }
      }
      assert row.adders[..|row.adders|] == row.adders;
      total := Money(sum);
    }

    method ResolveMargin(terms: Terms, cache: ReferenceCache) returns (margin: int)
      requires cache.Valid(terms.tables) && cache.asOf == terms.on
      modifies this`row, cache
      ensures cache.Valid(terms.tables)
      ensures row == old(row).(margining := row.margining)
      ensures row.margining.(margin := margin) == Margined(old(row.margining), row.item, terms)
    {
      if row.margining.overridden {
        return row.margining.margin;
      }
      if row.item.Some? && row.item.value.productTypeBand != "" {
        var band := cache.MarginBand(terms.tables, row.item.value.productTypeBand);
        if band.Some? {
          row := row.(margining := row.margining.(band := band));
          return band.value.value.target;
        }
      }
      return row.margining.margin;
    }

    method CheckFloor(terms: Terms, cache: ReferenceCache)
      requires cache.Valid(terms.tables) && cache.asOf == terms.on
      modifies this`row, cache
      ensures cache.Valid(terms.tables)
      ensures row == old(row).(margining := Floored(old(row.margining), row.item, terms))
    {
      var band := row.margining.band;
      if band.None? && row.item.Some? {
        band := cache.MarginBand(terms.tables, row.item.value.productTypeBand);
      }
      var floor := if band.Some? then band.value.value.floor else None;
      row := row.(margining := row.margining.(belowFloor := floor.Some? && row.margining.margin < floor.value));
    }

    /** The cost, adder and margin part of `price_line`. */
    method Settle(terms: Terms, cache: ReferenceCache, resource: bool)
      requires cache.Valid(terms.tables) && cache.asOf == terms.on
      modifies this`row, cache
      ensures cache.Valid(terms.tables)
      ensures row == old(row).(cost := row.cost, figures := row.figures, margining := row.margining)
      ensures row.cost == Costed(old(row), terms, resource)
      ensures row.figures == old(row.figures).(totalAdders := Money(AdderTotal(row.adders)))
      ensures row.margining == Margined(old(row.margining), row.item, terms)
    {
      var ourCost, source := ResolveCost(terms, cache, resource);
      row := row.(cost := row.cost.(ourCost := ourCost));
      row := row.(cost := row.cost.(source := source));
      MarkStaleness(terms);
      var total := SumAdders();
      row := row.(figures := row.figures.(totalAdders := total));
      var margin := ResolveMargin(terms, cache);
      row := row.(margining := row.margining.(margin := margin));
    }

    /** The last part of `price_line`: the figures and the floor flag. */
    method Figure(terms: Terms, cache: ReferenceCache)
      requires cache.Valid(terms.tables) && cache.asOf == terms.on
      requires row.margining.margin < 10_000
      modifies this`row, cache
      ensures cache.Valid(terms.tables)
      ensures row == old(row).(figures := row.figures, margining := Floored(old(row.margining), row.item, terms))
      ensures row.figures.totalAdders == old(row.figures.totalAdders) && row.figures.subtotal == old(row.figures.subtotal)
      ensures row.figures.saleEach == SaleEach(row.cost.ourCost + 100 * row.figures.totalAdders, old(row.margining.margin))
      ensures row.figures.extended == Extended(row.figures.saleEach, row.quantity)
    {
      var base := row.cost.ourCost + 100 * row.figures.totalAdders;
      row := row.(figures := row.figures.(saleEach := SaleEach(base, row.margining.margin)));
      row := row.(figures := row.figures.(extended := Extended(row.figures.saleEach, row.quantity)));
      CheckFloor(terms, cache);
    }

    /** `price_line`. On an error the stored row keeps its old value. */
    method PriceLine(terms: Terms, cache: ReferenceCache, resource: bool) returns (error: Option<PricingError>)
      requires cache.Valid(terms.tables) && cache.asOf == terms.on
      modifies this, cache
      ensures cache.Valid(terms.tables)
      ensures error == PriceError(old(row), terms)
      ensures error.None? ==> row == saved == PricedRow(old(row), terms, resource)
      ensures error.Some? ==> saved == old(saved)
    {
      if row.lineGroup == FREIGHT {
        row := row.(figures := row.figures.(saleEach := row.cost.ourCost));
        row := row.(figures := row.figures.(extended := Extended(row.cost.ourCost, if row.quantity == 0 then 100 else row.quantity)));
        saved := row;
        return None;
      }
      Settle(terms, cache, resource);
      if row.margining.margin >= 10_000 {
        return Some(MarginIsNoDivisor(row.margining.margin));
      }
      Figure(terms, cache);
      PricedColumns(old(row), terms, resource, row);
      saved := row;
      return None;
    }

    /** `apply_rfq_price` up to its reassembly of the quote, on `day`. */
    method ApplyRfqPrice(price: Decimal, day: int, terms: Terms, cache: ReferenceCache)
      returns (error: Option<PricingError>)
      requires cache.Valid(terms.tables) && cache.asOf == terms.on
      modifies this, cache
      ensures cache.Valid(terms.tables)
      ensures var entered := WithVendorPrice(old(row), price, day);
        && error == PriceError(entered, terms)
        && (error.None? ==> row == saved == PricedRow(entered, terms, false))
        && (error.Some? ==> saved == old(saved))
    {
      row := row.(cost := row.cost.(ourCost := Unit(price)));
      row := row.(cost := row.cost.(source := VENDOR_RFQ));
      row := row.(cost := row.cost.(effectiveDate := Some(day)));
      row := row.(cost := row.cost.(needsReview := false));
      error := PriceLine(terms, cache, false);
    }
  }
}
