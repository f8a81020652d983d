/**
 Effective-dated reference tables (backend/api/pricing/models.py) and the read-through cache the
 pricing engine puts in front of them (backend/api/quotes/pricing_ops.py).

 `EffectiveOn` is the query the code runs: filter by key, keep rows dated on or before the day,
 newest first, take the first. `EffectiveOnIsNewest` says what it means. The cache is a
 refinement of direct lookups exactly when queries that share a cache key agree
 (`CacheIsTransparentIff`), which covers every read the pricing code makes.
 */
module ReferenceData {
  import opened Prelude
  import opened Texts

  /** A row of a reference table. Dates are day numbers. */
  datatype Dated<+K, +V> = Dated(key: K, effective: int, value: V)

  predicate InForce<K, V>(row: Dated<K, V>, wanted: K -> bool, on: int) {
    wanted(row.key) && row.effective <= on
  }

  /** `filter(key).filter(effective_date__lte=on).order_by("-effective_date").first()` */
  function EffectiveOn<K, V>(rows: seq<Dated<K, V>>, wanted: K -> bool, on: int): Option<Dated<K, V>> {
    if rows == [] then
      None
    else
      var last := rows[|rows| - 1];
      var before := EffectiveOn(rows[..|rows| - 1], wanted, on);
      if InForce(last, wanted, on) && (before.None? || before.value.effective < last.effective)
      then Some(last) else before
  }

  /** `row` is in force and no row in force is dated later. */
  ghost predicate IsNewest<K, V>(rows: seq<Dated<K, V>>, wanted: K -> bool, on: int, row: Dated<K, V>) {
    && row in rows && InForce(row, wanted, on)
    && forall i :: 0 <= i < |rows| && InForce(rows[i], wanted, on) ==> rows[i].effective <= row.effective
  }

  /** The uniqueness constraint on (key, effective date), for the keys a lookup asks for. */
  ghost predicate OneRowPerDate<K(!new), V(!new)>(rows: seq<Dated<K, V>>, wanted: K -> bool) {
    forall a, b :: a in rows && b in rows && wanted(a.key) && wanted(b.key) && a.effective == b.effective ==> a == b
  }

  lemma {:induction false} EffectiveOnIsNewest<K(!new), V(!new)>(
      rows: seq<Dated<K, V>>, wanted: K -> bool, on: int)
    ensures EffectiveOn(rows, wanted, on).None?
      <==> forall i :: 0 <= i < |rows| ==> !InForce(rows[i], wanted, on)
    ensures var r := EffectiveOn(rows, wanted, on); r.Some? ==> IsNewest(rows, wanted, on, r.value)
    ensures OneRowPerDate(rows, wanted) ==>
      forall row :: IsNewest(rows, wanted, on, row) ==> EffectiveOn(rows, wanted, on) == Some(row)
  {
    NewestOfPrefix(rows, wanted, on);
    var r := EffectiveOn(rows, wanted, on);
    if OneRowPerDate(rows, wanted) {
      forall row | IsNewest(rows, wanted, on, row) ensures r == Some(row) {
        var i :| 0 <= i < |rows| && rows[i] == row;
        assert InForce(rows[i], wanted, on);
        var j :| 0 <= j < |rows| && rows[j] == r.value;
        assert InForce(rows[j], wanted, on);
      }
    }
  }

  lemma {:induction false} NewestOfPrefix<K(!new), V(!new)>(rows: seq<Dated<K, V>>, wanted: K -> bool, on: int)
    ensures EffectiveOn(rows, wanted, on).None?
      <==> forall i :: 0 <= i < |rows| ==> !InForce(rows[i], wanted, on)
    ensures var r := EffectiveOn(rows, wanted, on); r.Some? ==> IsNewest(rows, wanted, on, r.value)
  {
    if rows != [] {
      var prefix := rows[..|rows| - 1];
      NewestOfPrefix(prefix, wanted, on);
      assert forall i :: 0 <= i < |prefix| ==> prefix[i] == rows[i];
    }
  }

  /**
   History is reproducible: a lookup as of `on` sees nothing but the rows in force by then, so
   two tables that hold the same ones (whatever else was added, dated later or for other keys,
   and in whatever order) answer alike.
   */
  lemma HistoryIsReproducible<K(!new), V(!new)>(
      before: seq<Dated<K, V>>, after: seq<Dated<K, V>>, wanted: K -> bool, on: int)
    requires OneRowPerDate(before, wanted) && OneRowPerDate(after, wanted)
    requires forall row :: InForce(row, wanted, on) ==> (row in before <==> row in after)
    ensures EffectiveOn(before, wanted, on) == EffectiveOn(after, wanted, on)
  {
    EffectiveOnIsNewest(before, wanted, on);
    EffectiveOnIsNewest(after, wanted, on);
    var r := EffectiveOn(before, wanted, on);
    if r.Some? {
      assert IsNewest(after, wanted, on, r.value) by {
        forall i | 0 <= i < |after| && InForce(after[i], wanted, on)
          ensures after[i].effective <= r.value.effective
        {
          assert after[i] in before;
        }
      }
    } else {
      forall i | 0 <= i < |after| ensures !InForce(after[i], wanted, on) {
        var row := after[i];
        assert InForce(row, wanted, on) ==> row in before;
      }
    }
  }

  /** Rows appended with later dates never change an earlier lookup, unique or not. */
  lemma {:induction false} LaterRowsAreInvisible<K, V>(
      rows: seq<Dated<K, V>>, later: seq<Dated<K, V>>, wanted: K -> bool, on: int)
    requires forall i :: 0 <= i < |later| ==> later[i].effective > on
    ensures EffectiveOn(rows + later, wanted, on) == EffectiveOn(rows, wanted, on)
  {
    if later == [] {
      assert rows + later == rows;
    } else {
      var most := later[..|later| - 1];
      assert (rows + later)[..|rows + later| - 1] == rows + most;
      LaterRowsAreInvisible(rows, most, wanted, on);
    }
  }

  // The three tables. Fractions are counted in ten-thousandths.

  datatype Band = Band(target: int, floor: Option<int>)

  datatype Programme = Programme(multiplier: int, sheetVersion: string)

  type MarginBand = Dated<string, Band>
  type VendorMultiplier = Dated<(string, string), Programme>
  type TaxRate = Dated<string, int>

  datatype Tables = Tables(
    margins: seq<MarginBand>, multipliers: seq<VendorMultiplier>, taxes: seq<TaxRate>)
  {
    function MarginBandOn(band: string, on: int): Option<MarginBand> {
      EffectiveOn(margins, key => key == band, on)
    }

    /** `tier` None means any tier. */
    function MultiplierOn(vendor: string, tier: Option<string>, on: int): Option<VendorMultiplier> {
      EffectiveOn(multipliers, (key: (string, string)) => key.0 == vendor && (tier.Some? ==> key.1 == tier.value), on)
    }

    function TaxRateOn(jurisdiction: Option<string>, on: int): Option<TaxRate> {
      if jurisdiction.None? || jurisdiction.value == "" then
        None
      else
        var code := Upper(Strip(jurisdiction.value));
        if code !in TAXABLE_JURISDICTIONS then None else EffectiveOn(taxes, key => key == code, on)
    }
  }

  const TAXABLE_JURISDICTIONS := ["OH", "KY"]

  /** Whatever rows the tax table holds, only Ohio and Kentucky are ever taxed, at their own rate. */
  lemma OnlyOhioAndKentuckyTax(tables: Tables, jurisdiction: Option<string>, on: int)
    ensures var r := tables.TaxRateOn(jurisdiction, on);
      r.Some? ==> jurisdiction.Some? && r.value.key == Upper(Strip(jurisdiction.value))
                  && r.value.key in ["OH", "KY"] && r.value in tables.taxes && r.value.effective <= on
  {
    if jurisdiction.Some? {
      var code := Upper(Strip(jurisdiction.value));
      EffectiveOnIsNewest(tables.taxes, key => key == code, on);
    }
  }

  /**
   A jurisdiction is taxed exactly when, trimmed and in upper case, it is Ohio's or Kentucky's code
   and a row for that code is in force; the row found is the newest of them.
   */
  lemma TaxRateIff(tables: Tables, jurisdiction: Option<string>, on: int)
    ensures var r := tables.TaxRateOn(jurisdiction, on);
      && (r.Some? <==>
            && jurisdiction.Some? && Upper(Strip(jurisdiction.value)) in ["OH", "KY"]
            && exists row :: TaxInForce(row, tables, Upper(Strip(jurisdiction.value)), on))
      && (r.Some? ==>
            && TaxInForce(r.value, tables, Upper(Strip(jurisdiction.value)), on)
            && forall row :: TaxInForce(row, tables, Upper(Strip(jurisdiction.value)), on) ==> row.effective <= r.value.effective)
  {
    if jurisdiction.Some? {
      NewestTax(tables, Upper(Strip(jurisdiction.value)), on);
    }
  }

  lemma NewestTax(tables: Tables, code: string, on: int)
    ensures var r := EffectiveOn(tables.taxes, key => key == code, on);
      && (r.Some? <==> exists row :: TaxInForce(row, tables, code, on))
      && (r.Some? ==>
            TaxInForce(r.value, tables, code, on)
            && forall row :: TaxInForce(row, tables, code, on) ==> row.effective <= r.value.effective)
  {
    var inForce := (row: TaxRate) => TaxInForce(row, tables, code, on);
    NewestIff(tables.taxes, key => key == code, on, inForce);
    if row: TaxRate :| TaxInForce(row, tables, code, on) {
      assert inForce(row);
    }
  }

  predicate TaxInForce(row: TaxRate, tables: Tables, code: string, on: int) {
    row in tables.taxes && row.key == code && row.effective <= on
  }

  predicate MultiplierRowInForce(row: VendorMultiplier, tables: Tables, vendor: string, tier: Option<string>, on: int) {
    && row in tables.multipliers && row.key.0 == vendor && (tier == None || tier == Some(row.key.1))
    && row.effective <= on
  }

  /** A multiplier is found exactly when the vendor has a row in force, of the tier when one is named. */
  lemma MultiplierIff(tables: Tables, vendor: string, tier: Option<string>, on: int)
    ensures var r := tables.MultiplierOn(vendor, tier, on);
      && (r.Some? <==> exists row :: MultiplierRowInForce(row, tables, vendor, tier, on))
      && (r.Some? ==>
            && MultiplierRowInForce(r.value, tables, vendor, tier, on)
            && forall row :: MultiplierRowInForce(row, tables, vendor, tier, on) ==> row.effective <= r.value.effective)
  {
    var wanted := (key: (string, string)) => key.0 == vendor && (tier.Some? ==> key.1 == tier.value);
    var inForce := (row: VendorMultiplier) => MultiplierRowInForce(row, tables, vendor, tier, on);
    NewestIff(tables.multipliers, wanted, on, inForce);
    if row: VendorMultiplier :| MultiplierRowInForce(row, tables, vendor, tier, on) {
      assert inForce(row);
    }
  }

  /** The newest row in force, when `inForce` describes the rows in force. */
  lemma NewestIff<K(!new), V(!new)>(rows: seq<Dated<K, V>>, wanted: K -> bool, on: int, inForce: Dated<K, V> -> bool)
    requires forall row :: inForce(row) <==> (row in rows && InForce(row, wanted, on))
    ensures var r := EffectiveOn(rows, wanted, on);
      && (r.Some? <==> exists row :: inForce(row))
      && (r.Some? ==> inForce(r.value) && forall row :: inForce(row) ==> row.effective <= r.value.effective)
  {
    EffectiveOnIsNewest(rows, wanted, on);
    if EffectiveOn(rows, wanted, on).Some? {
      assert inForce(EffectiveOn(rows, wanted, on).value);
    }
  }

  /** The tax lookup does not see the case of its argument, so a cache keyed on it may fold case. */
  lemma TaxLookupFoldsCase(tables: Tables, jurisdiction: Option<string>, on: int)
    ensures tables.TaxRateOn(jurisdiction, on) == tables.TaxRateOn(Some(TaxKey(jurisdiction)), on)
  {
    if jurisdiction.Some? {
      StripCommutesWithUpper(jurisdiction.value);
      UpperOfUpper(Strip(jurisdiction.value));
    }
  }

  // The cache, as a function of the queries made so far.

  /** One read through a cache: what is remembered under the key, or else a lookup that is remembered. */
  function Read<K, V>(cache: map<K, V>, key: K, direct: V): (V, map<K, V>) {
    if key in cache then (cache[key], cache) else (direct, cache[key := direct])
  }

  function CacheAfter<Q, K, V>(queries: seq<Q>, keyOf: Q -> K, direct: Q -> V): map<K, V> {
    if queries == [] then
      map[]
    else
      var last := queries[|queries| - 1];
      Read(CacheAfter(queries[..|queries| - 1], keyOf, direct), keyOf(last), direct(last)).1
  }

  /** The answer the `i`-th read of a run gets. */
  function Answer<Q, K(==), V>(queries: seq<Q>, i: nat, keyOf: Q -> K, direct: Q -> V): V
    requires i < |queries|
  {
    Read(CacheAfter(queries[..i], keyOf, direct), keyOf(queries[i]), direct(queries[i])).0
  }

  /** What is cached under a key is the lookup of the first read with that key. */
  lemma {:induction false} CacheHoldsFirstRead<Q, K, V>(queries: seq<Q>, i: nat, keyOf: Q -> K, direct: Q -> V)
    requires i < |queries|
    requires forall j :: 0 <= j < i ==> keyOf(queries[j]) != keyOf(queries[i])
    ensures keyOf(queries[i]) in CacheAfter(queries, keyOf, direct)
    ensures CacheAfter(queries, keyOf, direct)[keyOf(queries[i])] == direct(queries[i])
  {
    var prefix := queries[..|queries| - 1];
    if i < |prefix| {
      CacheHoldsFirstRead(prefix, i, keyOf, direct);
    } else {
      CacheHasNoOtherKey(prefix, keyOf(queries[i]), keyOf, direct);
    }
  }

  lemma {:induction false} CacheHasNoOtherKey<Q, K, V>(queries: seq<Q>, key: K, keyOf: Q -> K, direct: Q -> V)
    requires forall j :: 0 <= j < |queries| ==> keyOf(queries[j]) != key
    ensures key !in CacheAfter(queries, keyOf, direct)
  {
    if queries != [] {
      CacheHasNoOtherKey(queries[..|queries| - 1], key, keyOf, direct);
    }
  }

  lemma {:induction false} FirstReadOf<Q, K>(queries: seq<Q>, i: nat, keyOf: Q -> K) returns (first: nat)
    requires i < |queries|
    ensures first <= i && keyOf(queries[first]) == keyOf(queries[i])
    ensures forall j :: 0 <= j < first ==> keyOf(queries[j]) != keyOf(queries[first])
    decreases i
  {
    if j :| 0 <= j < i && keyOf(queries[j]) == keyOf(queries[i]) {
      first := FirstReadOf(queries, j, keyOf);
    } else {
      first := i;
    }
  }

  /** A read is answered with the lookup of the first read that had its key. */
  lemma AnswerIsFirstRead<Q, K, V>(queries: seq<Q>, i: nat, keyOf: Q -> K, direct: Q -> V) returns (first: nat)
    requires i < |queries|
    ensures first <= i && keyOf(queries[first]) == keyOf(queries[i])
    ensures forall j :: 0 <= j < first ==> keyOf(queries[j]) != keyOf(queries[i])
    ensures Answer(queries, i, keyOf, direct) == direct(queries[first])
  {
    first := FirstReadOf(queries, i, keyOf);
    if first < i {
      CacheHoldsFirstRead(queries[..i], first, keyOf, direct);
    } else {
      CacheHasNoOtherKey(queries[..i], keyOf(queries[i]), keyOf, direct);
    }
  }

  /** Over a run of queries, every answer is the direct lookup iff queries that share a key agree. */
  lemma CacheIsTransparentIff<Q, K, V>(queries: seq<Q>, keyOf: Q -> K, direct: Q -> V)
    ensures (forall i :: 0 <= i < |queries| ==> Answer(queries, i, keyOf, direct) == direct(queries[i]))
      <==> (forall i, j :: 0 <= i < |queries| && 0 <= j < |queries| && keyOf(queries[i]) == keyOf(queries[j])
              ==> direct(queries[i]) == direct(queries[j]))
  {
    if forall i :: 0 <= i < |queries| ==> Answer(queries, i, keyOf, direct) == direct(queries[i]) {
      forall i, j | 0 <= i < |queries| && 0 <= j < |queries| && keyOf(queries[i]) == keyOf(queries[j])
        ensures direct(queries[i]) == direct(queries[j])
      {
        var f := AnswerIsFirstRead(queries, i, keyOf, direct);
        var g := AnswerIsFirstRead(queries, j, keyOf, direct);
      }
    } else {
      var i :| 0 <= i < |queries| && Answer(queries, i, keyOf, direct) != direct(queries[i]);
      var f := AnswerIsFirstRead(queries, i, keyOf, direct);
      assert keyOf(queries[f]) == keyOf(queries[i]) && direct(queries[f]) != direct(queries[i]);
    }
  }

  function TaxKey(jurisdiction: Option<string>): string {
    if jurisdiction.None? then "" else Upper(jurisdiction.value)
  }

  function MultiplierKey(vendor: string, tier: Option<string>): (string, string) {
    (vendor, if tier.None? then "" else tier.value)
  }

  /** Any run of cached tax queries equals direct lookups. */
  lemma TaxReadsAreDirect(tables: Tables, on: int, queries: seq<Option<string>>, i: nat)
    requires i < |queries|
    ensures Answer(queries, i, TaxKey, (j: Option<string>) => tables.TaxRateOn(j, on)) == tables.TaxRateOn(queries[i], on)
  {
    var direct := (j: Option<string>) => tables.TaxRateOn(j, on);
    var f := AnswerIsFirstRead(queries, i, TaxKey, direct);
    TaxLookupFoldsCase(tables, queries[i], on);
    TaxLookupFoldsCase(tables, queries[f], on);
  }

  /**
   Multiplier queries name a vendor and perhaps a tier. Every answer of a run is the direct lookup
   iff no vendor is read both without a tier and with the empty tier, unless the two agree.
   */
  lemma MultiplierReadsAreDirectIff(tables: Tables, on: int, queries: seq<(string, Option<string>)>)
    ensures (forall i :: 0 <= i < |queries| ==>
        Answer(queries, i, (q: (string, Option<string>)) => MultiplierKey(q.0, q.1),
               (q: (string, Option<string>)) => tables.MultiplierOn(q.0, q.1, on))
        == tables.MultiplierOn(queries[i].0, queries[i].1, on))
      <==> (forall i, j :: 0 <= i < |queries| && 0 <= j < |queries| && queries[i].0 == queries[j].0
              && queries[i].1 == None && queries[j].1 == Some("")
              ==> tables.MultiplierOn(queries[i].0, None, on) == tables.MultiplierOn(queries[i].0, Some(""), on))
  {
    var keyOf := (q: (string, Option<string>)) => MultiplierKey(q.0, q.1);
    var direct := (q: (string, Option<string>)) => tables.MultiplierOn(q.0, q.1, on);
    CacheIsTransparentIff(queries, keyOf, direct);
    if forall i, j :: 0 <= i < |queries| && 0 <= j < |queries| && queries[i].0 == queries[j].0
         && queries[i].1 == None && queries[j].1 == Some("")
         ==> tables.MultiplierOn(queries[i].0, None, on) == tables.MultiplierOn(queries[i].0, Some(""), on)
    {
      forall i, j | 0 <= i < |queries| && 0 <= j < |queries| && keyOf(queries[i]) == keyOf(queries[j])
        ensures direct(queries[i]) == direct(queries[j])
      {
        SameKeyReads(queries[i], queries[j]);
      }
    }
  }

  lemma SameKeyReads(a: (string, Option<string>), b: (string, Option<string>))
    requires MultiplierKey(a.0, a.1) == MultiplierKey(b.0, b.1)
    ensures a.0 == b.0
    ensures a == b || (a.1 == None && b.1 == Some("")) || (a.1 == Some("") && b.1 == None)
  {
  }

  /**
   A vendor with an older multiplier for the empty tier and a newer one for another: read first
   without a tier, the cache answers the empty tier with the newer one. Pricing always reads
   without a tier, so it never makes this pair of reads.
   */
  lemma MultiplierReadsCanDiffer(older: VendorMultiplier, newer: VendorMultiplier)
    requires older == Dated(("V", ""), 1, Programme(5_000, "old")) && newer == Dated(("V", "GOLD"), 2, Programme(6_000, "new"))
    ensures var tables, queries := Tables([], [older, newer], []), [("V", None), ("V", Some(""))];
      && tables.MultiplierOn("V", Some(""), 3) == Some(older)
      && Answer(queries, 1, (q: (string, Option<string>)) => MultiplierKey(q.0, q.1),
                (q: (string, Option<string>)) => tables.MultiplierOn(q.0, q.1, 3)) == Some(newer)
  {
    var tables, queries := Tables([], [older, newer], []), [("V", None), ("V", Some(""))];
    MultiplierOfTwo(older, newer, "V", None, 3);
    MultiplierOfTwo(older, newer, "V", Some(""), 3);
    var keyOf := (q: (string, Option<string>)) => MultiplierKey(q.0, q.1);
    var direct := (q: (string, Option<string>)) => tables.MultiplierOn(q.0, q.1, 3);
    var first := AnswerIsFirstRead(queries, 1, keyOf, direct);
  }

  lemma MultiplierOfTwo(a: VendorMultiplier, b: VendorMultiplier, vendor: string, tier: Option<string>, on: int)
    requires a.key.0 == b.key.0 == vendor && a.effective < b.effective <= on
    ensures Tables([], [a, b], []).MultiplierOn(vendor, tier, on) ==
      if tier.None? || b.key.1 == tier.value then Some(b) else if a.key.1 == tier.value then Some(a) else None
  {
    assert [a, b][..1] == [a] && [a][..0] == [];
    var wanted := (key: (string, string)) => key.0 == vendor && (tier.Some? ==> key.1 == tier.value);
    assert EffectiveOn([a], wanted, on) == if wanted(a.key) then Some(a) else None;
  }

  /** The per-operation cache. The pricing code queries multipliers without a tier. */
  class ReferenceCache {
    const asOf: int
    var margins: map<string, Option<MarginBand>>
    var multipliers: map<(string, string), Option<VendorMultiplier>>
    var taxes: map<string, Option<TaxRate>>

    constructor (asOf: int)
      ensures this.asOf == asOf
      ensures margins == map[] && multipliers == map[] && taxes == map[]
    {
      this.asOf := asOf;
      margins, multipliers, taxes := map[], map[], map[];
    }

    /** Everything remembered is what the tables say, as a lookup without a tier for multipliers. */
    ghost predicate Valid(tables: Tables)
      reads this
    {
      && (forall k :: k in margins ==> margins[k] == tables.MarginBandOn(k, asOf))
      && (forall v, t :: (v, t) in multipliers ==>
            multipliers[(v, t)] == tables.MultiplierOn(v, if t == "" then None else Some(t), asOf))
      && (forall k :: k in taxes ==> taxes[k] == tables.TaxRateOn(Some(k), asOf))
    }

    method MarginBand(tables: Tables, band: string) returns (r: Option<MarginBand>)
      modifies this`margins
      ensures (r, margins) == Read(old(margins), band, tables.MarginBandOn(band, asOf))
      ensures old(Valid(tables)) ==> Valid(tables) && r == tables.MarginBandOn(band, asOf)
    {
      if band !in margins {
        margins := margins[band := tables.MarginBandOn(band, asOf)];
      }
      r := margins[band];
    }

    method Multiplier(tables: Tables, vendor: string, tier: Option<string>) returns (r: Option<VendorMultiplier>)
      modifies this`multipliers
      ensures (r, multipliers)
        == Read(old(multipliers), MultiplierKey(vendor, tier), tables.MultiplierOn(vendor, tier, asOf))
      ensures old(Valid(tables)) && tier != Some("") ==> Valid(tables) && r == tables.MultiplierOn(vendor, tier, asOf)
    {
      var key := (vendor, if tier.None? then "" else tier.value);
      if key !in multipliers {
        multipliers := multipliers[key := tables.MultiplierOn(vendor, tier, asOf)];
      }
      r := multipliers[key];
    }

    method TaxRate(tables: Tables, jurisdiction: Option<string>) returns (r: Option<TaxRate>)
      modifies this`taxes
      ensures (r, taxes) == Read(old(taxes), TaxKey(jurisdiction), tables.TaxRateOn(jurisdiction, asOf))
      ensures old(Valid(tables)) ==> Valid(tables) && r == tables.TaxRateOn(jurisdiction, asOf)
    {
      TaxLookupFoldsCase(tables, jurisdiction, asOf);
      var key := if jurisdiction.None? then "" else Upper(jurisdiction.value);
      if key !in taxes {
        taxes := taxes[key := tables.TaxRateOn(jurisdiction, asOf)];
      }
      r := taxes[key];
    }
  }
}
