/**
 Threshold calibration (ops/scripts/calibrate_threshold.py): the flag and escape curves of a
 field's samples, and the cheapest threshold that meets an escape target.
 */
module Calibration {
  import opened Prelude
  import opened Sorting

  datatype Sample = Sample(confidence: real, wrong: bool)

  datatype Row = Row(threshold: real, flagRate: real, flagged: nat, escapeRate: real, escaped: nat)

  const STEPS := 50

  /** 0.50 to 0.99 in steps of 0.01. */
  function Threshold(i: nat): real {
    0.50 + 0.01 * i as real
  }

  /** How many samples have a property. */
  function CountWhere(samples: seq<Sample>, p: Sample -> bool): (n: nat)
    ensures n <= |samples|
  {
    if samples == [] then 0
    else CountWhere(samples[..|samples| - 1], p) + if p(samples[|samples| - 1]) then 1 else 0
  }

  function FlaggedAt(samples: seq<Sample>, threshold: real): nat {
    CountWhere(samples, (s: Sample) => s.confidence < threshold)
  }

  function EscapedAt(samples: seq<Sample>, threshold: real): nat {
    CountWhere(samples, (s: Sample) => s.wrong && s.confidence >= threshold)
  }

  function Errors(samples: seq<Sample>): nat {
    CountWhere(samples, (s: Sample) => s.wrong)
  }

  function Rate(part: nat, whole: nat): real {
    if whole == 0 then 0.0 else part as real / whole as real
  }

  function RowAt(samples: seq<Sample>, i: nat): Row {
    var t := Threshold(i);
    Row(t, Rate(FlaggedAt(samples, t), |samples|), FlaggedAt(samples, t),
        Rate(EscapedAt(samples, t), Errors(samples)), EscapedAt(samples, t))
  }

  function Rows(samples: seq<Sample>, n: nat): (r: seq<Row>)
    ensures |r| == n
  {
    if n == 0 then [] else Rows(samples, n - 1) + [RowAt(samples, n - 1)]
  }

  /** `curve` */
  method Curve(samples: seq<Sample>) returns (rows: seq<Row>)
    ensures rows == Rows(samples, STEPS)
  {
    var total, errors := |samples|, Errors(samples);
    rows := [];
    for i := 0 to STEPS
      invariant rows == Rows(samples, i)
    {
      var threshold := Threshold(i);
      var flagged, escaped := 0, 0;
      for j := 0 to |samples|
        invariant flagged == FlaggedAt(samples[..j], threshold) && escaped == EscapedAt(samples[..j], threshold)
      {
        assert samples[..j + 1][..j] == samples[..j];
        if samples[j].confidence < threshold {
          flagged := flagged + 1;
        }
        if samples[j].wrong && samples[j].confidence >= threshold {
          escaped := escaped + 1;
        }
      }
      assert samples[..|samples|] == samples;
      rows := rows + [Row(threshold, Rate(flagged, total), flagged, Rate(escaped, errors), escaped)];
    }
  }

  /** `min(rows, key=flag_rate)`: the first of the lowest rate. */
  function Cheapest(rows: seq<Row>): Row
    requires rows != []
  {
    if |rows| == 1 then
      rows[0]
    else
      var before, last := Cheapest(rows[..|rows| - 1]), rows[|rows| - 1];
      if last.flagRate < before.flagRate then last else before
  }

  /** `recommend` */
  function Recommend(rows: seq<Row>, target: real): Option<Row> {
    var viable := Filter(rows, (row: Row) => row.escapeRate <= target);
    if viable == [] then None else Some(Cheapest(viable))
  }

  // What a row of the curve says.

  /** The places of the samples with a property. */
  ghost function Places(samples: seq<Sample>, p: Sample -> bool): set<int> {
    set i | 0 <= i < |samples| && p(samples[i])
  }

  lemma {:induction false} CountIs(samples: seq<Sample>, p: Sample -> bool)
    ensures CountWhere(samples, p) == |Places(samples, p)|
  {
    if samples == [] {
      assert Places(samples, p) == {};
    } else {
      var rest, n := samples[..|samples| - 1], |samples| - 1;
      CountIs(rest, p);
      OneMorePlace(Places(rest, p), Places(samples, p), n, p(samples[n]));
    }
  }

  predicate IsRate(rate: real, part: nat, whole: nat) {
    if whole == 0 then rate == 0.0 else rate * whole as real == part as real
  }

  lemma RateIs(part: nat, whole: nat)
    ensures IsRate(Rate(part, whole), part, whole)
  {
  }

  /**
   Row `i` is for a threshold of (50 + i) hundredths: how many samples lie below it, as a share of
   all, and how many wrong ones do not, as a share of the wrong ones.
   */
  lemma RowIs(samples: seq<Sample>, i: nat)
    ensures var r := RowAt(samples, i);
      && 100.0 * r.threshold == (50 + i) as real
      && r.flagged == |Places(samples, (s: Sample) => s.confidence < r.threshold)|
      && r.escaped == |Places(samples, (s: Sample) => s.wrong && s.confidence >= r.threshold)|
      && IsRate(r.flagRate, r.flagged, |samples|)
      && IsRate(r.escapeRate, r.escaped, |Places(samples, (s: Sample) => s.wrong)|)
  {
    var t := Threshold(i);
    CountIs(samples, (s: Sample) => s.confidence < t);
    CountIs(samples, (s: Sample) => s.wrong && s.confidence >= t);
    CountIs(samples, (s: Sample) => s.wrong);
    RateIs(FlaggedAt(samples, t), |samples|);
    RateIs(EscapedAt(samples, t), Errors(samples));
  }

  /** The curve has a row for each of the fifty thresholds, in order. */
  lemma {:induction false} RowsAre(samples: seq<Sample>, n: nat, i: nat)
    requires i < n
    ensures Rows(samples, n)[i] == RowAt(samples, i)
  {
    if i < n - 1 {
      RowsAre(samples, n - 1, i);
    }
  }

  // The curves are monotone.

  lemma {:induction false} MoreImpliedMoreCounted(samples: seq<Sample>, p: Sample -> bool, q: Sample -> bool)
    requires forall s :: p(s) ==> q(s)
    ensures CountWhere(samples, p) <= CountWhere(samples, q)
  {
    if samples != [] {
      MoreImpliedMoreCounted(samples[..|samples| - 1], p, q);
    }
  }

  lemma RateIsMonotone(a: nat, b: nat, whole: nat)
    requires a <= b
    ensures Rate(a, whole) <= Rate(b, whole)
  {
  }

  /** A higher threshold never flags fewer and never lets more errors escape, whatever the samples. */
  lemma CurvesAreMonotone(samples: seq<Sample>, i: nat, j: nat)
    requires i <= j
    ensures RowAt(samples, i).flagRate <= RowAt(samples, j).flagRate
    ensures RowAt(samples, i).escapeRate >= RowAt(samples, j).escapeRate
  {
    var low, high := Threshold(i), Threshold(j);
    MoreImpliedMoreCounted(samples, (s: Sample) => s.confidence < low, (s: Sample) => s.confidence < high);
    MoreImpliedMoreCounted(samples, (s: Sample) => s.wrong && s.confidence >= high,
                           (s: Sample) => s.wrong && s.confidence >= low);
    RateIsMonotone(FlaggedAt(samples, low), FlaggedAt(samples, high), |samples|);
    RateIsMonotone(EscapedAt(samples, high), EscapedAt(samples, low), Errors(samples));
  }

  // The recommendation.

  predicate Viable(samples: seq<Sample>, i: nat, target: real) {
    RowAt(samples, i).escapeRate <= target
  }

  function ViableRows(samples: seq<Sample>, n: nat, target: real): seq<Row> {
    Filter(Rows(samples, n), (row: Row) => row.escapeRate <= target)
  }

  lemma OneMoreRow(samples: seq<Sample>, n: nat, target: real)
    ensures ViableRows(samples, n + 1, target)
      == ViableRows(samples, n, target) + if Viable(samples, n, target) then [RowAt(samples, n)] else []
  {
    assert Rows(samples, n + 1)[..n] == Rows(samples, n);
  }

  /** Before the first viable threshold no row is viable; from it on it stays the cheapest. */
  lemma {:induction false} CheapestIsFirstViable(samples: seq<Sample>, n: nat, target: real, k: nat)
    requires Viable(samples, k, target) && forall i :: 0 <= i < k ==> !Viable(samples, i, target)
    ensures n <= k ==> ViableRows(samples, n, target) == []
    ensures n > k ==> ViableRows(samples, n, target) != [] && Cheapest(ViableRows(samples, n, target)) == RowAt(samples, k)
  {
    if n > 0 {
      CheapestIsFirstViable(samples, n - 1, target, k);
      OneMoreRow(samples, n - 1, target);
      if n - 1 > k {
        CurvesAreMonotone(samples, k, n - 1);
        var before := ViableRows(samples, n - 1, target);
        assert (before + [RowAt(samples, n - 1)])[..|before|] == before;
      }
    }
  }

  lemma {:induction false} NoneViable(samples: seq<Sample>, n: nat, target: real)
    requires forall i :: 0 <= i < n ==> !Viable(samples, i, target)
    ensures ViableRows(samples, n, target) == []
  {
    if n > 0 {
      NoneViable(samples, n - 1, target);
      OneMoreRow(samples, n - 1, target);
    }
  }

  lemma {:induction false} FirstViable(samples: seq<Sample>, n: nat, target: real) returns (k: nat)
    requires Viable(samples, n, target)
    ensures k <= n && Viable(samples, k, target) && forall i :: 0 <= i < k ==> !Viable(samples, i, target)
  {
    if i :| 0 <= i < n && Viable(samples, i, target) {
      k := FirstViable(samples, i, target);
    } else {
      k := n;
    }
  }

  /**
   For every sample list and target: nothing is recommended exactly when even the highest swept
   threshold misses the target, and otherwise the lowest threshold that meets it is.
   */
  lemma RecommendsTheLowestViable(samples: seq<Sample>, target: real)
    ensures var r := Recommend(Rows(samples, STEPS), target);
      && (r.None? <==> RowAt(samples, STEPS - 1).escapeRate > target)
      && (r.Some? ==> exists k :: 0 <= k < STEPS && r.value == RowAt(samples, k) && IsFirstViable(samples, k, target))
  {
    if Viable(samples, STEPS - 1, target) {
      var k := FirstViable(samples, STEPS - 1, target);
      CheapestIsFirstViable(samples, STEPS, target, k);
      assert IsFirstViable(samples, k, target);
    } else {
      forall i | 0 <= i < STEPS ensures !Viable(samples, i, target) {
        CurvesAreMonotone(samples, i, STEPS - 1);
      }
      NoneViable(samples, STEPS, target);
    }
  }

  ghost predicate IsFirstViable(samples: seq<Sample>, k: nat, target: real) {
    Viable(samples, k, target) && forall i :: 0 <= i < k ==> !Viable(samples, i, target)
  }
}
