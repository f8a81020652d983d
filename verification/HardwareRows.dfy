/** Which rows a hardware set leaves, which sets are persisted, and what the counters count. */
module HardwareRows {
  import opened Prelude
  import opened Sorting
  import opened HardwareSets

  /** The places, before `n`, of the components with an accepted description. */
  ghost function DescribedBefore(entry: Entry, n: nat): set<int>
    requires n <= |entry.components|
  {
    set i | 0 <= i < n && entry.components[i].description != ""
  }

  lemma OneMoreDescribed(entry: Entry, n: nat)
    requires n < |entry.components|
    ensures |DescribedBefore(entry, n + 1)| == |DescribedBefore(entry, n)| + if entry.components[n].description != "" then 1 else 0
  {
    OneMorePlace(DescribedBefore(entry, n), DescribedBefore(entry, n + 1), n, entry.components[n].description != "");
  }

  /** Component `k` has its row, at the place its earlier described components leave it. */
  ghost predicate HasRow(rows: seq<Row>, entry: Entry, k: nat)
    requires k < |entry.components|
  {
    var c, i := entry.components[k], |DescribedBefore(entry, k)|;
    && i < |rows| && rows[i].group == entry.group && rows[i].index == i && rows[i].resolved
    && rows[i].explicitPart == entry.explicitPart && rows[i].description == c.description && rows[i].flagged == !c.clean
  }

  lemma DescribedStep(entry: Entry, n: nat)
    requires n < |entry.components| && |Described(entry, n)| == |DescribedBefore(entry, n)|
    ensures Described(entry, n) <= Described(entry, n + 1)
    ensures |Described(entry, n + 1)| == |DescribedBefore(entry, n + 1)|
    ensures entry.components[n].description != "" ==> HasRow(Described(entry, n + 1), entry, n)
  {
    OneMoreDescribed(entry, n);
  }

  lemma HasRowStays(before: seq<Row>, rows: seq<Row>, entry: Entry, k: nat)
    requires before <= rows && k < |entry.components| && HasRow(before, entry, k)
    ensures HasRow(rows, entry, k)
  {
  }

  lemma {:induction false} DescribedAre(entry: Entry, n: nat)
    requires n <= |entry.components|
    ensures |Described(entry, n)| == |DescribedBefore(entry, n)|
    ensures forall k :: 0 <= k < n && entry.components[k].description != "" ==> HasRow(Described(entry, n), entry, k)
  {
    if n == 0 {
      assert DescribedBefore(entry, 0) == {};
    } else {
      DescribedAre(entry, n - 1);
      DescribedStep(entry, n - 1);
      var rows, before := Described(entry, n), Described(entry, n - 1);
      forall k | 0 <= k < n - 1 && entry.components[k].description != "" ensures HasRow(rows, entry, k) {
        HasRowStays(before, rows, entry, k);
      }
    }
  }

  /**
   A set that is resolved and has components leaves one row for each with a description, numbered in
   order, flagged unless clean. Any other leaves one flagged, unresolved row.
   */
  lemma SetRowsAre(entry: Entry)
    ensures var rows := SetRows(entry);
      && (!entry.resolved || |entry.components| == 0 ==>
            |rows| == 1 && rows[0] == Row(entry.group, 0, false, entry.explicitPart, "", true))
      && (entry.resolved && |entry.components| > 0 ==>
            && |rows| == |DescribedBefore(entry, |entry.components|)|
            && forall k :: 0 <= k < |entry.components| && entry.components[k].description != "" ==> HasRow(rows, entry, k))
  {
    DescribedAre(entry, |entry.components|);
  }

  lemma AllRowsStep(entries: seq<Entry>, n: nat)
    requires n < |entries|
    ensures AllRows(entries, n + 1) == AllRows(entries, n) + SetRows(entries[n])
  {
  }

  /** The rows of the sets from the `i`-th on. */
  function RowsFrom(entries: seq<Entry>, i: nat): seq<Row>
    requires i <= |entries|
    decreases |entries| - i
  {
    if i == |entries| then [] else SetRows(entries[i]) + RowsFrom(entries, i + 1)
  }

  /** The sets' rows come one after another, in the order of the sets. */
  lemma {:induction false} RowsAreInOrder(entries: seq<Entry>, i: nat)
    requires i <= |entries|
    ensures AllRows(entries, |entries|) == AllRows(entries, i) + RowsFrom(entries, i)
    decreases |entries| - i
  {
    if i < |entries| {
      RowsAreInOrder(entries, i + 1);
      AllRowsStep(entries, i);
      AppendsAgree(AllRows(entries, i), SetRows(entries[i]), RowsFrom(entries, i + 1));
    }
  }

  // Which sets are persisted.

  function Silents(groups: seq<string>): (r: seq<Entry>)
    ensures |r| == |groups|
  {
    seq(|groups|, i requires 0 <= i < |groups| => Entry(groups[i], false, false, []))
  }

  predicate IsNamed(entries: seq<Entry>, group: string) {
    exists i :: 0 <= i < |entries| && entries[i].group == group && |group| > 0
  }

  lemma {:induction false} NamedAre(entries: seq<Entry>, n: nat)
    requires n <= |entries|
    ensures Named(entries, n) == Filter(entries[..n], (e: Entry) => |e.group| > 0)
  {
    if n > 0 {
      NamedAre(entries, n - 1);
      assert entries[..n][..n - 1] == entries[..n - 1];
    }
  }

  lemma {:induction false} ForgottenAre(callouts: seq<string>, entries: seq<Entry>, n: nat)
    requires n <= |callouts|
    ensures Forgotten(callouts, entries, n) == Silents(Filter(callouts[..n], (g: string) => !Mentions(entries, g)))
  {
    if n > 0 {
      ForgottenAre(callouts, entries, n - 1);
      assert callouts[..n][..n - 1] == callouts[..n - 1];
      var before := Filter(callouts[..n - 1], (g: string) => !Mentions(entries, g));
      assert Silents(before + [callouts[n - 1]]) == Silents(before) + [Silent(callouts[n - 1])];
    }
  }

  lemma MentionedIff(entries: seq<Entry>, group: string)
    requires |group| > 0
    ensures Mentions(Filter(entries, (e: Entry) => |e.group| > 0), group) <==> IsNamed(entries, group)
  {
    var named, p := Filter(entries, (e: Entry) => |e.group| > 0), (e: Entry) => |e.group| > 0;
    FilterMembers(entries, p);
    if IsNamed(entries, group) {
      var i :| 0 <= i < |entries| && entries[i].group == group;
      assert entries[i] in entries && entries[i] in named;
      var k :| 0 <= k < |named| && named[k] == entries[i];
    }
    if Mentions(named, group) {
      var k :| 0 <= k < |named| && named[k].group == group;
      assert named[k] in named;
      var i :| 0 <= i < |entries| && entries[i] == named[k];
    }
  }

  /**
   With no callout nothing is persisted. Otherwise the sets the model named are, in its order, and
   then, each as unresolved, the callouts it did not name.
   */
  lemma PersistedAre(callouts: seq<string>, answer: Answer)
    requires forall i :: 0 <= i < |callouts| ==> |callouts[i]| > 0
    ensures var entries := if answer.Answered? then answer.entries else [];
      Persisted(callouts, answer) ==
        if callouts == [] then []
        else Filter(entries, (e: Entry) => |e.group| > 0) + Silents(Filter(callouts, (g: string) => !IsNamed(entries, g)))
  {
    var entries := if answer.Answered? then answer.entries else [];
    NamedAre(entries, |entries|);
    assert entries[..|entries|] == entries && callouts[..|callouts|] == callouts;
    var named := Filter(entries, (e: Entry) => |e.group| > 0);
    ForgottenAre(callouts, named, |callouts|);
    forall i | 0 <= i < |callouts| ensures Mentions(named, callouts[i]) == IsNamed(entries, callouts[i]) {
      MentionedIff(entries, callouts[i]);
    }
    SameFilter(callouts, (g: string) => !Mentions(named, g), (g: string) => !IsNamed(entries, g));
  }

  predicate IsResolvedSet(entry: Entry) {
    entry.resolved && |entry.components| > 0
  }

  ghost function ResolvedBefore(entries: seq<Entry>, n: nat): set<int>
    requires n <= |entries|
  {
    set i | 0 <= i < n && IsResolvedSet(entries[i])
  }

  lemma OneMoreResolved(entries: seq<Entry>, n: nat)
    requires n < |entries|
    ensures |ResolvedBefore(entries, n + 1)| == |ResolvedBefore(entries, n)| + if IsResolvedSet(entries[n]) then 1 else 0
  {
    OneMorePlace(ResolvedBefore(entries, n), ResolvedBefore(entries, n + 1), n, IsResolvedSet(entries[n]));
  }

  lemma OneMoreCounted(entries: seq<Entry>, n: nat)
    requires n < |entries|
    ensures AllCounts(entries, n + 1).resolved == AllCounts(entries, n).resolved + if IsResolvedSet(entries[n]) then 1 else 0
  {
  }

  lemma {:induction false} ResolvedAreCounted(entries: seq<Entry>, n: nat)
    requires n <= |entries|
    ensures AllCounts(entries, n).resolved == |ResolvedBefore(entries, n)|
  {
    if n == 0 {
      assert ResolvedBefore(entries, 0) == {};
    } else {
      ResolvedAreCounted(entries, n - 1);
      OneMoreResolved(entries, n - 1);
      OneMoreCounted(entries, n - 1);
    }
  }

  /** The counters: every set, the resolved ones among them, the others, and the described components. */
  lemma CountersAre(entries: seq<Entry>, n: nat)
    requires n <= |entries|
    ensures var c := AllCounts(entries, n);
      && c.callouts == n && c.resolved == |ResolvedBefore(entries, n)| && c.unresolved == n - c.resolved
      && c.written + c.unresolved == |AllRows(entries, n)|
  {
    CountersAddUp(entries, n);
    ResolvedAreCounted(entries, n);
  }
}
