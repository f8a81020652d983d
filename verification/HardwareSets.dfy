/**
 Resolving hardware-set callouts to rows (`_resolve_hardware`, run_extraction.py, and
 `persist_hardware_set`, link.py). Silence must not be an answer: every callout of the door
 schedule is to end with at least one row, resolved or flagged.
 */
module HardwareSets {
  import opened Prelude

  /** A linked component: its accepted description (empty if there is none), and whether all is clean. */
  datatype Component = Component(description: string, clean: bool)

  /** One set of the model's answer. */
  datatype Entry = Entry(group: string, resolved: bool, explicitPart: bool, components: seq<Component>)

  datatype Row = Row(group: string, index: nat, resolved: bool, explicitPart: bool, description: string, flagged: bool)

  /** What the call comes to, before any row is written. */
  datatype Answer = NoDefinitions | Answered(entries: seq<Entry>)

  datatype Counts = Counts(callouts: nat, resolved: nat, unresolved: nat, written: nat)

  function UnresolvedRow(group: string, explicitPart: bool): Row {
    Row(group, 0, false, explicitPart, "", true)
  }

  /** The rows of the components that have a description, numbered from 0. */
  function Described(entry: Entry, n: nat): seq<Row>
    requires n <= |entry.components|
  {
    if n == 0 then
      []
    else
      var before, c := Described(entry, n - 1), entry.components[n - 1];
      if c.description == "" then before
      else before + [Row(entry.group, |before|, true, entry.explicitPart, c.description, !c.clean)]
  }

  predicate IsEmpty(entry: Entry) {
    !entry.resolved || entry.components == []
  }

  /** What `persist_hardware_set` writes. */
  function SetRows(entry: Entry): seq<Row> {
    if IsEmpty(entry) then [UnresolvedRow(entry.group, entry.explicitPart)]
    else Described(entry, |entry.components|)
  }

  function SetCounts(entry: Entry): Counts {
    if IsEmpty(entry) then Counts(1, 0, 1, 0) else Counts(1, 1, 0, |Described(entry, |entry.components|)|)
  }

  function Plus(a: Counts, b: Counts): Counts {
    Counts(a.callouts + b.callouts, a.resolved + b.resolved, a.unresolved + b.unresolved, a.written + b.written)
  }

  function AllRows(entries: seq<Entry>, n: nat): seq<Row>
    requires n <= |entries|
  {
    if n == 0 then [] else AllRows(entries, n - 1) + SetRows(entries[n - 1])
  }

  function AllCounts(entries: seq<Entry>, n: nat): Counts
    requires n <= |entries|
  {
    if n == 0 then Counts(0, 0, 0, 0) else Plus(AllCounts(entries, n - 1), SetCounts(entries[n - 1]))
  }

  /** Entries without a group are passed over. */
  function Named(entries: seq<Entry>, n: nat): seq<Entry>
    requires n <= |entries|
  {
    if n == 0 then []
    else if entries[n - 1].group == "" then Named(entries, n - 1)
    else Named(entries, n - 1) + [entries[n - 1]]
  }

  /** A callout that is recorded as unresolved because nothing answered it. */
  function Silent(group: string): Entry {
    Entry(group, false, false, [])
  }

  /** The callouts, in order, that no named entry mentions. */
  function Forgotten(callouts: seq<string>, entries: seq<Entry>, n: nat): seq<Entry>
    requires n <= |callouts|
  {
    if n == 0 then []
    else if Mentions(entries, callouts[n - 1]) then Forgotten(callouts, entries, n - 1)
    else Forgotten(callouts, entries, n - 1) + [Silent(callouts[n - 1])]
  }

  predicate Mentions(entries: seq<Entry>, group: string) {
    exists i :: 0 <= i < |entries| && entries[i].group == group
  }

  /** The sets that are persisted, in order. `callouts` are the distinct callouts, sorted. */
  function Persisted(callouts: seq<string>, answer: Answer): seq<Entry> {
    if callouts == [] then
      []
    else
      var named := if answer.NoDefinitions? then [] else Named(answer.entries, |answer.entries|);
      named + Forgotten(callouts, named, |callouts|)
  }

  class HardwareTable {
    var rows: seq<Row>
    var counts: Counts

    /** `persist_hardware_set` */
    method Persist(entry: Entry)
      modifies this
      ensures rows == old(rows) + SetRows(entry) && counts == Plus(old(counts), SetCounts(entry))
    {
      counts := counts.(callouts := counts.callouts + 1);
      if !entry.resolved || entry.components == [] {
        counts := counts.(unresolved := counts.unresolved + 1);
        rows := rows + [UnresolvedRow(entry.group, entry.explicitPart)];
        return;
      }
      counts := counts.(resolved := counts.resolved + 1);
      var index := 0;
      for n := 0 to |entry.components|
        invariant rows == old(rows) + Described(entry, n) && index == |Described(entry, n)|
        invariant counts == Plus(old(counts), Counts(1, 1, 0, index))
      {
        var c := entry.components[n];
        if c.description != "" {
          rows := rows + [Row(entry.group, index, true, entry.explicitPart, c.description, !c.clean)];
          index := index + 1;
          counts := counts.(written := counts.written + 1);
        }
      }
    }

    /** The rows and counters so far are those of `sets`, added to what was there. */
    ghost predicate HasPersisted(sets: seq<Entry>, before: seq<Row>, counted: Counts)
      reads this
    {
      rows == before + AllRows(sets, |sets|) && counts == Plus(counted, AllCounts(sets, |sets|))
    }

    /** Persist one more set. */
    method PersistNext(entry: Entry, ghost sets: seq<Entry>, ghost before: seq<Row>, ghost counted: Counts)
      requires HasPersisted(sets, before, counted)
      modifies this
      ensures HasPersisted(sets + [entry], before, counted)
    {
      OneMoreSet(sets, entry, sets + [entry]);
      Persist(entry);
      AppendsAgree(before, AllRows(sets, |sets|), SetRows(entry));
    }

    /** Record every callout that nothing answered. */
    method PersistForgotten(callouts: seq<string>, seen: set<string>, ghost named: seq<Entry>,
                            ghost before: seq<Row>, ghost counted: Counts)
      requires HasPersisted(named, before, counted) && forall g :: g in seen <==> Mentions(named, g)
      modifies this
      ensures HasPersisted(named + Forgotten(callouts, named, |callouts|), before, counted)
    {
      ghost var sets := named;
      for n := 0 to |callouts|
        invariant HasPersisted(sets, before, counted) && sets == named + Forgotten(callouts, named, n)
      {
        var callout := callouts[n];
        if callout !in seen {
          PersistNext(Silent(callout), sets, before, counted);
          sets := sets + [Silent(callout)];
        }
      }
    }

    /** `_resolve_hardware`, given the answer of its one model call. */
    method Resolve(callouts: seq<string>, answer: Answer)
      modifies this
      ensures HasPersisted(Persisted(callouts, answer), old(rows), old(counts))
    {
      ghost var before, counted := rows, counts;
      if callouts == [] {
        return;
      }
      var seen: set<string> := {};
      ghost var named: seq<Entry> := [];
      if answer.Answered? {
        for n := 0 to |answer.entries|
          invariant named == Named(answer.entries, n) && HasPersisted(named, before, counted)
          invariant forall g :: g in seen <==> Mentions(named, g)
        {
          var entry := answer.entries[n];
          if entry.group != "" {
            seen := seen + {entry.group};
            PersistNext(entry, named, before, counted);
            MentionsOneMore(named, entry);
            named := named + [entry];
          }
        }
      }
      PersistForgotten(callouts, seen, named, before, counted);
    }
  }

  lemma AppendsAgree(a: seq<Row>, b: seq<Row>, c: seq<Row>)
    ensures (a + b) + c == a + (b + c)
  {
  }

  lemma MentionsOneMore(entries: seq<Entry>, entry: Entry)
    ensures forall g :: Mentions(entries + [entry], g) <==> Mentions(entries, g) || g == entry.group
  {
    forall g ensures Mentions(entries + [entry], g) <==> Mentions(entries, g) || g == entry.group {
      assert (entries + [entry])[|entries|] == entry;
      if i :| 0 <= i < |entries| && entries[i].group == g {
        assert (entries + [entry])[i].group == g;
      }
    }
  }

  lemma {:induction false} RowsOfPrefix(entries: seq<Entry>, more: seq<Entry>, n: nat)
    requires n <= |entries|
    ensures AllRows(entries + more, n) == AllRows(entries, n)
    ensures AllCounts(entries + more, n) == AllCounts(entries, n)
  {
    if n > 0 {
      RowsOfPrefix(entries, more, n - 1);
    }
  }

  lemma OneMoreSet(entries: seq<Entry>, entry: Entry, more: seq<Entry>)
    requires more == entries + [entry]
    ensures AllRows(more, |more|) == AllRows(entries, |entries|) + SetRows(entry)
    ensures AllCounts(more, |more|) == Plus(AllCounts(entries, |entries|), SetCounts(entry))
  {
    RowsOfPrefix(entries, [entry], |entries|);
    LastSet(more);
  }

  lemma LastSet(entries: seq<Entry>)
    requires entries != []
    ensures var n := |entries|;
      && AllRows(entries, n) == AllRows(entries, n - 1) + SetRows(entries[n - 1])
      && AllCounts(entries, n) == Plus(AllCounts(entries, n - 1), SetCounts(entries[n - 1]))
  {
  }

  // What ends up on record.

  ghost predicate OnRecord(rows: seq<Row>, group: string) {
    exists i :: 0 <= i < |rows| && rows[i].group == group
  }

  /** The set leaves a row: it is recorded as unresolved, or a component has a description. */
  predicate LeavesARow(entry: Entry) {
    IsEmpty(entry) || exists i :: 0 <= i < |entry.components| && entry.components[i].description != ""
  }

  lemma {:induction false} DescribedRows(entry: Entry, n: nat)
    requires n <= |entry.components|
    ensures var r := Described(entry, n);
      && (forall i :: 0 <= i < |r| ==>
            r[i].group == entry.group && r[i].index == i && r[i].resolved && r[i].description != "")
      && (r != [] <==> exists i :: 0 <= i < n && entry.components[i].description != "")
  {
    if n > 0 {
      DescribedRows(entry, n - 1);
    }
  }

  lemma SetIsOnRecordIff(entry: Entry, group: string)
    ensures OnRecord(SetRows(entry), group) <==> entry.group == group && LeavesARow(entry)
  {
    DescribedRows(entry, |entry.components|);
    var rows := SetRows(entry);
    if rows != [] {
      assert rows[0].group == entry.group;
    }
  }

  lemma {:induction false} GroupIsOnRecordIff(entries: seq<Entry>, n: nat, group: string)
    requires n <= |entries|
    ensures OnRecord(AllRows(entries, n), group)
      <==> exists i :: 0 <= i < n && entries[i].group == group && LeavesARow(entries[i])
  {
    if n > 0 {
      GroupIsOnRecordIff(entries, n - 1, group);
      SetIsOnRecordIff(entries[n - 1], group);
      OnRecordInParts(AllRows(entries, n - 1), SetRows(entries[n - 1]), group);
    }
  }

  lemma OnRecordInParts(a: seq<Row>, b: seq<Row>, group: string)
    ensures OnRecord(a + b, group) <==> OnRecord(a, group) || OnRecord(b, group)
  {
    if OnRecord(b, group) {
      var i :| 0 <= i < |b| && b[i].group == group;
      assert (a + b)[|a| + i].group == group;
    }
    if OnRecord(a, group) {
      var i :| 0 <= i < |a| && a[i].group == group;
      assert (a + b)[i].group == group;
    }
  }

  /** The forgotten callouts are those no named set mentions. */
  lemma {:induction false} ForgottenAre(callouts: seq<string>, entries: seq<Entry>, n: nat)
    requires n <= |callouts|
    ensures AllForgotten(entries, Forgotten(callouts, entries, n))
  {
    if n > 0 {
      ForgottenAre(callouts, entries, n - 1);
    }
  }

  ghost predicate AllForgotten(entries: seq<Entry>, sets: seq<Entry>) {
    forall i :: 0 <= i < |sets| ==> sets[i] == Silent(sets[i].group) && !Mentions(entries, sets[i].group)
  }

  lemma {:induction false} ForgottenIsThere(callouts: seq<string>, entries: seq<Entry>, n: nat, k: nat) returns (i: nat)
    requires k < n <= |callouts| && !Mentions(entries, callouts[k])
    ensures i < |Forgotten(callouts, entries, n)| && Forgotten(callouts, entries, n)[i] == Silent(callouts[k])
  {
    if k == n - 1 {
      i := |Forgotten(callouts, entries, n - 1)|;
    } else {
      i := ForgottenIsThere(callouts, entries, n - 1, k);
      assert Forgotten(callouts, entries, n)[i] == Forgotten(callouts, entries, n - 1)[i];
    }
  }

  /** The model named the callout, but with nothing that leaves a row. */
  ghost predicate Dropped(answer: Answer, group: string) {
    && answer.Answered?
    && var named := Named(answer.entries, |answer.entries|);
    Mentions(named, group) && !SomeLeavesARow(named, group)
  }

  /**
   A callout of the door schedule ends on record exactly when the model did not answer it only
   with sets said to be resolved whose components all lack an accepted description.
   */
  lemma CalloutIsOnRecordIff(callouts: seq<string>, answer: Answer, group: string)
    requires group in callouts
    ensures var sets := Persisted(callouts, answer);
      OnRecord(AllRows(sets, |sets|), group) <==> !Dropped(answer, group)
  {
    var named := if answer.NoDefinitions? then [] else Named(answer.entries, |answer.entries|);
    var forgotten := Forgotten(callouts, named, |callouts|);
    var sets := Persisted(callouts, answer);
    assert sets == named + forgotten;
    if Mentions(named, group) {
      ForgottenAre(callouts, named, |callouts|);
      MentionedIsOnRecordIff(named, forgotten, group);
    } else {
      var k :| 0 <= k < |callouts| && callouts[k] == group;
      var i := ForgottenIsThere(callouts, named, |callouts|, k);
      SilentIsOnRecord(sets, |named| + i, group);
    }
  }

  lemma MentionedIsOnRecordIff(named: seq<Entry>, forgotten: seq<Entry>, group: string)
    requires Mentions(named, group) && AllForgotten(named, forgotten)
    ensures var sets := named + forgotten;
      OnRecord(AllRows(sets, |sets|), group) <==> SomeLeavesARow(named, group)
  {
    var sets := named + forgotten;
    GroupIsOnRecordIff(sets, |sets|, group);
    NotAmongForgotten(named, forgotten, group);
    if i :| 0 <= i < |named| && named[i].group == group && LeavesARow(named[i]) {
      assert sets[i] == named[i];
    }
  }

  lemma SilentIsOnRecord(sets: seq<Entry>, i: nat, group: string)
    requires i < |sets| && sets[i] == Silent(group)
    ensures OnRecord(AllRows(sets, |sets|), group)
  {
    GroupIsOnRecordIff(sets, |sets|, group);
    assert LeavesARow(sets[i]);
  }

  ghost predicate SomeLeavesARow(named: seq<Entry>, group: string) {
    exists i :: 0 <= i < |named| && named[i].group == group && LeavesARow(named[i])
  }

  lemma NotAmongForgotten(named: seq<Entry>, forgotten: seq<Entry>, group: string)
    requires Mentions(named, group)
    requires AllForgotten(named, forgotten)
    ensures var sets := named + forgotten;
      forall i :: 0 <= i < |sets| && sets[i].group == group ==> i < |named| && sets[i] == named[i]
  {
    assert forall i :: 0 <= i < |forgotten| ==> forgotten[i].group != group;
  }

  /** A set answered as resolved, all of whose components lack a description, vanishes. */
  lemma ResolvedSetCanVanish(group: string, clean: bool)
    requires group != ""
    ensures var answer := Answered([Entry(group, true, false, [Component("", clean)])]);
      var sets := Persisted([group], answer);
      !OnRecord(AllRows(sets, |sets|), group)
  {
    var entry := Entry(group, true, false, [Component("", clean)]);
    var answer := Answered([entry]);
    assert Named(answer.entries, 1) == [entry];
    assert [entry][0].group == group;
    CalloutIsOnRecordIff([group], answer, group);
  }

  /** The counters add up: every set is counted once, and every component row is counted. */
  lemma {:induction false} CountersAddUp(entries: seq<Entry>, n: nat)
    requires n <= |entries|
    ensures var c := AllCounts(entries, n);
      && c.callouts == n == c.resolved + c.unresolved
      && c.written + c.unresolved == |AllRows(entries, n)|
  {
    if n > 0 {
      CountersAddUp(entries, n - 1);
    }
  }
}
