/** What any sequence of deliveries of one document can cost, with failures anywhere. */
module ExtractionSpend {
  import opened Prelude
  import opened Extraction

  /** The spend and the outcomes of a sequence of deliveries. */
  function DeliveredAll(s: Spend, deliveries: seq<Delivery>): (Spend, seq<Outcome>)
    decreases |deliveries|
  {
    if deliveries == [] then (s, []) else
    var (t, outcome) := Delivered(s, deliveries[0]);
    var (u, outcomes) := DeliveredAll(t, deliveries[1..]);
    (u, [outcome] + outcomes)
  }

  function Failures(outcomes: seq<Outcome>): nat {
    if outcomes == [] then 0 else (if outcomes[0] == Failed then 1 else 0) + Failures(outcomes[1..])
  }

  ghost predicate Distinct(tables: seq<string>) {
    forall i, j :: 0 <= i < j < |tables| ==> tables[i] != tables[j]
  }

  /** `(table, version)` pairs a delivery can pay for. */
  ghost function Questions(d: Delivery): set<(string, string)> {
    set c | c in d.cells :: (c.table, d.version)
  }

  ghost function AllQuestions(deliveries: seq<Delivery>): set<(string, string)> {
    if deliveries == [] then {} else Questions(deliveries[0]) + AllQuestions(deliveries[1..])
  }

  /** What one loop adds: at most one unrecorded run, and that only when it fails. */
  ghost predicate Within(s: Spend, t: Spend, outcome: Outcome) {
    && s.runs <= t.runs
    && |t.runs| - |s.runs| <= |t.answers| - |s.answers| + (if outcome == Failed then 1 else 0)
    && t.invocations - s.invocations <= 2 * (|t.runs| - |s.runs|)
    && s.answers.Keys <= t.answers.Keys
  }

  lemma {:induction false} LoopIsWithin(
      s: Spend, stored: Answers, tables: seq<string>, d: Delivery, records: seq<(string, Records)>)
    requires Distinct(tables) && stored.Keys <= s.answers.Keys
    requires forall t :: t in tables && (t, d.version) in s.answers ==> (t, d.version) in stored
    ensures var (u, outcome) := Loop(s, stored, tables, d, records); Within(s, u, outcome)
    decreases |tables|
  {
    if tables != [] {
      var t := tables[0];
      assert forall x :: x in tables[1..] ==> x in tables && x != t;
      if (t, d.version) in stored {
        LoopIsWithin(s, stored, tables[1..], d, records + [(t, stored[(t, d.version)])]);
      } else if FinalReply(t, d.replies).Some? && d.commits(t) {
        var answer := FinalReply(t, d.replies).value;
        var paid := Paid(s, t, d);
        var next := paid.(answers := paid.answers[(t, d.version) := answer]);
        assert next.answers.Keys == s.answers.Keys + {(t, d.version)};
        assert |next.answers| == |s.answers| + 1;
        LoopIsWithin(next, stored, tables[1..], d, records + [(t, answer)]);
      }
    }
  }

  /** Only unanswered questions of this delivery are paid for, and only its own answers are stored. */
  lemma {:induction false} LoopPaysUnanswered(
      s: Spend, stored: Answers, tables: seq<string>, d: Delivery, records: seq<(string, Records)>)
    requires forall t :: t in tables ==> exists c :: c in d.cells && c.table == t
    ensures var (u, _) := Loop(s, stored, tables, d, records);
      && s.runs <= u.runs
      && (forall i :: |s.runs| <= i < |u.runs| ==> u.runs[i] !in stored && u.runs[i] in Questions(d))
      && u.answers.Keys <= s.answers.Keys + Questions(d)
    decreases |tables|
  {
    if tables != [] {
      var t := tables[0];
      assert t in tables && forall x :: x in tables[1..] ==> x in tables;
      var c :| c in d.cells && c.table == t;
      assert (t, d.version) in Questions(d);
      if (t, d.version) in stored {
        LoopPaysUnanswered(s, stored, tables[1..], d, records + [(t, stored[(t, d.version)])]);
      } else if FinalReply(t, d.replies).Some? && d.commits(t) {
        var answer := FinalReply(t, d.replies).value;
        var paid := Paid(s, t, d);
        LoopPaysUnanswered(paid.(answers := paid.answers[(t, d.version) := answer]), stored, tables[1..], d,
                           records + [(t, answer)]);
      }
    }
  }

  lemma DeliveryIsWithin(s: Spend, d: Delivery)
    ensures var (t, outcome) := Delivered(s, d);
      && Within(s, t, outcome)
      && (forall i :: |s.runs| <= i < |t.runs| ==> t.runs[i] !in s.answers && t.runs[i] in Questions(d))
      && t.answers.Keys <= s.answers.Keys + Questions(d)
  {
    var tables := Extractable(TableOrder(d.cells), d.locate);
    LoopIsWithin(s, s.answers, tables, d, []);
    LoopPaysUnanswered(s, s.answers, tables, d, []);
  }

  /** A delivery over the ceiling is refused with nothing paid and nothing stored, and only then. */
  lemma OverCeilingSpendsNothing(s: Spend, d: Delivery)
    ensures var (t, outcome) := Delivered(s, d);
      && (outcome == Refused <==> |Extractable(TableOrder(d.cells), d.locate)| > d.ceiling)
      && (outcome == Refused ==> t == s)
      && |t.runs| - |s.runs| <= d.ceiling
  {
    LoopIsShort(s, s.answers, Extractable(TableOrder(d.cells), d.locate), d, []);
  }

  lemma {:induction false} LoopIsShort(
      s: Spend, stored: Answers, tables: seq<string>, d: Delivery, records: seq<(string, Records)>)
    ensures var (u, outcome) := Loop(s, stored, tables, d, records);
      outcome != Refused && |u.runs| <= |s.runs| + |tables|
    decreases |tables|
  {
    if tables != [] {
      var t := tables[0];
      if (t, d.version) in stored {
        LoopIsShort(s, stored, tables[1..], d, records + [(t, stored[(t, d.version)])]);
      } else if FinalReply(t, d.replies).Some? && d.commits(t) {
        var answer := FinalReply(t, d.replies).value;
        var paid := Paid(s, t, d);
        LoopIsShort(paid.(answers := paid.answers[(t, d.version) := answer]), stored, tables[1..], d,
                    records + [(t, answer)]);
      }
    }
  }

  /** Once a question is answered no later delivery pays for it. */
  lemma {:induction false} AnsweredIsNeverPaidAgain(s: Spend, deliveries: seq<Delivery>, question: (string, string))
    requires question in s.answers
    ensures var (t, _) := DeliveredAll(s, deliveries);
      s.runs <= t.runs && question !in t.runs[|s.runs|..]
    decreases |deliveries|
  {
    if deliveries != [] {
      DeliveryIsWithin(s, deliveries[0]);
      var t := Delivered(s, deliveries[0]).0;
      AnsweredIsNeverPaidAgain(t, deliveries[1..], question);
      var u := DeliveredAll(t, deliveries[1..]).0;
      assert u.runs[|s.runs|..] == t.runs[|s.runs|..] + u.runs[|t.runs|..];
    }
  }

  lemma {:induction false} DeliveriesAreWithin(s: Spend, deliveries: seq<Delivery>)
    ensures var (t, outcomes) := DeliveredAll(s, deliveries);
      && |t.runs| - |s.runs| <= |t.answers| - |s.answers| + Failures(outcomes)
      && t.invocations - s.invocations <= 2 * (|t.runs| - |s.runs|)
      && t.answers.Keys <= s.answers.Keys + AllQuestions(deliveries)
    decreases |deliveries|
  {
    if deliveries != [] {
      DeliveryIsWithin(s, deliveries[0]);
      var (t, outcome) := Delivered(s, deliveries[0]);
      DeliveriesAreWithin(t, deliveries[1..]);
      var (u, outcomes) := DeliveredAll(t, deliveries[1..]);
      assert ([outcome] + outcomes)[1..] == outcomes;
    }
  }

  /**
   The retry-storm bound: over any deliveries of a fresh document, premium table runs are at most
   the distinct (table, prompt version) questions plus the failed deliveries, and the model is
   invoked at most twice per run.
   */
  lemma SpendIsBounded(deliveries: seq<Delivery>)
    ensures var (t, outcomes) := DeliveredAll(Spend(map[], [], 0), deliveries);
      && |t.runs| <= |AllQuestions(deliveries)| + Failures(outcomes)
      && t.invocations <= 2 * (|AllQuestions(deliveries)| + Failures(outcomes))
  {
    DeliveriesAreWithin(Spend(map[], [], 0), deliveries);
    var t := DeliveredAll(Spend(map[], [], 0), deliveries).0;
    assert |t.answers| == |t.answers.Keys|;
    SubsetSize(t.answers.Keys, AllQuestions(deliveries));
  }

  function TablesOf(records: seq<(string, Records)>): seq<string> {
    seq(|records|, i requires 0 <= i < |records| => records[i].0)
  }

  lemma TablesOfSnoc(records: seq<(string, Records)>, t: string, answer: Records, tables: seq<string>)
    requires tables != [] && tables[0] == t
    ensures TablesOf(records + [(t, answer)]) + tables[1..] == TablesOf(records) + tables
  {
  }

  lemma {:induction false} LoopCoversTables(
      s: Spend, stored: Answers, tables: seq<string>, d: Delivery, records: seq<(string, Records)>)
    requires forall q :: q in stored ==> q in s.answers && stored[q] == s.answers[q]
    requires forall r :: r in records ==> Recorded(s, d, r)
    requires forall t :: t in tables && (t, d.version) in s.answers ==> (t, d.version) in stored
    requires Distinct(tables)
    ensures var (u, outcome) := Loop(s, stored, tables, d, records);
      outcome.Completed? ==>
        && TablesOf(outcome.records) == TablesOf(records) + tables
        && (forall r :: r in outcome.records ==> Recorded(u, d, r))
    decreases |tables|
  {
    if tables != [] {
      var t := tables[0];
      assert forall x :: x in tables[1..] ==> x in tables && x != t;
      if (t, d.version) in stored {
        TablesOfSnoc(records, t, stored[(t, d.version)], tables);
        LoopCoversTables(s, stored, tables[1..], d, records + [(t, stored[(t, d.version)])]);
      } else if FinalReply(t, d.replies).Some? && d.commits(t) {
        var answer := FinalReply(t, d.replies).value;
        var paid := Paid(s, t, d);
        var next := paid.(answers := paid.answers[(t, d.version) := answer]);
        assert forall r :: r in records ==> r.0 != t || Recorded(next, d, r);
        assert t in tables;
        assert forall r :: r in records ==> r.0 != t;
        TablesOfSnoc(records, t, answer, tables);
        LoopCoversTables(next, stored, tables[1..], d, records + [(t, answer)]);
      }
    }
  }

  ghost predicate Recorded(s: Spend, d: Delivery, record: (string, Records)) {
    (record.0, d.version) in s.answers && s.answers[(record.0, d.version)] == record.1
  }

  /** What a completed delivery hands to LINK is every extractable table with its stored answer. */
  lemma CompletedDeliveryCoversEveryTable(s: Spend, d: Delivery)
    ensures var (u, outcome) := Delivered(s, d);
      outcome.Completed? ==>
        && TablesOf(outcome.records) == Extractable(TableOrder(d.cells), d.locate)
        && (forall r :: r in outcome.records ==> Recorded(u, d, r))
  {
    LoopCoversTables(s, s.answers, Extractable(TableOrder(d.cells), d.locate), d, []);
  }
}
