/** What one delivery of a document extracts, pays and stores, table by table. */
module ExtractedTables {
  import opened Prelude
  import opened Extraction
  import opened ExtractionSpend

  // ------------------------------------------------------------------------
  // Which tables are handed on
  // ------------------------------------------------------------------------

  /** The locate pass answered, and called the table a hardware schedule or something else again. */
  predicate RuledOut(locate: Locate, table: string) {
    && locate.Located? && table in locate.classes
    && (locate.classes[table] == HARDWARE_SCHEDULE || locate.classes[table] == OTHER_TABLE)
  }

  predicate HasCell(cells: seq<Cell>, table: string) {
    exists i :: 0 <= i < |cells| && cells[i].table == table
  }

  /** The table's first cell is the `k`-th. */
  ghost predicate FirstCell(cells: seq<Cell>, table: string, k: nat) {
    k < |cells| && cells[k].table == table && forall i :: 0 <= i < k ==> cells[i].table != table
  }

  function Wanted(d: Delivery): seq<string> {
    Extractable(TableOrder(d.cells), d.locate)
  }

  lemma InOrderIff(cells: seq<Cell>, table: string)
    ensures table in TableOrder(cells) <==> HasCell(cells, table)
  {
    if HasCell(cells, table) {
      var i :| 0 <= i < |cells| && cells[i].table == table;
      assert cells[i] in cells;
    }
  }

  lemma {:induction false} FirstCellsAscend(cells: seq<Cell>, i: nat, j: nat, k: nat, l: nat)
    requires i < j < |TableOrder(cells)|
    requires FirstCell(cells, TableOrder(cells)[i], k) && FirstCell(cells, TableOrder(cells)[j], l)
    ensures k < l
    decreases |cells|
  {
    var before, n := cells[..|cells| - 1], |cells| - 1;
    var first := TableOrder(cells)[i];
    assert first == TableOrder(before)[i];
    InOrderIff(before, first);
    var m :| 0 <= m < |before| && before[m].table == first;
    assert k <= m;
    if l < n {
      var second := TableOrder(cells)[j];
      assert before[l].table == second;
      InOrderIff(before, second);
      assert j < |TableOrder(before)|;
      FirstCellsAscend(before, i, j, k, l);
    }
  }

  lemma {:induction false} ExtractableKeepsOrder(order: seq<string>, locate: Locate, i: nat, j: nat) returns (k: nat, l: nat)
    requires i < j < |Extractable(order, locate)|
    ensures k < l < |order| && order[k] == Extractable(order, locate)[i] && order[l] == Extractable(order, locate)[j]
    decreases |order|
  {
    var rest, n := order[..|order| - 1], |order| - 1;
    if j < |Extractable(rest, locate)| {
      k, l := ExtractableKeepsOrder(rest, locate, i, j);
    } else {
      var t := Extractable(rest, locate)[i];
      assert t in Extractable(rest, locate);
      k :| 0 <= k < |rest| && rest[k] == t;
      l := n;
    }
  }

  /** Every table with a cell is wanted unless it is ruled out, once, in the order in which tables first appear. */
  lemma WantedAre(d: Delivery, table: string, i: nat, j: nat, k: nat, l: nat)
    ensures table in Wanted(d) <==> HasCell(d.cells, table) && !RuledOut(d.locate, table)
    ensures i < j < |Wanted(d)| ==> Wanted(d)[i] != Wanted(d)[j]
    ensures i < j < |Wanted(d)| && FirstCell(d.cells, Wanted(d)[i], k) && FirstCell(d.cells, Wanted(d)[j], l) ==> k < l
  {
    InOrderIff(d.cells, table);
    if i < j < |Wanted(d)| && FirstCell(d.cells, Wanted(d)[i], k) && FirstCell(d.cells, Wanted(d)[j], l) {
      var a, b := ExtractableKeepsOrder(TableOrder(d.cells), d.locate, i, j);
      FirstCellsAscend(d.cells, a, b, k, l);
    }
  }

  /** A completed delivery hands on exactly the tables with a cell that the locate pass did not rule out. */
  lemma CompletedHandsOn(s: Spend, d: Delivery, table: string)
    ensures var outcome := Delivered(s, d).1;
      outcome.Completed? ==>
        (table in TablesOf(outcome.records) <==> HasCell(d.cells, table) && !RuledOut(d.locate, table))
  {
    CompletedDeliveryCoversEveryTable(s, d);
    WantedAre(d, table, 0, 0, 0, 0);
  }

  // ------------------------------------------------------------------------
  // What the model is asked
  // ------------------------------------------------------------------------

  /** The model answers the table: at once, or on the second attempt after prose. */
  predicate Gives(d: Delivery, table: string, answer: Records) {
    || d.replies(table, 1) == Answer(answer)
    || (d.replies(table, 1) == Prose && d.replies(table, 2) == Answer(answer))
  }

  lemma ReplyIs(d: Delivery, table: string)
    ensures forall answer :: FinalReply(table, d.replies) == Some(answer) <==> Gives(d, table, answer)
    ensures Attempts(table, d.replies) == if d.replies(table, 1).Prose? then 2 else 1
  {
  }

  /** The table's answer is on record, or the model gives one and it is committed. */
  ghost predicate Obtains(stored: Answers, d: Delivery, table: string) {
    (table, d.version) in stored || (d.commits(table) && exists answer :: Gives(d, table, answer))
  }

  lemma ObtainsIff(stored: Answers, d: Delivery, table: string)
    ensures Obtains(stored, d, table)
      <==> (table, d.version) in stored || (FinalReply(table, d.replies).Some? && d.commits(table))
  {
    ReplyIs(d, table);
    if FinalReply(table, d.replies).Some? {
      assert Gives(d, table, FinalReply(table, d.replies).value);
    }
  }

  /** The state after a table whose answer is obtained. */
  function Obtained(s: Spend, stored: Answers, d: Delivery, table: string): Spend {
    if (table, d.version) in stored || FinalReply(table, d.replies).None? then s
    else Paid(s, table, d).(answers := s.answers[(table, d.version) := FinalReply(table, d.replies).value])
  }

  function AnswerOf(stored: Answers, d: Delivery, table: string): Records {
    if (table, d.version) in stored then stored[(table, d.version)]
    else if FinalReply(table, d.replies).Some? then FinalReply(table, d.replies).value
    else []
  }

  lemma LoopStep(s: Spend, stored: Answers, tables: seq<string>, d: Delivery, records: seq<(string, Records)>)
    requires tables != []
    ensures var t := tables[0];
      Loop(s, stored, tables, d, records) ==
        if Obtains(stored, d, t)
        then Loop(Obtained(s, stored, d, t), stored, tables[1..], d, records + [(t, AnswerOf(stored, d, t))])
        else (Paid(s, t, d), Failed)
  {
    ObtainsIff(stored, d, tables[0]);
  }

  ghost predicate AllObtained(stored: Answers, d: Delivery, tables: seq<string>) {
    forall t :: t in tables ==> Obtains(stored, d, t)
  }

  lemma {:induction false} LoopCompletesIff(
      s: Spend, stored: Answers, tables: seq<string>, d: Delivery, records: seq<(string, Records)>)
    ensures var outcome := Loop(s, stored, tables, d, records).1;
      && (outcome.Completed? <==> AllObtained(stored, d, tables) && !d.restFails) && (outcome.Completed? || outcome.Failed?)
    decreases |tables|
  {
    if tables != [] {
      var t := tables[0];
      LoopStep(s, stored, tables, d, records);
      assert forall x :: x in tables <==> x == t || x in tables[1..];
      if Obtains(stored, d, t) {
        LoopCompletesIff(Obtained(s, stored, d, t), stored, tables[1..], d, records + [(t, AnswerOf(stored, d, t))]);
      }
    }
  }

  /**
   A delivery is refused over the ceiling. It completes when every wanted table has its answer, on
   record or from the model, and nothing after the loop fails. Otherwise it fails.
   */
  lemma OutcomeIs(s: Spend, d: Delivery)
    ensures var outcome := Delivered(s, d).1;
      && (outcome == Refused <==> |Wanted(d)| > d.ceiling)
      && (outcome.Completed? <==> |Wanted(d)| <= d.ceiling && AllObtained(s.answers, d, Wanted(d)) && !d.restFails)
  {
    LoopCompletesIff(s, s.answers, Wanted(d), d, []);
  }

  // ------------------------------------------------------------------------
  // What is paid and stored
  // ------------------------------------------------------------------------

  /** The record is of a table's answer as it was stored, or else as the model gave it. */
  predicate IsAnswer(stored: Answers, d: Delivery, record: (string, Records)) {
    if (record.0, d.version) in stored then record.1 == stored[(record.0, d.version)] else Gives(d, record.0, record.1)
  }

  lemma {:induction false} LoopHandsOnAnswers(
      s: Spend, stored: Answers, tables: seq<string>, d: Delivery, records: seq<(string, Records)>)
    requires forall r :: r in records ==> IsAnswer(stored, d, r)
    ensures var outcome := Loop(s, stored, tables, d, records).1;
      outcome.Completed? ==> forall r :: r in outcome.records ==> IsAnswer(stored, d, r)
    decreases |tables|
  {
    if tables != [] {
      var t := tables[0];
      LoopStep(s, stored, tables, d, records);
      ReplyIs(d, t);
      ObtainsIff(stored, d, t);
      if Obtains(stored, d, t) {
        LoopHandsOnAnswers(Obtained(s, stored, d, t), stored, tables[1..], d, records + [(t, AnswerOf(stored, d, t))]);
      }
    }
  }

  /** What is stored afterwards: what was, and answers the model gave and that were committed. */
  ghost predicate IsStoredAnswer(s: Spend, u: Spend, d: Delivery, question: (string, string)) {
    question in u.answers ==>
      if question in s.answers then u.answers[question] == s.answers[question]
      else question.1 == d.version && d.commits(question.0) && Gives(d, question.0, u.answers[question])
  }

  ghost predicate StoresAnswers(s: Spend, u: Spend, d: Delivery) {
    s.answers.Keys <= u.answers.Keys && forall q :: IsStoredAnswer(s, u, d, q)
  }

  lemma {:induction false} LoopStores(
      first: Spend, s: Spend, tables: seq<string>, d: Delivery, records: seq<(string, Records)>)
    requires StoresAnswers(first, s, d)
    ensures StoresAnswers(first, Loop(s, first.answers, tables, d, records).0, d)
    decreases |tables|
  {
    if tables != [] {
      var t := tables[0];
      LoopStep(s, first.answers, tables, d, records);
      if Obtains(first.answers, d, t) {
        ObtainedStores(first, s, d, t);
        LoopStores(first, Obtained(s, first.answers, d, t), tables[1..], d, records + [(t, AnswerOf(first.answers, d, t))]);
      } else {
        assert StoresAnswers(first, Paid(s, t, d), d) by {
          forall q ensures IsStoredAnswer(first, Paid(s, t, d), d, q) {
            assert IsStoredAnswer(first, s, d, q);
          }
        }
      }
    }
  }

  lemma ObtainedStores(first: Spend, s: Spend, d: Delivery, t: string)
    requires StoresAnswers(first, s, d) && Obtains(first.answers, d, t)
    ensures StoresAnswers(first, Obtained(s, first.answers, d, t), d)
  {
    ReplyIs(d, t);
    ObtainsIff(first.answers, d, t);
    forall q ensures IsStoredAnswer(first, Obtained(s, first.answers, d, t), d, q) {
      assert IsStoredAnswer(first, s, d, q);
    }
  }

  /** Answers handed on and stored are the model's own, and none that was stored is replaced. */
  lemma AnswersAreTheModels(s: Spend, d: Delivery)
    ensures var (u, outcome) := Delivered(s, d);
      && (outcome.Completed? ==> forall r :: r in outcome.records ==> IsAnswer(s.answers, d, r))
      && StoresAnswers(s, u, d)
  {
    LoopHandsOnAnswers(s, s.answers, Wanted(d), d, []);
    assert StoresAnswers(s, s, d);
    LoopStores(s, s, Wanted(d), d, []);
  }

  /** The tables without a stored answer, in order, up to the first the model or the store fails on. */
  function ToPay(stored: Answers, d: Delivery, tables: seq<string>): seq<(string, string)> {
    if tables == [] then []
    else if (tables[0], d.version) in stored then ToPay(stored, d, tables[1..])
    else if FinalReply(tables[0], d.replies).Some? && d.commits(tables[0])
    then [(tables[0], d.version)] + ToPay(stored, d, tables[1..])
    else [(tables[0], d.version)]
  }

  /** One invocation for each run, two where the first reply was prose. */
  function Invocations(d: Delivery, runs: seq<(string, string)>): nat {
    if runs == [] then 0 else (if d.replies(runs[0].0, 1).Prose? then 2 else 1) + Invocations(d, runs[1..])
  }

  /** What the first of the tables adds. */
  function PaidFor(stored: Answers, d: Delivery, table: string): seq<(string, string)> {
    if (table, d.version) in stored then [] else [(table, d.version)]
  }

  lemma ToPayStep(stored: Answers, d: Delivery, tables: seq<string>)
    requires tables != []
    ensures ToPay(stored, d, tables)
      == PaidFor(stored, d, tables[0]) + if Obtains(stored, d, tables[0]) then ToPay(stored, d, tables[1..]) else []
  {
    ObtainsIff(stored, d, tables[0]);
  }

  lemma InvocationsInParts(stored: Answers, d: Delivery, table: string, rest: seq<(string, string)>)
    ensures Invocations(d, PaidFor(stored, d, table) + rest) == Invocations(d, PaidFor(stored, d, table)) + Invocations(d, rest)
  {
    if (table, d.version) !in stored {
      assert ([(table, d.version)] + rest)[1..] == rest;
      assert [(table, d.version)][1..] == [];
    } else {
      assert [] + rest == rest;
    }
  }

  /** What a run of the table costs, whether its answer is obtained or not. */
  lemma TablePays(s: Spend, stored: Answers, d: Delivery, table: string)
    ensures var u := if Obtains(stored, d, table) then Obtained(s, stored, d, table) else Paid(s, table, d);
      && u.runs == s.runs + PaidFor(stored, d, table)
      && u.invocations == s.invocations + Invocations(d, PaidFor(stored, d, table))
  {
    ReplyIs(d, table);
    ObtainsIff(stored, d, table);
    if (table, d.version) !in stored {
      assert [(table, d.version)][1..] == [];
    }
  }

  lemma {:induction false} LoopPays(
      s: Spend, stored: Answers, tables: seq<string>, d: Delivery, records: seq<(string, Records)>)
    ensures var u := Loop(s, stored, tables, d, records).0;
      && u.runs == s.runs + ToPay(stored, d, tables)
      && u.invocations == s.invocations + Invocations(d, ToPay(stored, d, tables))
    decreases |tables|
  {
    if tables != [] {
      var t := tables[0];
      LoopStep(s, stored, tables, d, records);
      ToPayStep(stored, d, tables);
      TablePays(s, stored, d, t);
      if Obtains(stored, d, t) {
        LoopPays(Obtained(s, stored, d, t), stored, tables[1..], d, records + [(t, AnswerOf(stored, d, t))]);
        InvocationsInParts(stored, d, t, ToPay(stored, d, tables[1..]));
      }
    }
  }

  /** The `i`-th table is reached: every one before it has its answer. */
  ghost predicate Reached(stored: Answers, d: Delivery, tables: seq<string>, i: nat) {
    i < |tables| && forall j :: 0 <= j < i ==> Obtains(stored, d, tables[j])
  }

  lemma {:induction false} ToPayIff(stored: Answers, d: Delivery, tables: seq<string>, question: (string, string))
    ensures question in ToPay(stored, d, tables)
      <==> question !in stored && question.1 == d.version
           && exists i :: 0 <= i < |tables| && tables[i] == question.0 && Reached(stored, d, tables, i)
    decreases |tables|
  {
    if tables != [] {
      ObtainsIff(stored, d, tables[0]);
      ToPayIff(stored, d, tables[1..], question);
      assert Reached(stored, d, tables, 0);
      if Obtains(stored, d, tables[0]) {
        ReachedLater(stored, d, tables, question.0);
      } else {
        assert forall i :: 0 < i < |tables| ==> !Reached(stored, d, tables, i);
      }
    }
  }

  lemma ReachedLater(stored: Answers, d: Delivery, tables: seq<string>, table: string)
    requires tables != [] && Obtains(stored, d, tables[0])
    ensures (exists i :: 0 <= i < |tables| && tables[i] == table && Reached(stored, d, tables, i))
      <==> tables[0] == table
           || exists i :: 0 <= i < |tables[1..]| && tables[1..][i] == table && Reached(stored, d, tables[1..], i)
  {
    forall i | 0 <= i < |tables[1..]| ensures Reached(stored, d, tables[1..], i) <==> Reached(stored, d, tables, i + 1) {
      assert forall j :: 0 <= j < i ==> tables[1..][j] == tables[j + 1];
      if Reached(stored, d, tables[1..], i) {
        forall j | 0 <= j < i + 1 ensures Obtains(stored, d, tables[j]) {
          assert j > 0 ==> tables[j] == tables[1..][j - 1];
        }
      }
    }
    assert Reached(stored, d, tables, 0);
    if i :| 0 <= i < |tables| && tables[i] == table && Reached(stored, d, tables, i) {
      if i > 0 {
        assert tables[1..][i - 1] == table && Reached(stored, d, tables[1..], i - 1);
      }
    }
  }

  /**
   A delivery within the ceiling pays for exactly the wanted tables without a stored answer that it
   reaches, each once, and invokes the model once for each, or twice where it answered in prose.
   */
  lemma PaysForWhatItReaches(s: Spend, d: Delivery, question: (string, string))
    requires |Wanted(d)| <= d.ceiling
    ensures var u := Delivered(s, d).0;
      && s.runs <= u.runs && u.invocations == s.invocations + Invocations(d, u.runs[|s.runs|..])
      && (question in u.runs[|s.runs|..]
          <==> question !in s.answers && question.1 == d.version
               && exists i :: 0 <= i < |Wanted(d)| && Wanted(d)[i] == question.0 && Reached(s.answers, d, Wanted(d), i))
  {
    LoopPays(s, s.answers, Wanted(d), d, []);
    var u := Delivered(s, d).0;
    assert u.runs[|s.runs|..] == ToPay(s.answers, d, Wanted(d));
    ToPayIff(s.answers, d, Wanted(d), question);
  }
}
