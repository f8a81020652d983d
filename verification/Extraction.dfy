/**
 The extraction run of one document (run_extraction.py, extract.py): group cells into tables,
 locate the schedules, refuse over the ceiling, and pay for each table at most once per prompt.
 */
module Extraction {
  import opened Prelude

  /** A table cell as `build_table_batches` reads it; the model is shown `id` and `text`. */
  datatype Cell = Cell(id: nat, table: string, text: string)

  datatype TableClass = DOOR_SCHEDULE | FRAME_SCHEDULE | HARDWARE_SCHEDULE | OTHER_TABLE

  const EXTRACTABLE := {DOOR_SCHEDULE, FRAME_SCHEDULE}

  /** The cheap tier's answer: it may fail, and it may leave tables out. */
  datatype Locate = LocateFails | Located(classes: map<string, TableClass>)

  type Records = seq<string>

  /** One premium invocation: records, prose instead of a tool call, or any other failure. */
  datatype Reply = Answer(records: Records) | Prose | Fails

  // ------------------------------------------------------------------------
  // Batching and locating
  // ------------------------------------------------------------------------

  /** Table ids in the order their first cell appears. */
  function TableOrder(cells: seq<Cell>): (order: seq<string>)
    ensures forall i, j :: 0 <= i < j < |order| ==> order[i] != order[j]
    ensures forall t :: t in order <==> exists c :: c in cells && c.table == t
    decreases |cells|
  {
    if cells == [] then [] else
    var c := cells[|cells| - 1];
    var order := TableOrder(cells[..|cells| - 1]);
    assert cells == cells[..|cells| - 1] + [c];
    if c.table in order then order else order + [c.table]
  }

  function CellsOf(cells: seq<Cell>, table: string): seq<Cell>
    decreases |cells|
  {
    if cells == [] then [] else
    var c := cells[|cells| - 1];
    CellsOf(cells[..|cells| - 1], table) + if c.table == table then [c] else []
  }

  /** The dictionary of batches as the loop fills it. */
  function Grouped(cells: seq<Cell>): map<string, seq<Cell>>
    decreases |cells|
  {
    if cells == [] then map[] else
    var c := cells[|cells| - 1];
    var batches := Grouped(cells[..|cells| - 1]);
    batches[c.table := if c.table in batches then batches[c.table] + [c] else [c]]
  }

  /** Group the cells by table, remembering the order in which tables first appear. */
  method BuildTableBatches(cells: seq<Cell>) returns (order: seq<string>, batches: map<string, seq<Cell>>)
    ensures order == TableOrder(cells) && batches == Grouped(cells)
  {
    order, batches := [], map[];
    for i := 0 to |cells|
      invariant order == TableOrder(cells[..i]) && batches == Grouped(cells[..i])
      invariant forall t :: t in order <==> t in batches
    {
      var c := cells[i];
      assert cells[..i + 1][..i] == cells[..i];
      if c.table !in batches {
        order := order + [c.table];
        batches := batches[c.table := [c]];
      } else {
        batches := batches[c.table := batches[c.table] + [c]];
      }
    }
    assert cells[..|cells|] == cells;
  }

  /** The batches partition the cells: each holds exactly its table's cells, in reading order. */
  lemma {:induction false} BatchesPartitionCells(cells: seq<Cell>, table: string)
    ensures table in Grouped(cells) <==> table in TableOrder(cells)
    ensures CellsOf(cells, table) == if table in Grouped(cells) then Grouped(cells)[table] else []
    decreases |cells|
  {
    if cells != [] {
      BatchesPartitionCells(cells[..|cells| - 1], table);
    }
  }

  /** A table the locate pass failed on, or did not mention, counts as a door schedule. */
  function ClassOf(locate: Locate, table: string): TableClass {
    if locate.Located? && table in locate.classes then locate.classes[table] else DOOR_SCHEDULE
  }

  /** The tables that go to the premium tier, in batch order. */
  function Extractable(order: seq<string>, locate: Locate): (tables: seq<string>)
    ensures forall t :: t in tables <==> t in order && ClassOf(locate, t) in EXTRACTABLE
    ensures (forall i, j :: 0 <= i < j < |order| ==> order[i] != order[j]) ==>
      forall i, j :: 0 <= i < j < |tables| ==> tables[i] != tables[j]
    decreases |order|
  {
    if order == [] then [] else
    var t := order[|order| - 1];
    var tables := Extractable(order[..|order| - 1], locate);
    assert order == order[..|order| - 1] + [t];
    if ClassOf(locate, t) in EXTRACTABLE then tables + [t] else tables
  }

  // ------------------------------------------------------------------------
  // Paying for tables
  // ------------------------------------------------------------------------

  /**
   One delivery, with everything outside the code's control: what the cells and the locate pass
   say, what the model replies to each attempt, whether each answer is committed, and whether
   anything after the loop fails. A worker's death is a failure at that point.
   */
  datatype Delivery = Delivery(
    version: string, cells: seq<Cell>, locate: Locate, ceiling: nat,
    replies: (string, nat) -> Reply, commits: string -> bool, restFails: bool)

  type Answers = map<(string, string), Records>

  /** Stored answers by table and prompt version, every premium table run, and every invocation. */
  datatype Spend = Spend(answers: Answers, runs: seq<(string, string)>, invocations: nat)

  datatype Outcome = Refused | Failed | Completed(records: seq<(string, Records)>)

  /** The two-attempt loop: only prose is retried, and only once. */
  method ExtractTable(table: string, replies: (string, nat) -> Reply)
    returns (r: Option<Records>, invocations: nat)
    ensures invocations == Attempts(table, replies) && 1 <= invocations <= 2
    ensures r == FinalReply(table, replies)
  {
    invocations := 0;
    for attempt := 1 to 3
      invariant invocations == attempt - 1
      invariant attempt == 2 ==> replies(table, 1) == Prose
      invariant attempt < 3
    {
      var reply := replies(table, attempt);
      invocations := invocations + 1;
      match reply {
        case Answer(records) => return Some(records), invocations;
        case Fails => return None, invocations;
        case Prose =>
          if attempt == 2 {
            return None, invocations;
          }
      }
    }
    assert false;
  }

  function Attempts(table: string, replies: (string, nat) -> Reply): nat {
    if replies(table, 1) == Prose then 2 else 1
  }

  function FinalReply(table: string, replies: (string, nat) -> Reply): Option<Records> {
    match replies(table, Attempts(table, replies))
    case Answer(records) => Some(records)
    case _ => None
  }

  function Paid(s: Spend, table: string, d: Delivery): Spend {
    s.(runs := s.runs + [(table, d.version)], invocations := s.invocations + Attempts(table, d.replies))
  }

  /** The loop over `tables`, against the answers that were stored when the run began. */
  function Loop(s: Spend, stored: Answers, tables: seq<string>, d: Delivery, records: seq<(string, Records)>)
    : (Spend, Outcome)
    decreases |tables|
  {
    if tables == [] then (s, if d.restFails then Failed else Completed(records)) else
    var t := tables[0];
    if (t, d.version) in stored then
      Loop(s, stored, tables[1..], d, records + [(t, stored[(t, d.version)])])
    else
      match FinalReply(t, d.replies)
      case None => (Paid(s, t, d), Failed)
      case Some(answer) =>
        if d.commits(t) then
          var paid := Paid(s, t, d);
          Loop(paid.(answers := paid.answers[(t, d.version) := answer]), stored, tables[1..], d,
               records + [(t, answer)])
        else
          (Paid(s, t, d), Failed)
  }

  function Delivered(s: Spend, d: Delivery): (Spend, Outcome) {
    var tables := Extractable(TableOrder(d.cells), d.locate);
    if |tables| > d.ceiling then (s, Refused)
    else Loop(s, s.answers, tables, d, [])
  }

  /** The rows `TableExtraction` holds for one document, with what was spent to fill them. */
  class DocumentExtractions {
    var answers: Answers
    var runs: seq<(string, string)>
    var invocations: nat

    function Value(): Spend
      reads this
    {
      Spend(answers, runs, invocations)
    }

    constructor ()
      ensures Value() == Spend(map[], [], 0)
    {
      answers, runs, invocations := map[], [], 0;
    }

    method Run(d: Delivery) returns (outcome: Outcome)
      modifies this
      ensures (Value(), outcome) == Delivered(old(Value()), d)
    {
      var order, batches := BuildTableBatches(d.cells);
      var tables := Extractable(order, d.locate);
      if |tables| > d.ceiling {
        return Refused;
      }
      outcome := ExtractAll(tables, d);
    }

    method ExtractAll(tables: seq<string>, d: Delivery) returns (outcome: Outcome)
      modifies this
      ensures (Value(), outcome) == Loop(old(Value()), old(answers), tables, d, [])
    {
      var cache := answers;
      var records: seq<(string, Records)> := [];
      assert tables[0..] == tables;
      for i := 0 to |tables|
        invariant Loop(old(Value()), cache, tables, d, []) == Loop(Value(), cache, tables[i..], d, records)
      {
        var t := tables[i];
        assert tables[i..][0] == t && tables[i..][1..] == tables[i + 1..];
        if (t, d.version) in cache {
          records := records + [(t, cache[(t, d.version)])];
        } else {
          var answer, attempts := ExtractTable(t, d.replies);
          runs := runs + [(t, d.version)];
          invocations := invocations + attempts;
          if answer.None? || !d.commits(t) {
            return Failed;
          }
          answers := answers[(t, d.version) := answer.value];
          records := records + [(t, answer.value)];
        }
      }
      return if d.restFails then Failed else Completed(records);
    }
  }
}
