/**
 What becomes of a stored answer when it is reused (run_extraction.py `run`, with normalize.py
 `bulk_insert_elements` before it and the gate of gate.py after it).

 A stored answer cites row ids. A redelivered completion normalises first, which replaces the
 document's rows by new ones with new ids, and only then reuses the answers it finds.
 */
module StoredAnswers {
  import opened Prelude
  import opened Normalize
  import opened ElementStore
  import opened Gate
  import opened Link

  /** The element rows of every document, and the next fresh id. */
  datatype Store = Store(rows: seq<ElementRow>, nextId: nat)
  {
    ghost predicate Valid() {
      forall i :: 0 <= i < |rows| ==> rows[i].id < nextId
    }
  }

  /** One call of `bulk_insert_elements`, with the row ids live citations point at. */
  datatype Write = Write(document: string, elements: seq<Element>, cited: set<nat>)

  /** The call replaces the document's rows: there is something to write, and no citation forbids it. */
  predicate Rewrites(s: Store, w: Write, document: string) {
    w.document == document && w.elements != [] && !Cited(s.rows, document, w.cited)
  }

  /** The rows after the call, as `DocElementTable.BulkInsert` leaves them. */
  function Wrote(s: Store, w: Write): Store {
    if Rewrites(s, w, w.document)
    then Store(Replaced(s.rows, w.document, w.elements, s.nextId), s.nextId + |w.elements|)
    else s
  }

  function After(s: Store, writes: seq<Write>): Store
    decreases |writes|
  {
    if writes == [] then s else After(Wrote(s, writes[0]), writes[1..])
  }

  /** Some call replaced the document's rows. */
  predicate Rewritten(s: Store, writes: seq<Write>, document: string)
    decreases |writes|
  {
    writes != [] && (Rewrites(s, writes[0], document) || Rewritten(Wrote(s, writes[0]), writes[1..], document))
  }

  /**
   The elements the model is shown for a table: the id, as text, and the text of each row of the
   document that is a cell of the table or a line beside it, which is what `pick` says.
   */
  datatype View = View(document: string, pick: Element -> bool, name: nat -> string)

  function Shown(rows: seq<ElementRow>, view: View): map<string, string> {
    if rows == [] then map[]
    else if rows[0].document == view.document && view.pick(rows[0].element)
    then Shown(rows[1..], view)[view.name(rows[0].id) := rows[0].element.text]
    else Shown(rows[1..], view)
  }

  /** A call writes exactly as `DocElementTable.BulkInsert` does: nothing without elements or over a live citation. */
  lemma WriteIs(s: Store, w: Write)
    ensures w.elements == [] || (exists i :: 0 <= i < |s.rows| && s.rows[i].document == w.document && s.rows[i].id in w.cited) ==>
      Wrote(s, w) == s && forall document :: !Rewrites(s, w, document)
    ensures w.elements != [] && (forall i :: 0 <= i < |s.rows| && s.rows[i].document == w.document ==> s.rows[i].id !in w.cited) ==>
      && Wrote(s, w) == Store(Replaced(s.rows, w.document, w.elements, s.nextId), s.nextId + |w.elements|)
      && forall document :: Rewrites(s, w, document) <==> document == w.document
  {
  }

  // The rows between storing and reusing.

  lemma WroteIsValid(s: Store, w: Write)
    requires s.Valid()
    ensures Wrote(s, w).Valid() && s.nextId <= Wrote(s, w).nextId
  {
    OthersAreOld(s.rows, w.document);
    var t := Wrote(s, w);
    forall i | 0 <= i < |t.rows|
      ensures t.rows[i].id < t.nextId
    {
      if Rewrites(s, w, w.document) && i < |Others(s.rows, w.document)| {
        assert t.rows[i] in Others(s.rows, w.document);
      }
    }
  }

  lemma {:induction false} ShownOfConcat(a: seq<ElementRow>, b: seq<ElementRow>, view: View)
    ensures Shown(a + b, view) == Shown(b, view) + Shown(a, view)
  {
    if a == [] {
      assert a + b == b;
    } else {
      assert (a + b)[1..] == a[1..] + b;
      ShownOfConcat(a[1..], b, view);
    }
  }

  lemma {:induction false} ShownOfOthers(rows: seq<ElementRow>, document: string, view: View)
    requires document != view.document
    ensures Shown(Others(rows, document), view) == Shown(rows, view)
  {
    if rows != [] {
      ShownOfOthers(rows[1..], document, view);
      assert rows[0].document != document ==> Others(rows, document)[1..] == Others(rows[1..], document);
    }
  }

  lemma {:induction false} NothingShown(rows: seq<ElementRow>, view: View)
    requires forall i :: 0 <= i < |rows| ==> rows[i].document != view.document
    ensures Shown(rows, view) == map[]
  {
    if rows != [] {
      NothingShown(rows[1..], view);
    }
  }

  /** Replacing another document's rows shows the same. */
  lemma OtherWritesShowTheSame(s: Store, w: Write, view: View)
    requires !Rewrites(s, w, view.document)
    ensures Shown(Wrote(s, w).rows, view) == Shown(s.rows, view)
  {
    if Rewrites(s, w, w.document) {
      ShownOfConcat(Others(s.rows, w.document), Minted(w.document, w.elements, s.nextId), view);
      ShownOfOthers(s.rows, w.document, view);
      NothingShown(Minted(w.document, w.elements, s.nextId), view);
    }
  }

  lemma {:induction false} NotRewrittenShowsTheSame(s: Store, writes: seq<Write>, view: View)
    requires !Rewritten(s, writes, view.document)
    ensures Shown(After(s, writes).rows, view) == Shown(s.rows, view)
    decreases |writes|
  {
    if writes != [] {
      OtherWritesShowTheSame(s, writes[0], view);
      NotRewrittenShowsTheSame(Wrote(s, writes[0]), writes[1..], view);
    }
  }

  /** The document's rows have ids from `first` on. */
  ghost predicate IdsFrom(rows: seq<ElementRow>, document: string, first: nat) {
    forall i :: 0 <= i < |rows| && rows[i].document == document ==> first <= rows[i].id
  }

  lemma WriteMintsIds(s: Store, w: Write, document: string, first: nat)
    requires first <= s.nextId
    requires IdsFrom(s.rows, document, first) || Rewrites(s, w, document)
    ensures IdsFrom(Wrote(s, w).rows, document, first)
  {
    OthersAreOld(s.rows, w.document);
    var t := Wrote(s, w);
    forall i | 0 <= i < |t.rows| && t.rows[i].document == document
      ensures first <= t.rows[i].id
    {
      if Rewrites(s, w, w.document) && i < |Others(s.rows, w.document)| {
        assert t.rows[i] in Others(s.rows, w.document);
        var j :| 0 <= j < |s.rows| && s.rows[j] == t.rows[i];
      }
    }
  }

  lemma {:induction false} RewrittenMeansNewIds(s: Store, writes: seq<Write>, document: string, first: nat)
    requires s.Valid() && first <= s.nextId
    requires IdsFrom(s.rows, document, first) || Rewritten(s, writes, document)
    ensures IdsFrom(After(s, writes).rows, document, first)
    decreases |writes|
  {
    if writes != [] {
      WroteIsValid(s, writes[0]);
      if IdsFrom(s.rows, document, first) || Rewrites(s, writes[0], document) {
        WriteMintsIds(s, writes[0], document, first);
      }
      RewrittenMeansNewIds(Wrote(s, writes[0]), writes[1..], document, first);
    }
  }

  lemma {:induction false} ShownIsARow(rows: seq<ElementRow>, view: View, id: string)
    requires id in Shown(rows, view)
    ensures exists i :: 0 <= i < |rows| && rows[i].document == view.document && view.name(rows[i].id) == id
  {
    if rows[0].document == view.document && view.name(rows[0].id) == id {
    } else {
      ShownIsARow(rows[1..], view, id);
      var i :| 0 <= i < |rows[1..]| && rows[1..][i].document == view.document && view.name(rows[1..][i].id) == id;
      assert rows[i + 1] == rows[1..][i];
    }
  }

  /** A row that the view picks: of the document, of the table or a line beside it. */
  predicate Picked(row: ElementRow, view: View) {
    row.document == view.document && view.pick(row.element)
  }

  /** The model is shown the id and the text of exactly the rows picked, ids being distinct. */
  lemma {:induction false} ShownIff(rows: seq<ElementRow>, view: View, id: string, text: string)
    requires Injective(view.name) && forall i, j :: 0 <= i < j < |rows| ==> rows[i].id != rows[j].id
    ensures (id in Shown(rows, view) && Shown(rows, view)[id] == text)
      <==> exists i :: 0 <= i < |rows| && Picked(rows[i], view) && view.name(rows[i].id) == id && rows[i].element.text == text
  {
    if rows != [] {
      var rest := rows[1..];
      ShownIff(rest, view, id, text);
      assert forall i :: 0 <= i < |rest| ==> rest[i] == rows[i + 1];
      if i :| 0 <= i < |rest| && Picked(rest[i], view) && view.name(rest[i].id) == id && rest[i].element.text == text {
        assert rows[i + 1] == rest[i] && rows[0].id != rows[i + 1].id;
      }
    }
  }

  /** After a rewrite no id shown before is shown again. */
  lemma RewrittenShowsNoOldId(s: Store, writes: seq<Write>, view: View, id: string)
    requires s.Valid() && Injective(view.name) && Rewritten(s, writes, view.document)
    requires id in Shown(s.rows, view)
    ensures id !in Shown(After(s, writes).rows, view)
  {
    ShownIsARow(s.rows, view, id);
    var i :| 0 <= i < |s.rows| && s.rows[i].document == view.document && view.name(s.rows[i].id) == id;
    RewrittenMeansNewIds(s, writes, view.document, s.nextId);
    if id in Shown(After(s, writes).rows, view) {
      ShownIsARow(After(s, writes).rows, view, id);
      assert false;
    }
  }

  // The gate, then and now.

  /** The gate the field went through when the model answered, or goes through when it is reused. */
  function Verdict(rows: seq<ElementRow>, view: View, value: Option<string>, ids: seq<string>,
                   grounding: Grounding, minRatio: real): FieldVerdict {
    Validate(value, ids, Shown(rows, view), grounding, minRatio)
  }

  /**
   A field of a stored answer, whose citations were of elements shown when it was stored, keeps its
   verdict exactly until the document is normalised again; from then on it is rejected for citing
   elements unknown, unless it cites none. So an accepted value is accepted again exactly when the
   document's rows were not replaced in between.
   */
  lemma StoredFieldIsAcceptedIff(
      s: Store, writes: seq<Write>, view: View, value: Option<string>, ids: seq<string>, grounding: Grounding, minRatio: real)
    requires s.Valid() && Injective(view.name) && AllSupplied(ids, Shown(s.rows, view))
    ensures Verdict(After(s, writes).rows, view, value, ids, grounding, minRatio)
      == if Rewritten(s, writes, view.document) && ids != [] then FieldVerdict(REJECT, Some(UNKNOWN_ELEMENT), None)
         else Verdict(s.rows, view, value, ids, grounding, minRatio)
    ensures Verdict(s.rows, view, value, ids, grounding, minRatio).verdict == ACCEPT ==>
      (Verdict(After(s, writes).rows, view, value, ids, grounding, minRatio).verdict == ACCEPT
       <==> !Rewritten(s, writes, view.document))
  {
    if !Rewritten(s, writes, view.document) {
      NotRewrittenShowsTheSame(s, writes, view);
    } else if ids != [] {
      assert ids[0] in Shown(s.rows, view);
      RewrittenShowsNoOldId(s, writes, view, ids[0]);
      assert !AllSupplied(ids, Shown(After(s, writes).rows, view));
    }
  }

  /** The citations of a record are of elements shown. */
  ghost predicate CitesShown(task: Task, shown: map<string, string>) {
    forall name :: name in task.fields ==> AllSupplied(task.fields[name].ids, shown)
  }

  /**
   A record reused after its document was normalised again links no field to any element: each
   field that cited anything is rejected.
   */
  lemma ReusedRecordLosesItsCitations(
      s: Store, writes: seq<Write>, view: View, task: Task, name: string, penalty: real, grounding: Grounding, minRatio: real)
    requires s.Valid() && Injective(view.name) && Rewritten(s, writes, view.document)
    requires CitesShown(task, Shown(s.rows, view))
    requires task.gate == GateOver(Shown(After(s, writes).rows, view), grounding, minRatio)
    ensures var r := Linked(task, name, penalty);
      && r.ids == []
      && (name in task.fields && task.fields[name].ids != [] ==> r.state == REJECTED && r.confidence.final.None?)
  {
    if name in task.fields {
      var e := task.fields[name];
      StoredFieldIsAcceptedIff(s, writes, view, e.value, e.ids, grounding, minRatio);
    }
  }
}
