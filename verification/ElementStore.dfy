/** The `doc_elements` rows of every document, replaced per document by delete-then-copy. */
module ElementStore {
  import opened Prelude
  import opened Normalize

  datatype ElementRow = ElementRow(id: nat, document: string, element: Element)

  datatype RestrictedByCitation = RestrictedByCitation

  /** The rows that survive deleting `document`'s rows. */
  function Others(rows: seq<ElementRow>, document: string): seq<ElementRow> {
    if rows == [] then []
    else if rows[0].document == document then Others(rows[1..], document)
    else [rows[0]] + Others(rows[1..], document)
  }

  /** Fresh rows for `elements`, in order, numbered from `nextId`. */
  function Minted(document: string, elements: seq<Element>, nextId: nat): (rows: seq<ElementRow>)
    ensures |rows| == |elements|
  {
    seq(|elements|, i requires 0 <= i < |elements| => ElementRow(nextId + i, document, elements[i]))
  }

  /** A document's elements as later stages read them. */
  function Read(rows: seq<ElementRow>, document: string): seq<Element> {
    if rows == [] then []
    else if rows[0].document == document then [rows[0].element] + Read(rows[1..], document)
    else Read(rows[1..], document)
  }

  function Replaced(rows: seq<ElementRow>, document: string, elements: seq<Element>, nextId: nat): seq<ElementRow> {
    Others(rows, document) + Minted(document, elements, nextId)
  }

  predicate Cited(rows: seq<ElementRow>, document: string, cited: set<nat>) {
    exists i :: 0 <= i < |rows| && rows[i].document == document && rows[i].id in cited
  }

  class DocElementTable {
    var rows: seq<ElementRow>
    var nextId: nat

    ghost predicate Valid()
      reads this
    {
      forall i :: 0 <= i < |rows| ==> rows[i].id < nextId
    }

    constructor ()
      ensures Valid() && rows == [] && nextId == 0
    {
      rows, nextId := [], 0;
    }

    /**
     Nothing to write leaves the old rows. A live citation of one of the document's rows makes
     the delete, and with it the whole transaction, fail.
     */
    method BulkInsert(document: string, elements: seq<Element>, cited: set<nat>)
      returns (r: Result<nat, RestrictedByCitation>)
      requires Valid()
      modifies this
      ensures Valid()
      ensures elements == [] ==> r == Success(0) && rows == old(rows) && nextId == old(nextId)
      ensures elements != [] && Cited(old(rows), document, cited) ==>
        r == Failure(RestrictedByCitation) && rows == old(rows) && nextId == old(nextId)
      ensures elements != [] && !Cited(old(rows), document, cited) ==>
        && r == Success(|elements|)
        && rows == Replaced(old(rows), document, elements, old(nextId))
        && nextId == old(nextId) + |elements|
    {
      if elements == [] {
        return Success(0);
      }
      if Cited(rows, document, cited) {
        return Failure(RestrictedByCitation);
      }
      OthersAreOld(rows, document);
      ghost var kept := Others(rows, document);
      ghost var first := nextId;
      rows := Others(rows, document);
      for i := 0 to |elements|
        invariant rows == kept + Minted(document, elements, first)[..i]
        invariant nextId == first + i
      {
        rows := rows + [ElementRow(nextId, document, elements[i])];
        nextId := nextId + 1;
      }
      return Success(|elements|);
    }
  }

  lemma {:induction false} OthersAreOld(rows: seq<ElementRow>, document: string)
    ensures forall row :: row in Others(rows, document) ==> row in rows && row.document != document
  {
    if rows != [] {
      OthersAreOld(rows[1..], document);
    }
  }

  lemma {:induction false} ReadOfConcat(a: seq<ElementRow>, b: seq<ElementRow>, document: string)
    ensures Read(a + b, document) == Read(a, document) + Read(b, document)
  {
    if a == [] {
      assert a + b == b;
    } else {
      assert (a + b)[1..] == a[1..] + b;
      ReadOfConcat(a[1..], b, document);
    }
  }

  lemma {:induction false} ReadOfOthers(rows: seq<ElementRow>, document: string, reader: string)
    ensures Read(Others(rows, document), reader) == if reader == document then [] else Read(rows, reader)
  {
    if rows != [] {
      ReadOfOthers(rows[1..], document, reader);
      assert rows[0].document != document ==> Others(rows, document)[1..] == Others(rows[1..], document);
    }
  }

  lemma {:induction false} ReadOfMinted(document: string, elements: seq<Element>, nextId: nat, reader: string)
    ensures Read(Minted(document, elements, nextId), reader) == if reader == document then elements else []
    decreases |elements|
  {
    if elements != [] {
      assert Minted(document, elements, nextId)[1..] == Minted(document, elements[1..], nextId + 1);
      ReadOfMinted(document, elements[1..], nextId + 1, reader);
    }
  }

  /**
   A re-run converges on exactly the elements it wrote and touches no other document, yet none
   of the document's earlier row ids survives: an answer cached before the re-run that cites
   row ids cites rows that no longer exist.
   */
  lemma ReplacementConverges(
      rows: seq<ElementRow>, document: string, elements: seq<Element>, nextId: nat, reader: string)
    requires forall i :: 0 <= i < |rows| ==> rows[i].id < nextId
    ensures Read(Replaced(rows, document, elements, nextId), reader)
      == if reader == document then elements else Read(rows, reader)
    ensures forall row :: row in Replaced(rows, document, elements, nextId) ==>
      if row.document == document then forall was :: was in rows ==> was.id != row.id else row in rows
  {
    ReadOfConcat(Others(rows, document), Minted(document, elements, nextId), reader);
    ReadOfOthers(rows, document, reader);
    ReadOfMinted(document, elements, nextId, reader);
    OthersAreOld(rows, document);
  }

  ghost predicate DistinctIds(rows: seq<ElementRow>) {
    forall i, j :: 0 <= i < j < |rows| ==> rows[i].id != rows[j].id
  }

  lemma {:induction false} OthersAreDistinct(rows: seq<ElementRow>, document: string)
    requires DistinctIds(rows)
    ensures DistinctIds(Others(rows, document))
  {
    if rows != [] {
      var rest := rows[1..];
      assert forall i :: 0 <= i < |rest| ==> rest[i] == rows[i + 1];
      OthersAreDistinct(rest, document);
      OthersAreOld(rest, document);
      forall row | row in Others(rest, document) ensures row.id != rows[0].id {
        var k :| 0 <= k < |rest| && rest[k] == row;
      }
    }
  }

  /** No two rows ever share an id. */
  lemma ReplacedAreDistinct(rows: seq<ElementRow>, document: string, elements: seq<Element>, nextId: nat)
    requires DistinctIds(rows) && forall i :: 0 <= i < |rows| ==> rows[i].id < nextId
    ensures DistinctIds(Replaced(rows, document, elements, nextId))
  {
    OthersAreDistinct(rows, document);
    OthersAreOld(rows, document);
    var others := Others(rows, document);
    forall i | 0 <= i < |others| ensures others[i].id < nextId {
      assert others[i] in rows;
    }
  }
}
