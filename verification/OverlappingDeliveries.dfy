/**
 A run in which two deliveries of one upload overlap and the slower one reopens the document after
 its completion was handled and deleted.
 */
module OverlappingDeliveries {
  import opened Prelude
  import opened Repository
  import opened Completion
  import opened DocumentRuns
  import opened CompletionRuns

  /** The run takes one state to the other. */
  predicate Leads(s: State, run: seq<Action>, t: State) {
    After(s, run, |run|) == t
  }

  lemma {:induction false} AfterConcat(s: State, run: seq<Action>, later: seq<Action>, n: nat)
    requires n <= |later|
    ensures After(s, run + later, |run| + n) == After(After(s, run, |run|), later, n)
  {
    if n > 0 {
      AfterConcat(s, run, later, n - 1);
    } else {
      SamePrefix(s, run + later, run, |run|);
    }
  }

  lemma {:induction false} SamePrefix(s: State, a: seq<Action>, b: seq<Action>, n: nat)
    requires n <= |a| && n <= |b| && a[..n] == b[..n]
    ensures After(s, a, n) == After(s, b, n)
  {
    if n > 0 {
      assert a[n - 1] == a[..n][n - 1] == b[..n][n - 1] == b[n - 1];
      assert a[..n - 1] == a[..n][..n - 1] == b[..n][..n - 1] == b[..n - 1];
      SamePrefix(s, a, b, n - 1);
    }
  }

  lemma LeadsOn(s: State, run: seq<Action>, t: State, later: seq<Action>, u: State)
    requires Leads(s, run, t) && Leads(t, later, u)
    ensures Leads(s, run + later, u)
  {
    AfterConcat(s, run, later, |later|);
  }

  lemma OneLeads(s: State, a: Action)
    ensures Leads(s, [a], Act(s, a))
  {
    assert After(s, [a], 0) == s;
  }

  lemma TwoLead(s: State, a: Action, b: Action)
    ensures Leads(s, [a, b], Act(Act(s, a), b))
  {
    assert After(s, [a, b], 1) == Act(s, a);
  }

  lemma ThreeLead(s: State, a: Action, b: Action, c: Action)
    ensures Leads(s, [a, b, c], Act(Act(Act(s, a), b), c))
  {
    assert After(s, [a, b, c], 1) == Act(s, a);
    assert After(s, [a, b, c], 2) == Act(Act(s, a), b);
  }

  const MARKED := JobRow(COMPLETED, 1, "", None, None)
  const UNDERWAY := JobRow(STARTED, 1, "", None, None)

  function OcrRow(key: IdempotencyKey, status: JobStatus, jobId: Option<nat>): JobRow {
    JobRow(status, 1, "", Some(key), jobId)
  }

  /** The upload is message 0, its PREPROCESS row is `row`, and workers 0 and 1 hold it. */
  function Uploaded(d: string, status: DocumentStatus, row: JobRow, first: Worker, second: Worker): State {
    State(Mail(map[0 := DocumentReady(d, None)], {0}, {}, {}), map[d := status], map[d := row], map[], {},
          map[0 := first, 1 := second])
  }

  function Read(d: string): State {
    Uploaded(d, READY_FOR_PROCESSING, NewRow(None),
             Busy(0, d, ReadPreprocess(NewRow(None))), Busy(0, d, ReadPreprocess(NewRow(None))))
  }

  function Started(d: string): State {
    Uploaded(d, READY_FOR_PROCESSING, UNDERWAY, Busy(0, d, Preparing(UNDERWAY)), Busy(0, d, Preparing(UNDERWAY)))
  }

  function Marked(d: string): State {
    Uploaded(d, PROCESSING, MARKED, Busy(0, d, Routing), Busy(0, d, Preparing(UNDERWAY)))
  }

  /** Worker 0 has started the OCR row. */
  function Sending(d: string, key: IdempotencyKey): State {
    Uploaded(d, PROCESSING, MARKED, Busy(0, d, Submitting(OcrRow(key, STARTED, None))), Busy(0, d, Preparing(UNDERWAY)))
      .(ocr := map[d := OcrRow(key, STARTED, None)])
  }

  /** Textract has the job, and worker 0 is in the given phase. */
  function Sent(d: string, row: JobRow, phase: Phase): State {
    State(Mail(map[0 := DocumentReady(d, None)], {0}, {}, {}), map[d := PROCESSING], map[d := MARKED],
          map[d := row], {d}, map[0 := Busy(0, d, phase), 1 := Busy(0, d, Preparing(UNDERWAY))])
  }

  /** The first delivery is over and its message deleted. */
  function Cleared(d: string, key: IdempotencyKey): State {
    State(Mail(map[0 := DocumentReady(d, None)], {}, {0}, {}), map[d := PROCESSING], map[d := MARKED],
          map[d := OcrRow(key, STARTED, Some(7))], {d}, map[0 := Idle, 1 := Busy(0, d, Preparing(UNDERWAY))])
  }

  function Mailed(d: string, queued: set<nat>, deleted: set<nat>): Mail {
    Mail(map[0 := DocumentReady(d, None), 1 := TextractCompleted(d, true)], queued, deleted, {})
  }

  /** The upload's message is deleted, and the completion is message 1. */
  function Published(d: string, key: IdempotencyKey): State {
    State(Mailed(d, {1}, {0}), map[d := PROCESSING], map[d := MARKED], map[d := OcrRow(key, STARTED, Some(7))], {d},
          map[0 := Idle, 1 := Busy(0, d, Preparing(UNDERWAY))])
  }

  /** Worker 2 handles the completion. */
  function Completing(d: string, row: JobRow, status: DocumentStatus, phase: Phase): State {
    State(Mailed(d, {1}, {0}), map[d := status], map[d := MARKED], map[d := row], {d},
          map[0 := Idle, 1 := Busy(0, d, Preparing(UNDERWAY)), 2 := Busy(1, d, phase)])
  }

  /** Both messages are deleted. */
  function Emptied(d: string, key: IdempotencyKey, status: DocumentStatus, second: Worker): State {
    State(Mailed(d, {}, {0, 1}), map[d := status], map[d := MARKED], map[d := OcrRow(key, COMPLETED, Some(7))], {d},
          map[0 := Idle, 1 := second, 2 := Idle])
  }

  lemma BothRead(d: string)
    ensures Leads(INITIAL, [Upload(d, 0, None), Receive(0, 0), Receive(1, 0)], Read(d))
  {
    ThreeLead(INITIAL, Upload(d, 0, None), Receive(0, 0), Receive(1, 0));
  }

  lemma BothStart(d: string)
    ensures Leads(Read(d), [StartPreprocess(0), StartPreprocess(1)], Started(d))
  {
    TwoLead(Read(d), StartPreprocess(0), StartPreprocess(1));
  }

  lemma FirstMarks(d: string)
    ensures Leads(Started(d), [CompletePreprocess(0), MarkProcessing(0)], Marked(d))
  {
    TwoLead(Started(d), CompletePreprocess(0), MarkProcessing(0));
  }

  lemma FirstSends(d: string, key: IdempotencyKey)
    ensures Leads(Marked(d), [FetchOcr(0, key), StartOcr(0, true)], Sending(d, key))
  {
    TwoLead(Marked(d), FetchOcr(0, key), StartOcr(0, true));
  }

  lemma FirstSubmits(d: string, key: IdempotencyKey)
    ensures Leads(Sending(d, key), [Submit(0, 7)],
                  Sent(d, OcrRow(key, STARTED, None), Submitted(OcrRow(key, STARTED, None), 7)))
  {
    OneLeads(Sending(d, key), Submit(0, 7));
  }

  lemma IdIsSaved(rows: map<string, JobRow>, d: string, key: IdempotencyKey)
    requires rows == map[d := OcrRow(key, STARTED, None)]
    ensures Saved(rows, d, OcrRow(key, STARTED, None).(externalJobId := Some(7)), {ExternalIdColumn})
      == map[d := OcrRow(key, STARTED, Some(7))]
  {
  }

  lemma FirstRecords(d: string, key: IdempotencyKey)
    ensures Leads(Sent(d, OcrRow(key, STARTED, None), Submitted(OcrRow(key, STARTED, None), 7)), [RecordJobId(0)],
                  Sent(d, OcrRow(key, STARTED, Some(7)), Done))
  {
    var s := Sent(d, OcrRow(key, STARTED, None), Submitted(OcrRow(key, STARTED, None), 7));
    OneLeads(s, RecordJobId(0));
    IdIsSaved(s.ocr, d, key);
  }

  lemma FirstDeletes(d: string, key: IdempotencyKey)
    ensures Leads(Sent(d, OcrRow(key, STARTED, Some(7)), Done), [Delete(0)], Cleared(d, key))
  {
    OneLeads(Sent(d, OcrRow(key, STARTED, Some(7)), Done), Delete(0));
  }

  lemma CompletionComes(d: string, key: IdempotencyKey)
    ensures Leads(Cleared(d, key), [Publish(d, 1, true)], Published(d, key))
  {
    OneLeads(Cleared(d, key), Publish(d, 1, true));
  }

  lemma CompletionIsReceived(d: string, key: IdempotencyKey)
    ensures var row := OcrRow(key, STARTED, Some(7));
      Leads(Published(d, key), [Receive(2, 1)], Completing(d, row, PROCESSING, ReadOutcome(row, true)))
  {
    OneLeads(Published(d, key), Receive(2, 1));
  }

  lemma OutcomeIsRecorded(d: string, key: IdempotencyKey)
    ensures var row := OcrRow(key, STARTED, Some(7));
      Leads(Completing(d, row, PROCESSING, ReadOutcome(row, true)), [RecordOutcome(2, "")],
            Completing(d, OcrRow(key, COMPLETED, Some(7)), PROCESSING, Concluded(true)))
  {
    var row := OcrRow(key, STARTED, Some(7));
    OneLeads(Completing(d, row, PROCESSING, ReadOutcome(row, true)), RecordOutcome(2, ""));
  }

  lemma CompletionSettles(d: string, key: IdempotencyKey)
    ensures var row := OcrRow(key, COMPLETED, Some(7));
      Leads(Completing(d, row, PROCESSING, Concluded(true)), [Settle(2, Returned)], Completing(d, row, PROCESSED, Done))
  {
    OneLeads(Completing(d, OcrRow(key, COMPLETED, Some(7)), PROCESSING, Concluded(true)), Settle(2, Returned));
  }

  lemma CompletionIsDeleted(d: string, key: IdempotencyKey)
    ensures Leads(Completing(d, OcrRow(key, COMPLETED, Some(7)), PROCESSED, Done), [Delete(2)],
                  Emptied(d, key, PROCESSED, Busy(0, d, Preparing(UNDERWAY))))
  {
    OneLeads(Completing(d, OcrRow(key, COMPLETED, Some(7)), PROCESSED, Done), Delete(2));
  }

  lemma SecondMarks(d: string, key: IdempotencyKey)
    ensures Leads(Emptied(d, key, PROCESSED, Busy(0, d, Preparing(UNDERWAY))),
                  [CompletePreprocess(1), MarkProcessing(1)], Emptied(d, key, PROCESSING, Busy(0, d, Routing)))
  {
    TwoLead(Emptied(d, key, PROCESSED, Busy(0, d, Preparing(UNDERWAY))), CompletePreprocess(1), MarkProcessing(1));
  }

  lemma SecondFetches(d: string, key: IdempotencyKey)
    ensures Leads(Emptied(d, key, PROCESSING, Busy(0, d, Routing)), [FetchOcr(1, key)],
                  Emptied(d, key, PROCESSING, Busy(0, d, ReadOcr(OcrRow(key, COMPLETED, Some(7))))))
  {
    OneLeads(Emptied(d, key, PROCESSING, Busy(0, d, Routing)), FetchOcr(1, key));
  }

  lemma SecondSkips(d: string, key: IdempotencyKey)
    ensures Leads(Emptied(d, key, PROCESSING, Busy(0, d, ReadOcr(OcrRow(key, COMPLETED, Some(7))))), [StartOcr(1, true)],
                  Emptied(d, key, PROCESSING, Busy(0, d, Done)))
  {
    OneLeads(Emptied(d, key, PROCESSING, Busy(0, d, ReadOcr(OcrRow(key, COMPLETED, Some(7))))), StartOcr(1, true));
  }

  lemma SecondDeletes(d: string, key: IdempotencyKey)
    ensures Leads(Emptied(d, key, PROCESSING, Busy(0, d, Done)), [Delete(1)], Emptied(d, key, PROCESSING, Idle))
  {
    OneLeads(Emptied(d, key, PROCESSING, Busy(0, d, Done)), Delete(1));
  }

  /** Two workers read the row of one upload before either completes it, and the first of them submits it. */
  function FirstDelivery(d: string, key: IdempotencyKey): seq<Action> {
    [Upload(d, 0, None), Receive(0, 0), Receive(1, 0)] + [StartPreprocess(0), StartPreprocess(1)]
    + [CompletePreprocess(0), MarkProcessing(0)] + [FetchOcr(0, key), StartOcr(0, true)]
    + [Submit(0, 7)] + [RecordJobId(0)] + [Delete(0)]
  }

  /** Its completion is handled. */
  function CompletionHandled(d: string): seq<Action> {
    [Publish(d, 1, true)] + [Receive(2, 1)] + [RecordOutcome(2, "")] + [Settle(2, Returned)] + [Delete(2)]
  }

  /** The second then finishes preprocessing, and finds the OCR row completed. */
  function SecondDelivery(key: IdempotencyKey): seq<Action> {
    [CompletePreprocess(1), MarkProcessing(1)] + [FetchOcr(1, key)] + [StartOcr(1, true)] + [Delete(1)]
  }

  lemma FirstLeads(d: string, key: IdempotencyKey)
    ensures Leads(INITIAL, FirstDelivery(d, key), Cleared(d, key))
  {
    var r1 := [Upload(d, 0, None), Receive(0, 0), Receive(1, 0)];
    var r2 := r1 + [StartPreprocess(0), StartPreprocess(1)];
    var r3 := r2 + [CompletePreprocess(0), MarkProcessing(0)];
    var r4 := r3 + [FetchOcr(0, key), StartOcr(0, true)];
    var fetched, recorded := OcrRow(key, STARTED, None), OcrRow(key, STARTED, Some(7));
    BothRead(d);
    BothStart(d);
    LeadsOn(INITIAL, r1, Read(d), [StartPreprocess(0), StartPreprocess(1)], Started(d));
    FirstMarks(d);
    LeadsOn(INITIAL, r2, Started(d), [CompletePreprocess(0), MarkProcessing(0)], Marked(d));
    FirstSends(d, key);
    LeadsOn(INITIAL, r3, Marked(d), [FetchOcr(0, key), StartOcr(0, true)], Sending(d, key));
    FirstSubmits(d, key);
    LeadsOn(INITIAL, r4, Sending(d, key), [Submit(0, 7)], Sent(d, fetched, Submitted(fetched, 7)));
    FirstRecords(d, key);
    LeadsOn(INITIAL, r4 + [Submit(0, 7)], Sent(d, fetched, Submitted(fetched, 7)), [RecordJobId(0)], Sent(d, recorded, Done));
    FirstDeletes(d, key);
    LeadsOn(INITIAL, r4 + [Submit(0, 7)] + [RecordJobId(0)], Sent(d, recorded, Done), [Delete(0)], Cleared(d, key));
  }

  lemma CompletionLeads(d: string, key: IdempotencyKey)
    ensures Leads(Cleared(d, key), CompletionHandled(d), Emptied(d, key, PROCESSED, Busy(0, d, Preparing(UNDERWAY))))
  {
    var s, row, done := Cleared(d, key), OcrRow(key, STARTED, Some(7)), OcrRow(key, COMPLETED, Some(7));
    var r1 := [Publish(d, 1, true)];
    var r2 := r1 + [Receive(2, 1)];
    var r3 := r2 + [RecordOutcome(2, "")];
    CompletionComes(d, key);
    CompletionIsReceived(d, key);
    LeadsOn(s, r1, Published(d, key), [Receive(2, 1)], Completing(d, row, PROCESSING, ReadOutcome(row, true)));
    OutcomeIsRecorded(d, key);
    LeadsOn(s, r2, Completing(d, row, PROCESSING, ReadOutcome(row, true)), [RecordOutcome(2, "")],
            Completing(d, done, PROCESSING, Concluded(true)));
    CompletionSettles(d, key);
    LeadsOn(s, r3, Completing(d, done, PROCESSING, Concluded(true)), [Settle(2, Returned)],
            Completing(d, done, PROCESSED, Done));
    CompletionIsDeleted(d, key);
    LeadsOn(s, r3 + [Settle(2, Returned)], Completing(d, done, PROCESSED, Done), [Delete(2)],
            Emptied(d, key, PROCESSED, Busy(0, d, Preparing(UNDERWAY))));
  }

  lemma SecondLeads(d: string, key: IdempotencyKey)
    ensures Leads(Emptied(d, key, PROCESSED, Busy(0, d, Preparing(UNDERWAY))), SecondDelivery(key),
                  Emptied(d, key, PROCESSING, Idle))
  {
    var s, row := Emptied(d, key, PROCESSED, Busy(0, d, Preparing(UNDERWAY))), OcrRow(key, COMPLETED, Some(7));
    var r1 := [CompletePreprocess(1), MarkProcessing(1)];
    SecondMarks(d, key);
    SecondFetches(d, key);
    LeadsOn(s, r1, Emptied(d, key, PROCESSING, Busy(0, d, Routing)), [FetchOcr(1, key)],
            Emptied(d, key, PROCESSING, Busy(0, d, ReadOcr(row))));
    SecondSkips(d, key);
    LeadsOn(s, r1 + [FetchOcr(1, key)], Emptied(d, key, PROCESSING, Busy(0, d, ReadOcr(row))), [StartOcr(1, true)],
            Emptied(d, key, PROCESSING, Busy(0, d, Done)));
    SecondDeletes(d, key);
    LeadsOn(s, r1 + [FetchOcr(1, key)] + [StartOcr(1, true)], Emptied(d, key, PROCESSING, Busy(0, d, Done)), [Delete(1)],
            Emptied(d, key, PROCESSING, Idle));
  }

  /**
   After the first delivery and its completion the document is settled and both messages are
   deleted. The second delivery then leaves it PROCESSING, with no message and no worker to settle it.
   */
  lemma SlowPreprocessReopens(d: string, key: IdempotencyKey)
    ensures var run := FirstDelivery(d, key) + CompletionHandled(d);
      var between := After(INITIAL, run, |run|);
      DeletedCompletion(between, 1, d) && IsSettled(between, d) && between.mail.queued == {}
    ensures var run := FirstDelivery(d, key) + CompletionHandled(d) + SecondDelivery(key);
      var end := After(INITIAL, run, |run|);
      && DeletedCompletion(end, 1, d) && d in end.statuses && end.statuses[d] == PROCESSING
      && end.mail.queued == {} && end.mail.deadLettered == {} && forall w :: At(end, w) == Idle
  {
    FirstLeads(d, key);
    CompletionLeads(d, key);
    LeadsOn(INITIAL, FirstDelivery(d, key), Cleared(d, key), CompletionHandled(d),
            Emptied(d, key, PROCESSED, Busy(0, d, Preparing(UNDERWAY))));
    SecondLeads(d, key);
    LeadsOn(INITIAL, FirstDelivery(d, key) + CompletionHandled(d), Emptied(d, key, PROCESSED, Busy(0, d, Preparing(UNDERWAY))),
            SecondDelivery(key), Emptied(d, key, PROCESSING, Idle));
  }
}
