/**
 Runs of many workers over both kinds of document message, from upload to verdict
 (coordinator.py `handle_document_ready`, `_submit_ocr` and `handle_textract_completed`;
 sqs_consumer.py `_process`).

 Messages are delivered at least once and in any order, so several workers can hold one message
 or several messages of one document. Each holds a copy of a job row that goes stale, and may
 raise or die between any two steps.
 */
module DocumentRuns {
  import opened Prelude
  import opened Repository
  import opened Completion

  datatype Message =
    | DocumentReady(document: string, key: Option<IdempotencyKey>)
    | TextractCompleted(document: string, succeeded: bool)

  /**
   Where a handler is. `ReadPreprocess` has read the PREPROCESS row, `Preparing` has started it,
   `Prepared` has completed it; `Routing` is about to read the OCR row. `Refused` has quarantined
   a row. `Concluded` has recorded Textract's outcome on the OCR row. `Done` has returned.
   */
  datatype Phase =
    | ReadPreprocess(copy: JobRow) | Preparing(copy: JobRow) | Prepared(copy: JobRow) | Refused
    | Routing | ReadOcr(copy: JobRow) | Submitting(copy: JobRow) | Submitted(copy: JobRow, jobId: nat)
    | ReadOutcome(copy: JobRow, succeeded: bool) | Concluded(succeeded: bool) | Done

  datatype Worker = Idle | Busy(id: nat, document: string, phase: Phase)

  datatype Mail = Mail(messages: map<nat, Message>, queued: set<nat>, deleted: set<nat>, deadLettered: set<nat>)

  /** `submitted` are the documents for which Textract has a job. */
  datatype State = State(
    mail: Mail, statuses: map<string, DocumentStatus>, preprocess: map<string, JobRow>,
    ocr: map<string, JobRow>, submitted: set<string>, workers: map<nat, Worker>)

  const INITIAL := State(Mail(map[], {}, {}, {}), map[], map[], map[], {}, map[])

  datatype Action =
    | Upload(document: string, id: nat, key: Option<IdempotencyKey>)
    | Publish(document: string, id: nat, succeeded: bool)
    | DeadLetter(id: nat)
    | Receive(w: nat, id: nat)
    | StartPreprocess(w: nat)
    | CompletePreprocess(w: nat)
    | RefusePreprocess(w: nat, error: string)
    | FailPreprocess(w: nat, error: string)
    | MarkProcessing(w: nat)
    | MarkQuarantined(w: nat)
    | FetchOcr(w: nat, ocrKey: IdempotencyKey)
    | StartOcr(w: nat, routed: bool)
    | Submit(w: nat, jobId: nat)
    | RecordJobId(w: nat)
    | RefuseSubmission(w: nat, error: string)
    | FailSubmission(w: nat, error: string)
    | RecordOutcome(w: nat, error: string)
    | Settle(w: nat, run: RunOutcome)
    | Stop(w: nat)
    | Delete(w: nat)

  /** Actions of the world outside the workers. */
  predicate IsOutside(a: Action) {
    a.Upload? || a.Publish? || a.DeadLetter?
  }

  /** A step inside a handler. */
  predicate IsMove(a: Action) {
    !IsOutside(a) && !a.Receive? && !a.Stop? && !a.Delete?
  }

  function At(s: State, w: nat): Worker {
    if w in s.workers then s.workers[w] else Idle
  }

  function Stored(rows: map<string, JobRow>, document: string): Option<JobRow> {
    if document in rows then Some(rows[document]) else None
  }

  /** The phases a worker's next step is taken from. */
  predicate Expects(phase: Phase, a: Action) {
    match a
    case StartPreprocess(_) => phase.ReadPreprocess?
    case CompletePreprocess(_) => phase.Preparing?
    case RefusePreprocess(_, _) => phase.Preparing?
    case FailPreprocess(_, _) => phase.Preparing? || phase.Prepared?
    case MarkProcessing(_) => phase.Prepared?
    case MarkQuarantined(_) => phase.Refused?
    case FetchOcr(_, _) => phase.Routing?
    case StartOcr(_, _) => phase.ReadOcr?
    case Submit(_, _) => phase.Submitting?
    case RecordJobId(_) => phase.Submitted?
    case RefuseSubmission(_, _) => phase.Submitting?
    case FailSubmission(_, _) => phase.Submitting? || phase.Submitted?
    case RecordOutcome(_, _) => phase.ReadOutcome?
    case Settle(_, run) => phase.Concluded? && Verdict(phase.succeeded, run).Some?
    case Delete(_) => phase.Done?
    case _ => false
  }

  /** An upload creates its document; Textract reports only on what was submitted to it. */
  predicate Enabled(s: State, a: Action) {
    match a
    case Upload(document, id, _) => document !in s.statuses && id !in s.mail.messages
    case Publish(document, id, _) => document in s.submitted && id !in s.mail.messages
    case DeadLetter(id) => id in s.mail.queued
    case Receive(w, id) => At(s, w).Idle? && id in s.mail.queued && id in s.mail.messages
    case Stop(_) => true
    case _ => At(s, a.w).Busy? && Expects(At(s, a.w).phase, a)
  }

  /** Save columns of a copy over its row; rows are never deleted, so a fetched one is there. */
  function Saved(rows: map<string, JobRow>, document: string, copy: JobRow, columns: set<Column>): map<string, JobRow> {
    if document in rows then rows[document := Save(rows[document], copy, columns)] else rows
  }

  function SavePreprocess(s: State, document: string, copy: JobRow, columns: set<Column>): State {
    s.(preprocess := Saved(s.preprocess, document, copy, columns))
  }

  function SaveOcr(s: State, document: string, copy: JobRow, columns: set<Column>): State {
    s.(ocr := Saved(s.ocr, document, copy, columns))
  }

  function SetStatus(s: State, document: string, status: DocumentStatus): State {
    s.(statuses := s.statuses[document := status])
  }

  function Enqueue(mail: Mail, id: nat, message: Message): Mail {
    mail.(messages := mail.messages[id := message], queued := mail.queued + {id})
  }

  function Received(s: State, message: Message): State {
    match message
    case DocumentReady(document, key) =>
      s.(preprocess := s.preprocess[document := Fetched(Stored(s.preprocess, document), key)])
    case TextractCompleted(document, _) => s.(ocr := s.ocr[document := Fetched(Stored(s.ocr, document), None)])
  }

  /** What a worker's step does to the database, the queue and Textract. */
  function Effect(s: State, d: string, phase: Phase, a: Action): State
    requires Expects(phase, a)
  {
    match a
    case StartPreprocess(_) =>
      if phase.copy.status == COMPLETED then s else SavePreprocess(s, d, Started(phase.copy), START_COLUMNS)
    case CompletePreprocess(_) => SavePreprocess(s, d, phase.copy.(status := COMPLETED), COMPLETE_COLUMNS)
    case RefusePreprocess(_, error) => SavePreprocess(s, d, Failed(phase.copy, error, true), FAIL_COLUMNS)
    case FailPreprocess(_, error) => SavePreprocess(s, d, Failed(phase.copy, error, false), FAIL_COLUMNS)
    case MarkProcessing(_) => SetStatus(s, d, PROCESSING)
    case MarkQuarantined(_) => SetStatus(s, d, QUARANTINED_DOCUMENT)
    case FetchOcr(_, ocrKey) => s.(ocr := s.ocr[d := Fetched(Stored(s.ocr, d), Some(ocrKey))])
    case StartOcr(_, routed) =>
      if phase.copy.status == COMPLETED || phase.copy.status == SKIPPED then s
      else if !routed then SaveOcr(s, d, phase.copy.(status := SKIPPED), {StatusColumn})
      else SaveOcr(s, d, Started(phase.copy), START_COLUMNS)
    case Submit(_, _) => s.(submitted := s.submitted + {d})
    case RecordJobId(_) => SaveOcr(s, d, phase.copy.(externalJobId := Some(phase.jobId)), {ExternalIdColumn})
    case RefuseSubmission(_, error) => SaveOcr(s, d, Failed(phase.copy, error, true), FAIL_COLUMNS)
    case FailSubmission(_, error) => SaveOcr(s, d, Failed(phase.copy, error, false), FAIL_COLUMNS)
    case RecordOutcome(_, error) =>
      if phase.succeeded then SaveOcr(s, d, phase.copy.(status := COMPLETED), COMPLETE_COLUMNS)
      else SaveOcr(s, d, Failed(phase.copy, error, true), FAIL_COLUMNS)
    case Settle(_, run) => SetStatus(s, d, Verdict(phase.succeeded, run).value)
    case _ => s
  }

  /** Where the handler is after its step, or nowhere when it raised. */
  function Next(s: State, d: string, phase: Phase, a: Action): Option<Phase>
    requires Expects(phase, a)
  {
    match a
    case StartPreprocess(_) =>
      if phase.copy.status == COMPLETED then Some(Routing) else Some(Preparing(Started(phase.copy)))
    case CompletePreprocess(_) => Some(Prepared(phase.copy.(status := COMPLETED)))
    case RefusePreprocess(_, _) => Some(Refused)
    case MarkProcessing(_) => Some(Routing)
    case MarkQuarantined(_) => Some(Done)
    case FetchOcr(_, ocrKey) => Some(ReadOcr(Fetched(Stored(s.ocr, d), Some(ocrKey))))
    case StartOcr(_, routed) =>
      if phase.copy.status == COMPLETED || phase.copy.status == SKIPPED || !routed then Some(Done)
      else Some(Submitting(Started(phase.copy)))
    case Submit(_, jobId) => Some(Submitted(phase.copy, jobId))
    case RecordJobId(_) => Some(Done)
    case RefuseSubmission(_, _) => Some(Refused)
    case RecordOutcome(_, _) => Some(Concluded(phase.succeeded))
    case Settle(_, _) => Some(Done)
    case _ => None
  }

  function Opened(s: State, message: Message): Phase {
    match message
    case DocumentReady(document, key) => ReadPreprocess(Fetched(Stored(s.preprocess, document), key))
    case TextractCompleted(document, succeeded) => ReadOutcome(Fetched(Stored(s.ocr, document), None), succeeded)
  }

  function Put(s: State, w: nat, worker: Worker): State {
    s.(workers := s.workers[w := worker])
  }

  function Apply(s: State, a: Action): State
    requires Enabled(s, a)
  {
    match a
    case Upload(document, id, key) =>
      SetStatus(s.(mail := Enqueue(s.mail, id, DocumentReady(document, key))), document, READY_FOR_PROCESSING)
    case Publish(document, id, succeeded) =>
      s.(mail := Enqueue(s.mail, id, TextractCompleted(document, succeeded)))
    case DeadLetter(id) =>
      s.(mail := s.mail.(queued := s.mail.queued - {id}, deadLettered := s.mail.deadLettered + {id}))
    case Receive(w, id) =>
      var message := s.mail.messages[id];
      Put(Received(s, message), w, Busy(id, message.document, Opened(s, message)))
    case Stop(w) => Put(s, w, Idle)
    case Delete(w) =>
      var id := At(s, w).id;
      Put(s.(mail := s.mail.(queued := s.mail.queued - {id}, deleted := s.mail.deleted + {id})), w, Idle)
    case _ =>
      var Busy(id, d, phase) := At(s, a.w);
      Put(Effect(s, d, phase, a), a.w,
          match Next(s, d, phase, a) case None => Idle case Some(next) => Busy(id, d, next))
  }

  /** An action that is not possible changes nothing. */
  function Act(s: State, a: Action): State {
    if Enabled(s, a) then Apply(s, a) else s
  }

  /** The state after the first `n` actions. */
  function After(start: State, run: seq<Action>, n: nat): State
    requires n <= |run|
  {
    if n == 0 then start else Act(After(start, run, n - 1), run[n - 1])
  }

  // ------------------------------------------------------------------------
  // Who writes a document's status
  // ------------------------------------------------------------------------

  /** The status an action writes on document `d`, if any. */
  function Writes(s: State, a: Action, d: string): Option<DocumentStatus> {
    if !Enabled(s, a) then None else
    match a
    case Upload(document, _, _) => if document == d then Some(READY_FOR_PROCESSING) else None
    case MarkProcessing(w) => if At(s, w).document == d then Some(PROCESSING) else None
    case MarkQuarantined(w) => if At(s, w).document == d then Some(QUARANTINED_DOCUMENT) else None
    case Settle(w, run) =>
      if At(s, w).document == d then Verdict(At(s, w).phase.succeeded, run) else None
    case _ => None
  }

  predicate Settles(s: State, a: Action, d: string) {
    Writes(s, a, d).Some? && Settled(Writes(s, a, d).value)
  }

  predicate Reopens(s: State, a: Action, d: string) {
    Writes(s, a, d) == Some(PROCESSING)
  }

  predicate IsSettled(s: State, d: string) {
    d in s.statuses && Settled(s.statuses[d])
  }

  lemma WritesAreTheStatus(s: State, a: Action, d: string)
    ensures var t := Act(s, a);
      match Writes(s, a, d)
      case None => (d in t.statuses <==> d in s.statuses) && (d in s.statuses ==> t.statuses[d] == s.statuses[d])
      case Some(status) => d in t.statuses && t.statuses[d] == status
  {
    if Enabled(s, a) && IsMove(a) {
      EffectWrites(s, At(s, a.w).document, At(s, a.w).phase, a);
    }
  }

  lemma EffectWrites(s: State, d: string, phase: Phase, a: Action)
    requires Expects(phase, a)
    ensures !a.MarkProcessing? && !a.MarkQuarantined? && !a.Settle? ==>
      Effect(s, d, phase, a).statuses == s.statuses
  {
  }

  // ------------------------------------------------------------------------
  // What the handlers' steps leave behind
  // ------------------------------------------------------------------------

  /** The status of a document's PREPROCESS row after each step that saves it. */
  lemma PreprocessIsSaved(s: State, d: string, phase: Phase, a: Action)
    requires Expects(phase, a) && d in s.preprocess
    ensures var was, row := s.preprocess[d], Effect(s, d, phase, a).preprocess;
      && d in row && row[d].idempotencyKey == was.idempotencyKey
      && (a.StartPreprocess? ==>
        if phase.copy.status == COMPLETED then row[d] == was && Next(s, d, phase, a) == Some(Routing)
        else row[d].status == STARTED && row[d].attempt == phase.copy.attempt + 1 && row[d].errorDetail == "")
      && (a.CompletePreprocess? ==> row[d].status == COMPLETED)
      && (a.RefusePreprocess? ==> row[d].status == QUARANTINED && Next(s, d, phase, a) == Some(Refused))
      && (a.FailPreprocess? ==> row[d].status == FAILED && Next(s, d, phase, a) == None)
      && (!(a.StartPreprocess? || a.CompletePreprocess? || a.RefusePreprocess? || a.FailPreprocess?) ==> row[d] == was)
  {
  }

  /** The status and the job id of a document's OCR row after each step that saves it. */
  lemma OcrIsSaved(s: State, d: string, phase: Phase, a: Action)
    requires Expects(phase, a) && d in s.ocr && !a.FetchOcr?
    ensures var was, row := s.ocr[d], Effect(s, d, phase, a).ocr;
      && d in row && row[d].idempotencyKey == was.idempotencyKey
      && (a.StartOcr? ==>
        if phase.copy.status in {COMPLETED, SKIPPED} then row[d] == was && Next(s, d, phase, a) == Some(Done)
        else if !a.routed then row[d].status == SKIPPED && Next(s, d, phase, a) == Some(Done)
        else row[d].status == STARTED && row[d].attempt == phase.copy.attempt + 1 && row[d].errorDetail == "")
      && (a.RecordJobId? ==> row[d].externalJobId == Some(phase.jobId) && row[d].status == was.status)
      && (a.RefuseSubmission? ==> row[d].status == QUARANTINED && Next(s, d, phase, a) == Some(Refused))
      && (a.FailSubmission? ==> row[d].status == FAILED && Next(s, d, phase, a) == None)
      && (a.RecordOutcome? ==> row[d].status == if phase.succeeded then COMPLETED else QUARANTINED)
      && (!a.RecordJobId? ==> row[d].externalJobId == was.externalJobId)
  {
  }

  /** The document's status after each step that writes it; every other step leaves it. */
  lemma StatusIsSaved(s: State, d: string, phase: Phase, a: Action)
    requires Expects(phase, a)
    ensures var after := Effect(s, d, phase, a).statuses;
      && (a.MarkProcessing? ==> after == s.statuses[d := PROCESSING])
      && (a.MarkQuarantined? ==> after == s.statuses[d := QUARANTINED_DOCUMENT])
      && (a.Settle? ==> d in after && EndsAs(phase.succeeded, a.run, after[d]) && forall x :: x in s.statuses && x != d ==>
            x in after && after[x] == s.statuses[x])
      && (!(a.MarkProcessing? || a.MarkQuarantined? || a.Settle?) ==> after == s.statuses)
  {
    if a.Settle? {
      VerdictIs(phase.succeeded, a.run);
    }
  }

  /** The row after it is fetched: as it was with a missing key filled in, or new. */
  predicate IsFetched(after: map<string, JobRow>, before: map<string, JobRow>, d: string, key: Option<IdempotencyKey>) {
    && d in after
    && (d in before && (key.None? || before[d].idempotencyKey.Some?) ==> after[d] == before[d])
    && (d in before && key.Some? && before[d].idempotencyKey.None? ==> after[d] == before[d].(idempotencyKey := key))
    && (d !in before ==> after[d] == JobRow(PENDING, 0, "", key, None))
  }

  /** A message taken up fetches its document's row, of one stage or the other, and the worker holds that copy. */
  lemma MessageIsOpened(s: State, w: nat, id: nat)
    requires Enabled(s, Receive(w, id))
    ensures var t, message := Apply(s, Receive(w, id)), s.mail.messages[id];
      && (message.DocumentReady? ==>
            && IsFetched(t.preprocess, s.preprocess, message.document, message.key) && t.ocr == s.ocr
            && At(t, w) == Busy(id, message.document, ReadPreprocess(t.preprocess[message.document])))
      && (message.TextractCompleted? ==>
            && IsFetched(t.ocr, s.ocr, message.document, None) && t.preprocess == s.preprocess
            && At(t, w) == Busy(id, message.document, ReadOutcome(t.ocr[message.document], message.succeeded)))
      && t.mail == s.mail && t.statuses == s.statuses
  {
  }

  /** So does the step that fetches the OCR row, and submitting makes Textract able to report. */
  lemma OcrIsFetched(s: State, d: string, phase: Phase, a: Action)
    requires Expects(phase, a) && (a.FetchOcr? || a.Submit?)
    ensures a.FetchOcr? ==>
      IsFetched(Effect(s, d, phase, a).ocr, s.ocr, d, Some(a.ocrKey)) && Next(s, d, phase, a) == Some(ReadOcr(Effect(s, d, phase, a).ocr[d]))
    ensures a.Submit? ==>
      Effect(s, d, phase, a) == s.(submitted := s.submitted + {d}) && Next(s, d, phase, a) == Some(Submitted(phase.copy, a.jobId))
  {
  }

  /**
   What a worker may do next, phase by phase: none is stuck but one whose extraction is worth
   retrying, and that one, like any other, may stop and leave its message to be delivered again.
   */
  lemma MayDo(s: State, a: Action)
    requires !IsOutside(a) && At(s, a.w).Busy? && !a.Receive?
    ensures var phase := At(s, a.w).phase;
      && (a.StartPreprocess? ==> (Enabled(s, a) <==> phase.ReadPreprocess?))
      && (a.CompletePreprocess? || a.RefusePreprocess? ==> (Enabled(s, a) <==> phase.Preparing?))
      && (a.FailPreprocess? ==> (Enabled(s, a) <==> phase.Preparing? || phase.Prepared?))
      && (a.MarkProcessing? ==> (Enabled(s, a) <==> phase.Prepared?))
      && (a.MarkQuarantined? ==> (Enabled(s, a) <==> phase.Refused?))
      && (a.FetchOcr? ==> (Enabled(s, a) <==> phase.Routing?)) && (a.StartOcr? ==> (Enabled(s, a) <==> phase.ReadOcr?))
      && (a.Submit? || a.RefuseSubmission? ==> (Enabled(s, a) <==> phase.Submitting?))
      && (a.FailSubmission? ==> (Enabled(s, a) <==> phase.Submitting? || phase.Submitted?))
      && (a.RecordJobId? ==> (Enabled(s, a) <==> phase.Submitted?))
      && (a.RecordOutcome? ==> (Enabled(s, a) <==> phase.ReadOutcome?))
      && (a.Settle? ==> (Enabled(s, a) <==> phase.Concluded? && !(phase.succeeded && IsWorthRetrying(a.run))))
      && (a.Delete? ==> (Enabled(s, a) <==> phase.Done?)) && (a.Stop? ==> Enabled(s, a))
  {
    if a.Settle? && At(s, a.w).phase.Concluded? {
      VerdictIs(At(s, a.w).phase.succeeded, a.run);
    }
  }

  /** Messages come to idle workers: any that is queued; an upload is of a new document, and Textract reports on what it was given. */
  lemma MayCome(s: State, w: nat, id: nat, document: string)
    ensures Enabled(s, Receive(w, id)) <==> At(s, w).Idle? && id in s.mail.queued && id in s.mail.messages
    ensures forall key :: Enabled(s, Upload(document, id, key)) <==> document !in s.statuses && id !in s.mail.messages
    ensures forall ok :: Enabled(s, Publish(document, id, ok)) <==> document in s.submitted && id !in s.mail.messages
    ensures Enabled(s, DeadLetter(id)) <==> id in s.mail.queued
  {
  }

  /** A message leaves the queue only when its handler returned or it is dead-lettered; raising leaves it. */
  lemma MailChanges(s: State, a: Action)
    requires Enabled(s, a)
    ensures var t := Apply(s, a);
      && (a.Delete? ==> t.mail.queued == s.mail.queued - {At(s, a.w).id} && At(s, a.w).id in t.mail.deleted)
      && (a.DeadLetter? ==> t.mail.queued == s.mail.queued - {a.id} && a.id in t.mail.deadLettered)
      && (a.Upload? || a.Publish? ==> t.mail.queued == s.mail.queued + {a.id})
      && (!(a.Delete? || a.DeadLetter? || a.Upload? || a.Publish?) ==> t.mail == s.mail)
      && (a.Delete? || a.Stop? ==> At(t, a.w) == Idle)
  {
  }
}
