/**
 The Textract completion handler (coordinator.py `handle_textract_completed` down to
 `_extract_and_link`) and the consumer that deletes or leaves its message (sqs_consumer.py).
 */
module Completion {
  import opened Prelude
  import opened Repository

  datatype DocumentStatus = UPLOADED | READY_FOR_PROCESSING | PROCESSING | PROCESSED | FAILED_DOCUMENT | QUARANTINED_DOCUMENT

  predicate Settled(status: DocumentStatus) {
    status == PROCESSED || status == FAILED_DOCUMENT || status == QUARANTINED_DOCUMENT
  }

  /** How `run_extraction.run` ends. A Bedrock access refusal is not a client error: it is `OtherError`. */
  datatype RunOutcome =
    | Returned
    | ConfigMissing
    | OverTableBudget
    | ClientError(code: string)
    | ConnectionLost
    | OtherError

  const TRANSIENT_BEDROCK_ERRORS := {
    "ThrottlingException", "TooManyRequestsException", "ServiceUnavailableException",
    "ServiceQuotaExceededException", "ModelTimeoutException", "ModelNotReadyException",
    "InternalServerException", "RequestTimeout"}

  /** The status a completion settles its document on, if it settles it at all. */
  function Verdict(succeeded: bool, run: RunOutcome): Option<DocumentStatus> {
    if !succeeded then Some(FAILED_DOCUMENT) else
    match run
    case Returned => Some(PROCESSED)
    case ConfigMissing => Some(PROCESSED)
    case OverTableBudget => Some(QUARANTINED_DOCUMENT)
    case ClientError(code) => if code in TRANSIENT_BEDROCK_ERRORS then None else Some(FAILED_DOCUMENT)
    case ConnectionLost => None
    case OtherError => None
  }

  /** The codes worth another delivery, one by one. */
  predicate IsThrottleOrOutage(code: string) {
    || code == "ThrottlingException" || code == "TooManyRequestsException" || code == "ServiceUnavailableException"
    || code == "ServiceQuotaExceededException" || code == "ModelTimeoutException" || code == "ModelNotReadyException"
    || code == "InternalServerException" || code == "RequestTimeout"
  }

  /** Extraction ended in a way a later delivery could get past. */
  predicate IsWorthRetrying(run: RunOutcome) {
    run.ConnectionLost? || run.OtherError? || (run.ClientError? && IsThrottleOrOutage(run.code))
  }

  /**
   How a completion ends: FAILED when Textract failed; else PROCESSED exactly when extraction returned or
   was skipped for configuration, QUARANTINED exactly over the table ceiling, FAILED exactly on a
   client error that is neither a throttle nor an outage.
   */
  ghost predicate EndsAs(succeeded: bool, run: RunOutcome, status: DocumentStatus) {
    && (!succeeded ==> status == FAILED_DOCUMENT)
    && (succeeded ==>
      && !IsWorthRetrying(run)
      && (status == PROCESSED <==> run.Returned? || run.ConfigMissing?)
      && (status == QUARANTINED_DOCUMENT <==> run.OverTableBudget?)
      && (status == FAILED_DOCUMENT <==> run.ClientError? && !IsThrottleOrOutage(run.code)))
  }

  /** There is no verdict exactly when Textract succeeded and extraction is worth retrying. */
  lemma VerdictIs(succeeded: bool, run: RunOutcome)
    ensures Verdict(succeeded, run).None? <==> succeeded && IsWorthRetrying(run)
    ensures Verdict(succeeded, run).Some? ==> EndsAs(succeeded, run, Verdict(succeeded, run).value)
  {
  }

  ghost predicate Has(faults: Point -> Fault, fault: Fault) {
    exists p :: faults(p) == fault
  }

  ghost predicate NoFaults(faults: Point -> Fault) {
    forall p :: faults(p) == Fine
  }

  /** The effects of the handler that may raise or be cut short by the worker dying. */
  datatype Point =
    | LoadDocument | FetchJob | RecordFailure | FetchResults | PutDerived | SaveDocument | CompleteJob
    | FetchNormalizeJob | StartNormalize | ParseAndInsert | CompleteNormalize | MarkStages | SetStatus

  datatype Fault = Fine | Raises | Dies

  datatype Outcome = HandlerReturned | HandlerRaised | WorkerDied

  /** The document row and the job rows of the stages the handler runs. */
  class DocumentRecord {
    var status: DocumentStatus
    var jobs: map<Stage, JobStatus>

    constructor (status: DocumentStatus)
      ensures this.status == status && jobs == map[]
    {
      this.status, jobs := status, map[];
    }

    /** `mark`: EXTRACT and LINK take the status unless they already completed. */
    method Mark(stageStatus: JobStatus)
      modifies this`jobs
      ensures forall stage :: stage in {EXTRACT, LINK} ==>
        stage in jobs && jobs[stage] ==
          if stage in old(jobs) && old(jobs)[stage] == COMPLETED then COMPLETED else stageStatus
      ensures forall stage :: stage !in {EXTRACT, LINK} ==>
        (stage in jobs <==> stage in old(jobs)) && (stage in jobs ==> jobs[stage] == old(jobs)[stage])
    {
      if !(EXTRACT in jobs && jobs[EXTRACT] == COMPLETED) {
        jobs := jobs[EXTRACT := stageStatus];
      }
      if !(LINK in jobs && jobs[LINK] == COMPLETED) {
        jobs := jobs[LINK := stageStatus];
      }
    }

    /** Run EXTRACT and LINK; `settled` tells the caller not to write PROCESSED over the verdict. */
    method ExtractAndLink(run: RunOutcome, faults: Point -> Fault) returns (outcome: Outcome, settled: bool)
      modifies this
      ensures outcome == HandlerReturned ==> Verdict(true, run).Some?
      ensures outcome == HandlerReturned && settled ==>
        Verdict(true, run) == Some(status) && status != PROCESSED
      ensures !(outcome == HandlerReturned && settled) ==> status == old(status)
      ensures outcome == HandlerReturned && !settled ==> Verdict(true, run) == Some(PROCESSED)
      ensures (forall p :: faults(p) == Fine) && Verdict(true, run).Some? ==> outcome == HandlerReturned
      ensures Verdict(true, run).None? ==> outcome == HandlerRaised
      ensures NoFaults(faults) ==> (outcome == HandlerRaised <==> IsWorthRetrying(run)) && outcome != WorkerDied
      ensures outcome == HandlerReturned ==> EndsAs(true, run, if settled then status else PROCESSED)
      ensures outcome == HandlerReturned ==> StagesMarked(old(jobs), jobs, run)
      ensures outcome == HandlerRaised ==> IsWorthRetrying(run) || Has(faults, Raises)
      ensures outcome == WorkerDied ==> Has(faults, Dies)
    {
      VerdictIs(true, run);
      match run {
        case Returned =>
          return HandlerReturned, false;
        case ConfigMissing =>
          outcome := Effect(MarkStages, faults);
          if outcome == HandlerReturned {
            Mark(SKIPPED);
          }
          return outcome, false;
        case OverTableBudget =>
          outcome := Effect(MarkStages, faults);
          if outcome != HandlerReturned { return outcome, false; }
          Mark(QUARANTINED);
          outcome := Effect(SetStatus, faults);
          if outcome != HandlerReturned { return outcome, false; }
          status := QUARANTINED_DOCUMENT;
          return HandlerReturned, true;
        case ClientError(code) =>
          if code in TRANSIENT_BEDROCK_ERRORS { return HandlerRaised, false; }
          outcome := Effect(MarkStages, faults);
          if outcome != HandlerReturned { return outcome, false; }
          Mark(FAILED);
          outcome := Effect(SetStatus, faults);
          if outcome != HandlerReturned { return outcome, false; }
          status := FAILED_DOCUMENT;
          return HandlerReturned, true;
        case ConnectionLost =>
          return HandlerRaised, false;
        case OtherError =>
          return HandlerRaised, false;
      }
    }

    /** Attempt one effect. */
    static method Effect(point: Point, faults: Point -> Fault) returns (outcome: Outcome)
      ensures outcome == Attempt(point, faults)
      ensures outcome == HandlerRaised ==> Has(faults, Raises)
      ensures outcome == WorkerDied ==> Has(faults, Dies)
    {
      match faults(point) {
        case Fine => outcome := HandlerReturned;
        case Raises => outcome := HandlerRaised;
        case Dies => outcome := WorkerDied;
      }
    }

    method NormaliseDocument(run: RunOutcome, faults: Point -> Fault) returns (outcome: Outcome)
      modifies this
      ensures Handled(old(status), true, run, faults, outcome, status)
      ensures Ended(true, run, faults, outcome, status)
      ensures outcome == HandlerReturned ==>
        && NORMALIZE in jobs && jobs[NORMALIZE] == COMPLETED
        && (OCR in old(jobs) ==> OCR in jobs && jobs[OCR] == old(jobs)[OCR])
    {
      outcome := Effect(FetchNormalizeJob, faults);
      if outcome != HandlerReturned { return; }
      outcome := Effect(StartNormalize, faults);
      if outcome != HandlerReturned { return; }
      jobs := jobs[NORMALIZE := STARTED];
      outcome := Effect(ParseAndInsert, faults);
      if outcome == HandlerReturned {
        outcome := Effect(CompleteNormalize, faults);
      }
      match outcome {
        case WorkerDied =>
          return;
        case HandlerRaised =>
          jobs := jobs[NORMALIZE := FAILED];
          return;
        case HandlerReturned =>
          jobs := jobs[NORMALIZE := COMPLETED];
      }
      var settled: bool;
      outcome, settled := ExtractAndLink(run, faults);
      if outcome == HandlerReturned && !settled {
        outcome := Effect(SetStatus, faults);
        if outcome == HandlerReturned {
          status := PROCESSED;
        }
      }
    }

    method HandleTextractCompleted(succeeded: bool, run: RunOutcome, faults: Point -> Fault) returns (outcome: Outcome)
      modifies this
      ensures Handled(old(status), succeeded, run, faults, outcome, status)
      ensures Ended(succeeded, run, faults, outcome, status)
      ensures outcome == HandlerReturned ==>
        OCR in jobs && jobs[OCR] == if succeeded then COMPLETED else QUARANTINED
    {
      outcome := Effect(LoadDocument, faults);
      if outcome != HandlerReturned { return; }
      outcome := Effect(FetchJob, faults);
      if outcome != HandlerReturned { return; }
      if !succeeded {
        outcome := Effect(RecordFailure, faults);
        if outcome != HandlerReturned { return; }
        jobs := jobs[OCR := QUARANTINED];
        outcome := Effect(SetStatus, faults);
        if outcome == HandlerReturned {
          status := FAILED_DOCUMENT;
        }
        return;
      }
      outcome := Effect(FetchResults, faults);
      if outcome != HandlerReturned { return; }
      outcome := Effect(PutDerived, faults);
      if outcome != HandlerReturned { return; }
      outcome := Effect(SaveDocument, faults);
      if outcome != HandlerReturned { return; }
      outcome := Effect(CompleteJob, faults);
      if outcome != HandlerReturned { return; }
      jobs := jobs[OCR := COMPLETED];
      outcome := NormaliseDocument(run, faults);
    }
  }

  function Attempt(point: Point, faults: Point -> Fault): Outcome {
    match faults(point)
    case Fine => HandlerReturned
    case Raises => HandlerRaised
    case Dies => WorkerDied
  }

  /**
   The handler returns only having settled the document on its verdict; on every other path it
   leaves the status as it found it. Without faults it returns exactly when there is a verdict.
   */
  ghost predicate Handled(
      before: DocumentStatus, succeeded: bool, run: RunOutcome, faults: Point -> Fault, outcome: Outcome,
      after: DocumentStatus)
  {
    && (outcome == HandlerReturned ==> Verdict(succeeded, run) == Some(after))
    && (outcome != HandlerReturned ==> after == before)
    && ((forall p :: faults(p) == Fine) ==> (outcome == HandlerReturned <==> Verdict(succeeded, run).Some?))
  }

  /** What a run leaves on the EXTRACT and LINK rows: nothing new, or its mark where not completed. */
  ghost predicate StagesMarked(before: map<Stage, JobStatus>, after: map<Stage, JobStatus>, run: RunOutcome) {
    && (run.Returned? ==> after == before)
    && (forall stage :: stage !in {EXTRACT, LINK} ==>
      (stage in after <==> stage in before) && (stage in before ==> after[stage] == before[stage]))
    && (!run.Returned? ==> forall stage :: stage in {EXTRACT, LINK} ==>
      stage in after &&
      if stage in before && before[stage] == COMPLETED then after[stage] == COMPLETED
      else
        && (run.ConfigMissing? ==> after[stage] == SKIPPED)
        && (run.OverTableBudget? ==> after[stage] == QUARANTINED)
        && (run.ClientError? ==> after[stage] == FAILED))
  }

  /**
   With no fault the handler raises exactly when Textract succeeded and extraction is worth retrying,
   and otherwise returns; whenever it returns the document ends as its outcome says. Otherwise some
   effect raised, or the worker died at one.
   */
  ghost predicate Ended(succeeded: bool, run: RunOutcome, faults: Point -> Fault, outcome: Outcome, status: DocumentStatus) {
    && (NoFaults(faults) ==> (outcome == HandlerRaised <==> succeeded && IsWorthRetrying(run)) && outcome != WorkerDied)
    && (outcome == HandlerReturned ==> EndsAs(succeeded, run, status))
    && (outcome == HandlerRaised ==> (succeeded && IsWorthRetrying(run)) || Has(faults, Raises))
    && (outcome == WorkerDied ==> Has(faults, Dies))
  }

  // ------------------------------------------------------------------------
  // Routing and the consumer
  // ------------------------------------------------------------------------

  /** A queue message body, as far as routing looks at it. */
  datatype Body =
    | NotJson
    | NotificationNotJson
    | JobNotification(document: string, succeeded: bool)
    | OtherNotification
    | Event(eventType: string)
    | NoEventType

  datatype Route = Handler(name: string) | UnknownMessage | Malformed

  /** `parse_message` and the dispatch table; an undecodable inner notification raises. */
  function RouteOf(body: Body): Route {
    match body
    case NotJson => Malformed
    case NotificationNotJson => Malformed
    case JobNotification(_, _) => Handler("TextractCompleted")
    case OtherNotification => UnknownMessage
    case Event(eventType) =>
      if eventType in {"DocumentReady", "TextractCompleted", "QuoteExportRequested"}
      then Handler(eventType) else UnknownMessage
    case NoEventType => UnknownMessage
  }

  /** A message names a handler exactly as a completion of Textract's or as one of three events. */
  lemma RouteIs(body: Body)
    ensures RouteOf(body).Handler? <==>
      body.JobNotification?
      || (body.Event? && (body.eventType == "DocumentReady" || body.eventType == "TextractCompleted"
                          || body.eventType == "QuoteExportRequested"))
    ensures RouteOf(body).Malformed? <==> body.NotJson? || body.NotificationNotJson?
    ensures body.JobNotification? ==> RouteOf(body) == Handler("TextractCompleted")
    ensures body.Event? && RouteOf(body).Handler? ==> RouteOf(body) == Handler(body.eventType)
  {
  }

  class Queue {
    var messages: map<nat, Body>

    constructor (messages: map<nat, Body>)
      ensures this.messages == messages
    {
      this.messages := messages;
    }

    /**
     One delivery of a completion. A message leaves the queue only by being undecodable, by
     matching no handler, or by its handler having returned; every raising path leaves it.
     */
    method ProcessCompletion(
        id: nat, record: DocumentRecord, run: RunOutcome, faults: Point -> Fault, deleteWorks: bool)
      requires id in messages && (RouteOf(messages[id]).Handler? ==> messages[id].JobNotification?)
      modifies this, record
      ensures messages == old(messages) || messages == old(messages) - {id}
      ensures id !in messages ==>
        || old(messages)[id].NotJson?
        || RouteOf(old(messages)[id]).UnknownMessage?
        || (old(messages)[id].JobNotification?
            && Verdict(old(messages)[id].succeeded, run) == Some(record.status))
      ensures old(messages)[id].JobNotification? && Verdict(old(messages)[id].succeeded, run).None? ==>
        id in messages && record.status == old(record.status)
      ensures old(messages)[id].NotificationNotJson? ==> id in messages
      ensures deleteWorks && (forall p :: faults(p) == Fine) && old(messages)[id].JobNotification? ==>
        (id !in messages <==> Verdict(old(messages)[id].succeeded, run).Some?)
      ensures deleteWorks && NoFaults(faults) && old(messages)[id].JobNotification? ==>
        (id in messages <==> old(messages)[id].succeeded && IsWorthRetrying(run))
      ensures id !in messages && old(messages)[id].JobNotification? ==>
        EndsAs(old(messages)[id].succeeded, run, record.status)
      ensures !old(messages)[id].JobNotification? ==>
        && record.status == old(record.status)
        && (id !in messages <==> deleteWorks && !old(messages)[id].NotificationNotJson?)
    {
      VerdictIs(messages[id].JobNotification? && messages[id].succeeded, run);
      var done := false;
      if messages[id].NotJson? {
        done := true;
      } else {
        match RouteOf(messages[id]) {
          case Malformed =>
          case UnknownMessage =>
            done := true;
          case Handler(_) =>
            var outcome := record.HandleTextractCompleted(messages[id].succeeded, run, faults);
            done := outcome == HandlerReturned;
        }
      }
      if done && deleteWorks {
        messages := messages - {id};
      }
    }
  }
}
