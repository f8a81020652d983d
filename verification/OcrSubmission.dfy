/**
 OCR submission under at-least-once delivery (coordinator.py `_submit_ocr`, ocr.py `submit`).

 Any number of workers hold redelivered messages, read and write job rows column by column from
 copies that go stale, and may stop between any two steps. Textract is assumed only to answer a
 request token it has seen with the job that token started, or to refuse it.
 */
module OcrSubmission {
  import opened Prelude
  import opened Repository
  import opened PageMap

  /** What one worker is in the middle of. */
  datatype Worker =
    | Idle
    | Routed(document: string, route: Option<OcrRoute>, key: IdempotencyKey)
    | HasJob(document: string, route: Option<OcrRoute>, copy: JobRow)
    | Submitting(document: string, copy: JobRow)
    | Submitted(document: string, copy: JobRow, jobId: nat)
    | Failing(document: string, copy: JobRow)
    | Completing(document: string, copy: JobRow)

  /** `rows` are the OCR job rows; `started` are the Textract jobs ever started, by request token. */
  datatype State = State(
    rows: map<string, JobRow>, started: map<IdempotencyKey, nat>, issued: nat, workers: map<nat, Worker>)

  const INITIAL := State(map[], map[], 0, map[])

  function At(s: State, w: nat): Worker {
    if w in s.workers then s.workers[w] else Idle
  }

  /**
   One atomic step of worker `w`. `route` and `key` are what the manifest and the routing table
   say at that moment; both may have changed since another delivery read them.
   */
  datatype Action =
    | ReadRoutes(w: nat, document: string, version: string, config: string, route: Option<OcrRoute>)
    | GetOrCreateJob(w: nat)
    | StartOrSkip(w: nat)
    | PrepareFails(w: nat)
    | Resume(w: nat)
    | TextractStarts(w: nat, answered: bool)
    | TextractRepeats(w: nat)
    | TextractRefuses(w: nat)
    | RecordJobId(w: nat)
    | SaveFailure(w: nat, error: string, quarantine: bool)
    | CompletionArrives(w: nat, key: IdempotencyKey)
    | SaveCompletion(w: nat)
    | Crash(w: nat)

  /** `feature_types_for(route)` joined, or "NONE". */
  function FeatureSet(route: Option<OcrRoute>): string {
    match route
    case None => "NONE"
    case Some(r) => if r == TEXTRACT_TABLES then "TABLES,LAYOUT" else ""
  }

  function Token(copy: JobRow): IdempotencyKey
    requires copy.idempotencyKey.Some?
  {
    copy.idempotencyKey.value
  }

  predicate Enabled(s: State, a: Action) {
    match a
    case ReadRoutes(w, _, _, _, route) => At(s, w).Idle? && (route.Some? ==> PageMap.Routed(route.value))
    case GetOrCreateJob(w) => At(s, w).Routed?
    case StartOrSkip(w) => At(s, w).HasJob? && At(s, w).document in s.rows
    case PrepareFails(w) => At(s, w).Submitting?
    case Resume(w) => At(s, w).Submitting? && At(s, w).copy.externalJobId.Some?
    case TextractStarts(w, _) => CallsTextract(s, w) && Token(At(s, w).copy) !in s.started
    case TextractRepeats(w) => CallsTextract(s, w) && Token(At(s, w).copy) in s.started
    case TextractRefuses(w) => CallsTextract(s, w)
    case RecordJobId(w) => At(s, w).Submitted? && At(s, w).document in s.rows
    case SaveFailure(w, _, _) => (At(s, w).Failing? || At(s, w).Completing?) && At(s, w).document in s.rows
    case CompletionArrives(w, key) => At(s, w).Idle? && key in s.started
    case SaveCompletion(w) => At(s, w).Completing? && At(s, w).document in s.rows
    case Crash(w) => true
  }

  /** A submission with no recorded job id goes to Textract with the copy's key as its token. */
  predicate CallsTextract(s: State, w: nat) {
    At(s, w).Submitting? && At(s, w).copy.externalJobId.None? && At(s, w).copy.idempotencyKey.Some?
  }

  function SaveRow(s: State, document: string, copy: JobRow, columns: set<Column>): State
    requires document in s.rows
  {
    s.(rows := s.rows[document := Save(s.rows[document], copy, columns)])
  }

  function Stored(s: State, document: string): Option<JobRow> {
    if document in s.rows then Some(s.rows[document]) else None
  }

  /** What the action does to the rows and to Textract. */
  function Effect(s: State, a: Action): State
    requires Enabled(s, a)
  {
    var worker := At(s, a.w);
    match a
    case GetOrCreateJob(_) =>
      s.(rows := s.rows[worker.document := Fetched(Stored(s, worker.document), Some(worker.key))])
    case StartOrSkip(_) =>
      if worker.copy.status == COMPLETED || worker.copy.status == SKIPPED then s
      else if worker.route.None? then
        SaveRow(s, worker.document, worker.copy.(status := SKIPPED), {StatusColumn})
      else
        SaveRow(s, worker.document, Started(worker.copy), START_COLUMNS)
    case TextractStarts(_, _) =>
      s.(started := s.started[Token(worker.copy) := s.issued], issued := s.issued + 1)
    case RecordJobId(_) =>
      SaveRow(s, worker.document, worker.copy.(externalJobId := Some(worker.jobId)), {ExternalIdColumn})
    case SaveFailure(_, error, quarantine) =>
      SaveRow(s, worker.document, Failed(worker.copy, error, quarantine), FAIL_COLUMNS)
    case CompletionArrives(_, key) =>
      s.(rows := s.rows[key.document := Fetched(Stored(s, key.document), None)])
    case SaveCompletion(_) =>
      SaveRow(s, worker.document, worker.copy.(status := COMPLETED), COMPLETE_COLUMNS)
    case _ => s
  }

  /** What the acting worker is in the middle of afterwards. */
  function Next(s: State, a: Action): Worker
    requires Enabled(s, a)
  {
    var worker := At(s, a.w);
    match a
    case ReadRoutes(_, document, version, config, route) =>
      Routed(document, route, Digest(document, version, FeatureSet(route), config))
    case GetOrCreateJob(_) =>
      HasJob(worker.document, worker.route, Fetched(Stored(s, worker.document), Some(worker.key)))
    case StartOrSkip(_) =>
      if worker.copy.status == COMPLETED || worker.copy.status == SKIPPED || worker.route.None? then Idle
      else Submitting(worker.document, Started(worker.copy))
    case PrepareFails(_) => Failing(worker.document, worker.copy)
    case Resume(_) => Submitted(worker.document, worker.copy, worker.copy.externalJobId.value)
    case TextractStarts(_, answered) =>
      if answered then Submitted(worker.document, worker.copy, s.issued)
      else Failing(worker.document, worker.copy)
    case TextractRepeats(_) => Submitted(worker.document, worker.copy, s.started[Token(worker.copy)])
    case TextractRefuses(_) => Failing(worker.document, worker.copy)
    case CompletionArrives(_, key) => Completing(key.document, Fetched(Stored(s, key.document), None))
    case _ => Idle
  }

  function Apply(s: State, a: Action): State
    requires Enabled(s, a)
  {
    var t := Effect(s, a);
    t.(workers := t.workers[a.w := Next(s, a)])
  }

  /** The state after a run, or nothing when some action of it was not possible. */
  ghost function After(s: State, run: seq<Action>): Option<State>
    decreases |run|
  {
    if run == [] then Some(s)
    else if Enabled(s, run[0]) then After(Apply(s, run[0]), run[1..])
    else None
  }

  // ------------------------------------------------------------------------
  // The invariant
  // ------------------------------------------------------------------------

  /** A row keeps the key it was created with, and records no job but the one that key started. */
  ghost predicate RowFits(s: State, document: string, row: JobRow) {
    && row.idempotencyKey.Some?
    && row.idempotencyKey.value.document == document
    && (row.externalJobId.Some? ==>
      && row.idempotencyKey.value in s.started
      && row.externalJobId.value == s.started[row.idempotencyKey.value])
  }

  /** A copy, however stale, has the row's key and no job id the row's key did not start. */
  ghost predicate CopyFits(s: State, document: string, copy: JobRow) {
    && document in s.rows
    && copy.idempotencyKey == s.rows[document].idempotencyKey
    && RowFits(s, document, copy)
  }

  ghost predicate WorkerFits(s: State, worker: Worker) {
    match worker
    case Idle => true
    case Routed(document, _, key) => key.document == document
    case Submitted(document, copy, jobId) =>
      CopyFits(s, document, copy) && Token(copy) in s.started && s.started[Token(copy)] == jobId
    case _ => CopyFits(s, worker.document, worker.copy)
  }

  ghost predicate SharedFits(s: State) {
    && (forall d :: d in s.rows ==> RowFits(s, d, s.rows[d]))
    && (forall k :: k in s.started ==> k.document in s.rows && s.rows[k.document].idempotencyKey == Some(k))
  }

  ghost predicate Inv(s: State) {
    && SharedFits(s)
    && (forall w :: w in s.workers ==> WorkerFits(s, s.workers[w]))
  }

  /** What a step may do to the shared state without disturbing any other worker. */
  ghost predicate Grows(s: State, t: State) {
    && (forall d :: d in s.rows ==> d in t.rows && t.rows[d].idempotencyKey == s.rows[d].idempotencyKey)
    && (forall k :: k in s.started ==> k in t.started && t.started[k] == s.started[k])
    && (forall d :: d in s.rows && s.rows[d].externalJobId.Some? ==>
      t.rows[d].externalJobId == s.rows[d].externalJobId)
  }

  /** A save that leaves the key alone and records, if anything, the job of the row's key. */
  lemma SavingFits(s: State, document: string, copy: JobRow, columns: set<Column>)
    requires SharedFits(s) && document in s.rows && KeyColumn !in columns
    requires ExternalIdColumn in columns ==>
      copy.idempotencyKey == s.rows[document].idempotencyKey && copy.externalJobId.Some?
      && RowFits(s, document, copy)
    ensures SharedFits(SaveRow(s, document, copy, columns)) && Grows(s, SaveRow(s, document, copy, columns))
  {
    assert RowFits(s, document, s.rows[document]);
  }

  lemma FetchingFits(s: State, document: string, key: IdempotencyKey)
    requires SharedFits(s) && key.document == document
    ensures var copy := Fetched(Stored(s, document), Some(key));
      var t := s.(rows := s.rows[document := copy]);
      SharedFits(t) && Grows(s, t) && RowFits(t, document, copy)
  {
    if document in s.rows {
      assert RowFits(s, document, s.rows[document]);
      assert s.rows[document := s.rows[document]] == s.rows;
    }
  }

  lemma StartingFits(s: State, document: string, copy: JobRow)
    requires SharedFits(s) && CopyFits(s, document, copy) && Token(copy) !in s.started
    ensures var t := s.(started := s.started[Token(copy) := s.issued], issued := s.issued + 1);
      SharedFits(t) && Grows(s, t)
  {
    var t := s.(started := s.started[Token(copy) := s.issued], issued := s.issued + 1);
    forall d | d in t.rows
      ensures RowFits(t, d, t.rows[d])
    {
      assert RowFits(s, d, s.rows[d]);
    }
  }

  lemma EffectFits(s: State, a: Action)
    requires Inv(s) && Enabled(s, a)
    ensures SharedFits(Effect(s, a)) && Grows(s, Effect(s, a))
  {
    var worker := At(s, a.w);
    assert WorkerFits(s, worker);
    match a
    case GetOrCreateJob(w) =>
      FetchingFits(s, worker.document, worker.key);
    case StartOrSkip(w) =>
      SavingFits(s, worker.document, worker.copy.(status := SKIPPED), {StatusColumn});
      SavingFits(s, worker.document, Started(worker.copy), START_COLUMNS);
    case TextractStarts(w, answered) =>
      StartingFits(s, worker.document, worker.copy);
    case RecordJobId(w) =>
      SavingFits(s, worker.document, worker.copy.(externalJobId := Some(worker.jobId)), {ExternalIdColumn});
    case SaveFailure(w, error, quarantine) =>
      SavingFits(s, worker.document, Failed(worker.copy, error, quarantine), FAIL_COLUMNS);
    case CompletionArrives(w, key) =>
      assert s.rows[key.document := s.rows[key.document]] == s.rows;
    case SaveCompletion(w) =>
      SavingFits(s, worker.document, worker.copy.(status := COMPLETED), COMPLETE_COLUMNS);
    case _ =>
  }

  lemma NextFits(s: State, a: Action)
    requires Inv(s) && Enabled(s, a)
    ensures WorkerFits(Effect(s, a), Next(s, a))
  {
    assert WorkerFits(s, At(s, a.w));
  }

  lemma OthersStillFit(s: State, t: State, worker: Worker)
    requires WorkerFits(s, worker) && Grows(s, t)
    ensures WorkerFits(t, worker)
  {
  }

  lemma StepKeepsInv(s: State, a: Action)
    requires Inv(s) && Enabled(s, a)
    ensures Inv(Apply(s, a)) && Grows(s, Apply(s, a))
  {
    EffectFits(s, a);
    NextFits(s, a);
    var e, t := Effect(s, a), Apply(s, a);
    forall w | w in t.workers
      ensures WorkerFits(t, t.workers[w])
    {
      if w != a.w {
        OthersStillFit(s, e, s.workers[w]);
        SameShared(e, t, s.workers[w]);
      } else {
        SameShared(e, t, Next(s, a));
      }
    }
  }

  lemma SameShared(s: State, t: State, worker: Worker)
    requires s.rows == t.rows && s.started == t.started
    ensures WorkerFits(s, worker) <==> WorkerFits(t, worker)
    ensures SharedFits(s) <==> SharedFits(t)
  {
  }

  lemma {:induction false} RunKeepsInv(s: State, run: seq<Action>)
    requires Inv(s) && After(s, run).Some?
    ensures Inv(After(s, run).value) && Grows(s, After(s, run).value)
    decreases |run|
  {
    if run != [] {
      StepKeepsInv(s, run[0]);
      RunKeepsInv(Apply(s, run[0]), run[1..]);
    }
  }

  /** The Textract jobs paid for on one document. */
  ghost function JobsOf(s: State, document: string): set<nat> {
    set k | k in s.started && k.document == document :: s.started[k]
  }

  /**
   In every reachable state a document has at most one Textract job, and its row records either
   no job or exactly that one.
   */
  lemma AtMostOnePaidJob(run: seq<Action>, document: string)
    requires After(INITIAL, run).Some?
    ensures var s := After(INITIAL, run).value;
      && |JobsOf(s, document)| <= 1
      && (document in s.rows && s.rows[document].externalJobId.Some? ==>
        JobsOf(s, document) == {s.rows[document].externalJobId.value})
  {
    RunKeepsInv(INITIAL, run);
    var s := After(INITIAL, run).value;
    if document in s.rows && s.rows[document].idempotencyKey.value in s.started {
      var k := s.rows[document].idempotencyKey.value;
      assert JobsOf(s, document) == {s.started[k]};
    } else {
      assert JobsOf(s, document) == {};
    }
  }

  /** Once recorded, a document's job id never changes, whatever happens afterwards. */
  lemma RecordedJobIdIsFinal(run: seq<Action>, later: seq<Action>, document: string)
    requires After(INITIAL, run).Some? && After(After(INITIAL, run).value, later).Some?
    requires document in After(INITIAL, run).value.rows
    requires After(INITIAL, run).value.rows[document].externalJobId.Some?
    ensures document in After(After(INITIAL, run).value, later).value.rows
    ensures After(After(INITIAL, run).value, later).value.rows[document].externalJobId
      == After(INITIAL, run).value.rows[document].externalJobId
  {
    RunKeepsInv(INITIAL, run);
    RunKeepsInv(After(INITIAL, run).value, later);
  }

  // ------------------------------------------------------------------------
  // What submitting does
  // ------------------------------------------------------------------------

  lemma {:induction false} RunInParts(s: State, before: seq<Action>, later: seq<Action>)
    requires After(s, before + later).Some?
    ensures After(s, before).Some? && After(s, before + later) == After(After(s, before).value, later)
    decreases |before|
  {
    if before == [] {
      assert before + later == later;
    } else {
      assert (before + later)[1..] == before[1..] + later;
      RunInParts(Apply(s, before[0]), before[1..], later);
    }
  }

  /** The action saves a Textract job id on the row of `document`. */
  predicate Records(s: State, a: Action, document: string) {
    Enabled(s, a) && a.RecordJobId? && At(s, a.w).document == document
  }

  lemma RecordingWritesTheJob(s: State, a: Action, document: string)
    requires Inv(s) && Records(s, a, document)
    ensures document in Apply(s, a).rows
    ensures Apply(s, a).rows[document].externalJobId == Some(At(s, a.w).jobId)
  {
  }

  /**
   Once a worker has taken the recording step for a document, in that state and in every later one
   the document's row holds the one job that was ever started for it.
   */
  lemma RecordedIsOnTheRow(before: seq<Action>, a: Action, later: seq<Action>, document: string)
    requires After(INITIAL, before + ([a] + later)).Some?
    requires After(INITIAL, before).Some? ==> Records(After(INITIAL, before).value, a, document)
    ensures var s := After(INITIAL, before + ([a] + later)).value;
      && document in s.rows && s.rows[document].externalJobId.Some?
      && JobsOf(s, document) == {s.rows[document].externalJobId.value}
  {
    RunInParts(INITIAL, before, [a] + later);
    var s := After(INITIAL, before).value;
    RunKeepsInv(INITIAL, before);
    RecordingWritesTheJob(s, a, document);
    StepKeepsInv(s, a);
    assert ([a] + later)[1..] == later;
    RunKeepsInv(Apply(s, a), later);
    AtMostOnePaidJob(before + ([a] + later), document);
  }

  /** One delivery of an upload that nothing interrupts, with Textract answering. */
  function Uninterrupted(w: nat, document: string, version: string, config: string, route: OcrRoute): seq<Action> {
    [ReadRoutes(w, document, version, config, Some(route)), GetOrCreateJob(w), StartOrSkip(w), TextractStarts(w, true),
     RecordJobId(w)]
  }

  /** A delivery of the same upload again. */
  function Redelivered(w: nat, document: string, version: string, config: string, route: OcrRoute): seq<Action> {
    [ReadRoutes(w, document, version, config, Some(route)), GetOrCreateJob(w), StartOrSkip(w), Resume(w), RecordJobId(w)]
  }

  lemma FiveSteps(s: State, a: Action, b: Action, c: Action, d: Action, e: Action)
    requires Enabled(s, a) && Enabled(Apply(s, a), b) && Enabled(Apply(Apply(s, a), b), c)
    requires Enabled(Apply(Apply(Apply(s, a), b), c), d) && Enabled(Apply(Apply(Apply(Apply(s, a), b), c), d), e)
    ensures After(s, [a, b, c, d, e]) == Some(Apply(Apply(Apply(Apply(Apply(s, a), b), c), d), e))
  {
    var t := Apply(Apply(s, a), b);
    Goes(s, a, [b, c, d, e]);
    Goes(Apply(s, a), b, [c, d, e]);
    Goes(t, c, [d, e]);
    Goes(Apply(t, c), d, [e]);
    Goes(Apply(Apply(t, c), d), e, []);
    assert [a] + [b, c, d, e] == [a, b, c, d, e] && [b] + [c, d, e] == [b, c, d, e] && [c] + [d, e] == [c, d, e];
    assert [d] + [e] == [d, e] && [e] + [] == [e];
  }

  lemma Goes(s: State, a: Action, rest: seq<Action>)
    requires Enabled(s, a)
    ensures After(s, [a] + rest) == After(Apply(s, a), rest)
  {
    assert ([a] + rest)[1..] == rest;
  }

  /** What the row is once the job is recorded on its first attempt. */
  function SubmittedRow(key: IdempotencyKey, jobId: nat): JobRow {
    JobRow(STARTED, 1, "", Some(key), Some(jobId))
  }

  lemma FreshIsStarted(s: State, w: nat, document: string, version: string, config: string, route: OcrRoute)
    requires At(s, w).Idle? && PageMap.Routed(route) && document !in s.rows
    ensures var run := Uninterrupted(w, document, version, config, route);
      var key := Digest(document, version, FeatureSet(Some(route)), config);
      && Enabled(s, run[0]) && Enabled(Apply(s, run[0]), run[1])
      && var t := Apply(Apply(s, run[0]), run[1]);
      && Enabled(t, run[2])
      && Apply(t, run[2]) == State(s.rows[document := JobRow(STARTED, 1, "", Some(key), None)], s.started, s.issued,
                                   s.workers[w := Submitting(document, JobRow(STARTED, 1, "", Some(key), None))])
  {
    var run := Uninterrupted(w, document, version, config, route);
    var key := Digest(document, version, FeatureSet(Some(route)), config);
    var t := Apply(Apply(s, run[0]), run[1]);
    assert t.rows == s.rows[document := NewRow(Some(key))];
    assert At(t, w) == HasJob(document, Some(route), NewRow(Some(key)));
    assert t.workers[w := Submitting(document, JobRow(STARTED, 1, "", Some(key), None))] ==
      s.workers[w := Submitting(document, JobRow(STARTED, 1, "", Some(key), None))];
  }

  lemma StartedIsRecorded(s: State, w: nat, document: string, key: IdempotencyKey)
    requires At(s, w) == Submitting(document, JobRow(STARTED, 1, "", Some(key), None)) && key !in s.started
    requires document in s.rows && s.rows[document] == JobRow(STARTED, 1, "", Some(key), None)
    ensures Enabled(s, TextractStarts(w, true)) && Enabled(Apply(s, TextractStarts(w, true)), RecordJobId(w))
    ensures var t := Apply(Apply(s, TextractStarts(w, true)), RecordJobId(w));
      && t.rows == s.rows[document := SubmittedRow(key, s.issued)]
      && t.started == s.started[key := s.issued] && At(t, w) == Idle
  {
  }

  /**
   A delivery of a fresh routed upload that nothing interrupts ends with one job started, and that job
   on the document's row.
   */
  lemma FreshUploadIsSubmitted(s: State, w: nat, document: string, version: string, config: string, route: OcrRoute)
    requires Inv(s) && At(s, w).Idle? && PageMap.Routed(route) && document !in s.rows
    ensures After(s, Uninterrupted(w, document, version, config, route)).Some?
    ensures var t := After(s, Uninterrupted(w, document, version, config, route)).value;
      var key := Digest(document, version, FeatureSet(Some(route)), config);
      && t.rows == s.rows[document := SubmittedRow(key, s.issued)] && At(t, w) == Idle
      && t.started == s.started[key := s.issued]
      && JobsOf(s, document) == {} && JobsOf(t, document) == {s.issued}
  {
    var run := Uninterrupted(w, document, version, config, route);
    var key := Digest(document, version, FeatureSet(Some(route)), config);
    assert NoneStarted(s, document);
    FreshIsStarted(s, w, document, version, config, route);
    var u := Apply(Apply(Apply(s, run[0]), run[1]), run[2]);
    FreshIsRecorded(s, u, w, document, key);
    FirstJob(s, Apply(Apply(u, run[3]), run[4]), document, key);
    FiveSteps(s, run[0], run[1], run[2], run[3], run[4]);
  }

  lemma FreshIsRecorded(s: State, u: State, w: nat, document: string, key: IdempotencyKey)
    requires NoneStarted(s, document) && key.document == document
    requires u == State(s.rows[document := JobRow(STARTED, 1, "", Some(key), None)], s.started, s.issued,
                        s.workers[w := Submitting(document, JobRow(STARTED, 1, "", Some(key), None))])
    ensures Enabled(u, TextractStarts(w, true)) && Enabled(Apply(u, TextractStarts(w, true)), RecordJobId(w))
    ensures var t := Apply(Apply(u, TextractStarts(w, true)), RecordJobId(w));
      && t.rows == s.rows[document := SubmittedRow(key, s.issued)]
      && t.started == s.started[key := s.issued] && At(t, w) == Idle
  {
    StartedIsRecorded(u, w, document, key);
    assert u.rows[document := SubmittedRow(key, s.issued)] == s.rows[document := SubmittedRow(key, s.issued)];
  }

  ghost predicate NoneStarted(s: State, document: string) {
    forall k :: k in s.started ==> k.document != document
  }

  lemma FirstJob(s: State, t: State, document: string, key: IdempotencyKey)
    requires NoneStarted(s, document) && key.document == document && t.started == s.started[key := s.issued]
    ensures JobsOf(s, document) == {} && JobsOf(t, document) == {s.issued}
  {
    assert t.started[key] in JobsOf(t, document);
  }

  lemma ResumedIsRecorded(s: State, w: nat, document: string, copy: JobRow)
    requires At(s, w) == Submitting(document, copy) && copy.externalJobId.Some?
    requires document in s.rows && s.rows[document] == copy
    ensures Enabled(s, Resume(w)) && Enabled(Apply(s, Resume(w)), RecordJobId(w))
    ensures forall answered :: !Enabled(s, TextractStarts(w, answered))
    ensures var t := Apply(Apply(s, Resume(w)), RecordJobId(w));
      t.rows == s.rows && t.started == s.started && At(t, w) == Idle
  {
    var t := Apply(Apply(s, Resume(w)), RecordJobId(w));
    assert t.rows == s.rows[document := copy];
  }

  lemma SubmittedIsRestarted(s: State, w: nat, document: string, version: string, config: string, route: OcrRoute)
    requires At(s, w).Idle? && PageMap.Routed(route) && document in s.rows
    requires s.rows[document].idempotencyKey.Some?
    requires s.rows[document].status != COMPLETED && s.rows[document].status != SKIPPED
    ensures var run := Redelivered(w, document, version, config, route);
      var copy := Started(s.rows[document]);
      && Enabled(s, run[0]) && Enabled(Apply(s, run[0]), run[1])
      && var t := Apply(Apply(s, run[0]), run[1]);
      && Enabled(t, run[2])
      && Apply(t, run[2]) == State(s.rows[document := copy], s.started, s.issued, s.workers[w := Submitting(document, copy)])
  {
    var run := Redelivered(w, document, version, config, route);
    var t := Apply(Apply(s, run[0]), run[1]);
    assert t.rows == s.rows;
    assert At(t, w) == HasJob(document, Some(route), s.rows[document]);
    assert t.workers[w := Submitting(document, Started(s.rows[document]))] ==
      s.workers[w := Submitting(document, Started(s.rows[document]))];
  }

  /**
   A redelivery while a recorded job is still out resumes that job and starts none, whatever the
   manifest and the routing table have come to say; Textract is not asked.
   */
  lemma RedeliveryResumes(s: State, w: nat, document: string, version: string, config: string, route: OcrRoute)
    requires Inv(s) && At(s, w).Idle? && PageMap.Routed(route)
    requires document in s.rows && s.rows[document].externalJobId.Some?
    requires s.rows[document].status != COMPLETED && s.rows[document].status != SKIPPED
    ensures var run := Redelivered(w, document, version, config, route);
      && After(s, run).Some?
      && After(s, run).value.started == s.started && At(After(s, run).value, w) == Idle
      && After(s, run).value.rows == s.rows[document := Started(s.rows[document])]
      && JobsOf(After(s, run).value, document) == JobsOf(s, document) == {s.rows[document].externalJobId.value}
    ensures var run := Redelivered(w, document, version, config, route);
      forall answered :: !Enabled(Apply(Apply(Apply(s, run[0]), run[1]), run[2]), TextractStarts(w, answered))
  {
    var run := Redelivered(w, document, version, config, route);
    assert RowFits(s, document, s.rows[document]);
    SubmittedIsRestarted(s, w, document, version, config, route);
    var u := Apply(Apply(Apply(s, run[0]), run[1]), run[2]);
    ResumedIsRecorded(u, w, document, Started(s.rows[document]));
    FiveSteps(s, run[0], run[1], run[2], run[3], run[4]);
    OneJob(s, document);
  }

  lemma OneJob(s: State, document: string)
    requires Inv(s) && document in s.rows && s.rows[document].externalJobId.Some?
    ensures JobsOf(s, document) == {s.rows[document].externalJobId.value}
  {
    assert RowFits(s, document, s.rows[document]);
    var k := s.rows[document].idempotencyKey.value;
    assert JobsOf(s, document) == {s.started[k]};
  }

  /** What each saving step leaves in the document's row, column by column. */
  lemma StatusesAreSaved(s: State, a: Action)
    requires Inv(s) && Enabled(s, a) && (a.StartOrSkip? || a.SaveFailure? || a.SaveCompletion?)
    ensures At(s, a.w).document in s.rows && At(s, a.w).document in Apply(s, a).rows
    ensures var worker, was, row := At(s, a.w), s.rows[At(s, a.w).document], Apply(s, a).rows[At(s, a.w).document];
      && row.idempotencyKey == was.idempotencyKey && row.externalJobId == was.externalJobId
      && (a.SaveFailure? ==>
        && row.status == (if a.quarantine then QUARANTINED else FAILED) && row.attempt == was.attempt
        && |row.errorDetail| <= 8000 && row.errorDetail <= a.error && (|a.error| <= 8000 ==> row.errorDetail == a.error))
      && (a.SaveCompletion? ==> row.status == COMPLETED && row.attempt == was.attempt && row.errorDetail == was.errorDetail)
      && (a.StartOrSkip? ==>
        if worker.copy.status in {COMPLETED, SKIPPED} then row == was && At(Apply(s, a), a.w) == Idle
        else if worker.route.None? then
          && row.status == SKIPPED && row.attempt == was.attempt && row.errorDetail == was.errorDetail
          && At(Apply(s, a), a.w) == Idle
        else row.status == STARTED && row.attempt == worker.copy.attempt + 1 && row.errorDetail == "")
  {
  }

  /**
   What a worker may do next. None is ever stuck: with a job on its copy it resumes, without one it
   asks Textract, which starts a job for a token it has not seen and repeats the one it started for
   a token it has; the preparation may fail, Textract may refuse, and a worker may stop anywhere.
   */
  lemma MayDo(s: State, a: Action)
    requires Inv(s)
    ensures var worker := At(s, a.w);
      && (a.ReadRoutes? ==>
            (Enabled(s, a) <==> worker.Idle? && a.route in {None, Some(TEXTRACT_TABLES), Some(TEXTRACT_TEXT)}))
      && (a.GetOrCreateJob? ==> (Enabled(s, a) <==> worker.Routed?)) && (a.StartOrSkip? ==> (Enabled(s, a) <==> worker.HasJob?))
      && (a.PrepareFails? ==> (Enabled(s, a) <==> worker.Submitting?))
      && (a.Resume? ==> (Enabled(s, a) <==> worker.Submitting? && worker.copy.externalJobId.Some?))
      && (a.TextractRefuses? ==> (Enabled(s, a) <==> Asks(worker)))
      && (a.TextractStarts? ==> (Enabled(s, a) <==> Asks(worker) && Token(worker.copy) !in s.started))
      && (a.TextractRepeats? ==> (Enabled(s, a) <==> Asks(worker) && Token(worker.copy) in s.started))
      && (a.RecordJobId? ==> (Enabled(s, a) <==> worker.Submitted?))
      && (a.SaveFailure? ==> (Enabled(s, a) <==> worker.Failing? || worker.Completing?))
      && (a.CompletionArrives? ==> (Enabled(s, a) <==> worker.Idle? && a.key in s.started))
      && (a.SaveCompletion? ==> (Enabled(s, a) <==> worker.Completing?))
      && (a.Crash? ==> Enabled(s, a))
  {
    assert WorkerFits(s, At(s, a.w));
  }

  /** A submission without a recorded job. Its copy always has a token (`CopyFits`). */
  predicate Asks(worker: Worker) {
    worker.Submitting? && worker.copy.externalJobId.None? && worker.copy.idempotencyKey.Some?
  }

  /** Only Textract starting a job adds one, under the copy's token. */
  lemma JobsStarted(s: State, a: Action)
    requires Enabled(s, a)
    ensures var t := Apply(s, a);
      if a.TextractStarts? then t.started == s.started[Token(At(s, a.w).copy) := s.issued] && t.issued == s.issued + 1
      else t.started == s.started && t.issued == s.issued
  {
  }

  /** Only the saving steps write a row, of their own document, and a step concerns its own worker. */
  lemma RowsWritten(s: State, a: Action, d: string, w: nat)
    requires Enabled(s, a)
    ensures var t := Apply(s, a);
      && (d in s.rows && !WritesRow(s, a, d) ==> d in t.rows && t.rows[d] == s.rows[d])
      && (w != a.w ==> At(t, w) == At(s, w)) && (a.Crash? ==> At(t, a.w) == Idle)
  {
  }

  predicate WritesRow(s: State, a: Action, d: string) {
    || ((a.GetOrCreateJob? || a.StartOrSkip? || a.RecordJobId? || a.SaveFailure? || a.SaveCompletion?)
        && !At(s, a.w).Idle? && At(s, a.w).document == d)
    || (a.CompletionArrives? && a.key.document == d)
  }

  /** The request token tells apart the feature sets of tables, plain text and nothing to read. */
  lemma FeatureSetsDiffer()
    ensures FeatureSet(Some(TEXTRACT_TABLES)) == "TABLES,LAYOUT"
    ensures FeatureSet(Some(TEXTRACT_TEXT)) == ""
    ensures FeatureSet(None) == "NONE"
    ensures FeatureSet(Some(TEXTRACT_TABLES)) != FeatureSet(None)
  {
    assert "TABLES,LAYOUT"[0] != "NONE"[0];
  }
}
