/**
 Which documents are left unsettled when the queues are empty and no worker is busy, over every run
 of `DocumentRuns`.
 */
module AtRest {
  import opened Prelude
  import opened Repository
  import opened Completion
  import opened DocumentRuns
  import opened CompletionRuns
  import Overlap = OverlappingDeliveries

  predicate Finished(row: JobRow) {
    row.status == COMPLETED || row.status == SKIPPED
  }

  /** The delivery finds no page to read, and marks the OCR row SKIPPED. */
  predicate FindsNothing(s: State, a: Action) {
    Enabled(s, a) && a.StartOcr? && !a.routed && !Finished(At(s, a.w).phase.copy)
  }

  /** The documents on which the action gives a delivery a reason to end. */
  function Concludes(s: State, a: Action): set<string> {
    if Enabled(s, a) && (a.Submit? || a.MarkQuarantined? || a.Settle? || FindsNothing(s, a))
    then {At(s, a.w).document} else {}
  }

  ghost function Concluded(run: seq<Action>, n: nat): set<string>
    requires n <= |run|
  {
    if n == 0 then {} else Concluded(run, n - 1) + Concludes(After(INITIAL, run, n - 1), run[n - 1])
  }

  // ------------------------------------------------------------------------
  // A message is deleted only with a reason
  // ------------------------------------------------------------------------

  predicate PhaseFits(phase: Phase, known: bool) {
    || known
    || !(phase.Submitted? || phase.ReadOutcome? || phase.Concluded? || phase.Done?
         || (phase.ReadOcr? && Finished(phase.copy)))
  }

  ghost predicate WorkersFit(s: State, known: set<string>) {
    forall w :: w in s.workers && s.workers[w].Busy? ==> PhaseFits(s.workers[w].phase, s.workers[w].document in known)
  }

  ghost predicate MessagesFit(mail: Mail, known: set<string>) {
    && (forall id :: id in mail.messages && mail.messages[id].TextractCompleted? ==> mail.messages[id].document in known)
    && (forall id :: id in mail.deleted && id in mail.messages ==> mail.messages[id].document in known)
  }

  ghost predicate RowsFit(ocr: map<string, JobRow>, known: set<string>) {
    forall d :: d in ocr && Finished(ocr[d]) ==> d in known
  }

  ghost predicate Reasoned(s: State, known: set<string>) {
    && WorkersFit(s, known) && MessagesFit(s.mail, known) && RowsFit(s.ocr, known) && s.submitted <= known
  }

  lemma EffectFits(s: State, d: string, phase: Phase, a: Action, known: set<string>)
    requires Expects(phase, a) && PhaseFits(phase, d in known)
    requires RowsFit(s.ocr, known) && s.submitted <= known
    requires a.Submit? || (a.StartOcr? && !a.routed && !Finished(phase.copy)) ==> d in known
    ensures RowsFit(Effect(s, d, phase, a).ocr, known) && Effect(s, d, phase, a).submitted <= known
  {
  }

  lemma NextPhaseFits(s: State, d: string, phase: Phase, a: Action, known: set<string>)
    requires Expects(phase, a) && IsMove(a) && PhaseFits(phase, d in known) && RowsFit(s.ocr, known)
    requires a.Submit? || a.MarkQuarantined? || a.Settle? || (a.StartOcr? && !a.routed && !Finished(phase.copy)) ==> d in known
    ensures Next(s, d, phase, a).Some? ==> PhaseFits(Next(s, d, phase, a).value, d in known)
  {
  }

  lemma WorkersStayReasoned(s: State, a: Action, known: set<string>)
    requires WorkersFit(s, known) && RowsFit(s.ocr, known) && Enabled(s, a) && IsMove(a) && Concludes(s, a) <= known
    ensures WorkersFit(Apply(s, a), known)
  {
    var Busy(id, d, phase) := At(s, a.w);
    assert Concludes(s, a) != {} ==> d in Concludes(s, a);
    NextPhaseFits(s, d, phase, a, known);
    MoveIs(s, a);
    var t := Apply(s, a);
    forall w | w in t.workers && t.workers[w].Busy?
      ensures PhaseFits(t.workers[w].phase, t.workers[w].document in known)
    {
      if w != a.w {
        OthersUntouched(s, a, w);
      }
    }
  }

  lemma MoveIsReasoned(s: State, a: Action, known: set<string>)
    requires Inv(s) && Reasoned(s, known) && Enabled(s, a) && IsMove(a) && Concludes(s, a) <= known
    ensures Reasoned(Apply(s, a), known)
  {
    var Busy(id, d, phase) := At(s, a.w);
    assert Concludes(s, a) != {} ==> d in Concludes(s, a);
    EffectFits(s, d, phase, a, known);
    MoveKeepsMail(s, a);
    WorkersStayReasoned(s, a, known);
  }

  lemma RestIsReasoned(s: State, a: Action, known: set<string>)
    requires Inv(s) && Reasoned(s, known) && Enabled(s, a) && !IsMove(a)
    ensures Reasoned(Apply(s, a), known)
  {
    if !IsOutside(a) {
      assert WorkerFits(s, At(s, a.w));
    }
  }

  lemma StepIsReasoned(s: State, a: Action, known: set<string>)
    requires Inv(s) && Reasoned(s, known) && Concludes(s, a) <= known
    ensures Reasoned(Act(s, a), known)
  {
    if Enabled(s, a) {
      if IsMove(a) {
        MoveIsReasoned(s, a, known);
      } else {
        RestIsReasoned(s, a, known);
      }
    }
  }

  lemma {:induction false} RunIsReasoned(run: seq<Action>, n: nat, known: set<string>)
    requires n <= |run| && Concluded(run, n) <= known
    ensures Reasoned(After(INITIAL, run, n), known)
  {
    if n > 0 {
      RunIsReasoned(run, n - 1, known);
      RunKeepsInv(INITIAL, run, n - 1);
      StepIsReasoned(After(INITIAL, run, n - 1), run[n - 1], known);
    }
  }

  // ------------------------------------------------------------------------
  // What the reasons are
  // ------------------------------------------------------------------------

  /** At some action a delivery of `d` found nothing to OCR. */
  ghost predicate NothingToOcr(run: seq<Action>, n: nat, d: string)
    requires n <= |run|
  {
    exists k :: 0 <= k < n && FindsNothingOn(After(INITIAL, run, k), run[k], d)
  }

  predicate FindsNothingOn(s: State, a: Action, d: string) {
    FindsNothing(s, a) && At(s, a.w).document == d
  }

  lemma SubmittedStays(s: State, a: Action, d: string)
    ensures d in s.submitted ==> d in Act(s, a).submitted
    ensures Enabled(s, a) && a.Submit? && At(s, a.w).document == d ==> d in Act(s, a).submitted
  {
    if Enabled(s, a) && IsMove(a) {
      EffectSubmits(s, At(s, a.w).document, At(s, a.w).phase, a);
    }
  }

  lemma EffectSubmits(s: State, d: string, phase: Phase, a: Action)
    requires Expects(phase, a)
    ensures s.submitted <= Effect(s, d, phase, a).submitted
    ensures a.Submit? ==> d in Effect(s, d, phase, a).submitted
  {
  }

  /** A delivery had a reason to end: a verdict, a submission, or nothing to OCR. */
  ghost predicate HasReason(run: seq<Action>, n: nat, d: string)
    requires n <= |run|
  {
    HasVerdict(History(run, n, d)) || d in After(INITIAL, run, n).submitted || NothingToOcr(run, n, d)
  }

  lemma ReasonsStay(run: seq<Action>, n: nat, d: string)
    requires 0 < n <= |run| && HasReason(run, n - 1, d)
    ensures HasReason(run, n, d)
  {
    if HasVerdict(History(run, n - 1, d)) {
      VerdictsStay(run, n, d);
    } else if d in After(INITIAL, run, n - 1).submitted {
      SubmittedStays(After(INITIAL, run, n - 1), run[n - 1], d);
    } else {
      var k :| 0 <= k < n - 1 && FindsNothingOn(After(INITIAL, run, k), run[k], d);
      assert NothingToOcr(run, n, d);
    }
  }

  lemma NewReason(run: seq<Action>, n: nat, d: string)
    requires 0 < n <= |run| && d in Concludes(After(INITIAL, run, n - 1), run[n - 1])
    ensures HasReason(run, n, d)
  {
    var s, a := After(INITIAL, run, n - 1), run[n - 1];
    if a.Submit? {
      SubmittedStays(s, a, d);
    } else if a.StartOcr? {
      assert FindsNothingOn(s, a, d);
    } else {
      WritesVerdict(s, a, d);
      VerdictsStay(run, n, d);
    }
  }

  lemma WritesVerdict(s: State, a: Action, d: string)
    requires Enabled(s, a) && (a.MarkQuarantined? || a.Settle?) && At(s, a.w).document == d
    ensures Settles(s, a, d)
  {
  }

  lemma {:induction false} ConcludedHasReason(run: seq<Action>, n: nat, d: string)
    requires n <= |run| && d in Concluded(run, n)
    ensures HasReason(run, n, d)
  {
    if d in Concludes(After(INITIAL, run, n - 1), run[n - 1]) {
      NewReason(run, n, d);
    } else {
      ConcludedHasReason(run, n - 1, d);
      ReasonsStay(run, n, d);
    }
  }

  // ------------------------------------------------------------------------
  // Documents at rest
  // ------------------------------------------------------------------------

  ghost predicate IsAtRest(s: State) {
    s.mail.queued == {} && forall w :: At(s, w) == Idle
  }

  predicate UploadOf(mail: Mail, id: nat, d: string) {
    id in mail.messages && mail.messages[id].DocumentReady? && mail.messages[id].document == d
  }

  predicate CompletionOf(mail: Mail, id: nat, d: string) {
    id in mail.messages && mail.messages[id].TextractCompleted? && mail.messages[id].document == d
  }

  ghost predicate UploadDeadLettered(mail: Mail, d: string) {
    exists id :: UploadOf(mail, id, d) && id in mail.deadLettered
  }

  /** Every completion of the document that came, if any did, is dead-lettered. */
  ghost predicate CompletionsDeadLettered(mail: Mail, d: string) {
    forall id :: CompletionOf(mail, id, d) ==> id in mail.deadLettered
  }

  ghost predicate HasUpload(s: State, d: string) {
    exists id :: UploadOf(s.mail, id, d)
  }

  lemma StepKeepsUpload(s: State, a: Action, d: string)
    requires Inv(s) && d in Act(s, a).statuses && (d in s.statuses ==> HasUpload(s, d))
    ensures HasUpload(Act(s, a), d)
  {
    StepKeepsInv(s, a);
    WritesAreTheStatus(s, a, d);
    if d in s.statuses {
      var id :| UploadOf(s.mail, id, d);
      assert UploadOf(Act(s, a).mail, id, d);
    } else {
      NewStatusIsUpload(s, a, d);
      assert UploadOf(Act(s, a).mail, a.id, d);
    }
  }

  lemma NewStatusIsUpload(s: State, a: Action, d: string)
    requires Inv(s) && Writes(s, a, d).Some? && d !in s.statuses
    ensures a.Upload? && a.document == d && Enabled(s, a)
  {
    if !IsOutside(a) && At(s, a.w).Busy? {
      HandledIsThere(s, a.w);
    }
  }

  lemma HandledIsThere(s: State, w: nat)
    requires Inv(s) && At(s, w).Busy?
    ensures At(s, w).document in s.statuses
  {
    assert WorkerFits(s, At(s, w));
  }

  lemma {:induction false} EveryDocumentWasUploaded(run: seq<Action>, n: nat, d: string)
    requires n <= |run| && d in After(INITIAL, run, n).statuses
    ensures HasUpload(After(INITIAL, run, n), d)
  {
    if n > 0 {
      RunKeepsInv(INITIAL, run, n - 1);
      if d in After(INITIAL, run, n - 1).statuses {
        EveryDocumentWasUploaded(run, n - 1, d);
      }
      StepKeepsUpload(After(INITIAL, run, n - 1), run[n - 1], d);
    }
  }

  /** No verdict was ever written, for one of three reasons. */
  ghost predicate Stranded(run: seq<Action>, n: nat, d: string)
    requires n <= |run|
  {
    var s := After(INITIAL, run, n);
    && !HasVerdict(History(run, n, d))
    && (UploadDeadLettered(s.mail, d) || NothingToOcr(run, n, d)
        || (d in s.submitted && CompletionsDeadLettered(s.mail, d)))
  }

  /** A verdict was written, and a late delivery of the upload wrote PROCESSING after the last. */
  ghost predicate Overtaken(run: seq<Action>, n: nat, d: string)
    requires n <= |run|
  {
    HasVerdict(History(run, n, d)) && exists k :: LateWrite(run, k, n, d)
  }

  lemma WithoutVerdictIsStranded(run: seq<Action>, n: nat, d: string)
    requires n <= |run| && IsAtRest(After(INITIAL, run, n)) && d in After(INITIAL, run, n).statuses
    requires !HasVerdict(History(run, n, d))
    ensures Stranded(run, n, d)
  {
    var s := After(INITIAL, run, n);
    EveryDocumentWasUploaded(run, n, d);
    var id :| UploadOf(s.mail, id, d);
    RunKeepsInv(INITIAL, run, n);
    if id !in s.mail.deadLettered {
      RunIsReasoned(run, n, Concluded(run, n));
      ConcludedHasReason(run, n, d);
      HandledHasSettled(run, n);
    }
  }

  /**
   With the queues empty and no worker busy, a document is unsettled exactly when a late delivery
   overtook its last verdict, or it never had one: because its upload was dead-lettered, because a
   delivery found nothing to OCR, or because it was submitted and every completion that came for it
   was dead-lettered.
   */
  lemma AtRestUnsettledIff(run: seq<Action>, n: nat, d: string)
    requires n <= |run| && IsAtRest(After(INITIAL, run, n)) && d in After(INITIAL, run, n).statuses
    ensures !IsSettled(After(INITIAL, run, n), d) <==> Overtaken(run, n, d) || Stranded(run, n, d)
  {
    if HasVerdict(History(run, n, d)) {
      SettledIffNoLateWrite(run, n, d);
    } else {
      WithoutVerdictIsStranded(run, n, d);
      NoVerdictNoSettling(run, n, d);
    }
  }

  lemma NoVerdictNoSettling(run: seq<Action>, n: nat, d: string)
    requires n <= |run| && !HasVerdict(History(run, n, d))
    ensures !IsSettled(After(INITIAL, run, n), d)
  {
    var h := History(run, n, d);
    StatusIsLastWrite(run, n, d);
    if LastWrite(h, n).Some? {
      LastWriteIsLast(h, n);
      var k :| 0 <= k < n && h[k] == LastWrite(h, n);
      assert !IsVerdict(h[k]);
    }
  }

  // ------------------------------------------------------------------------
  // An upload with nothing to OCR
  // ------------------------------------------------------------------------

  const FRESH := NewRow(None)

  function Alone(d: string, status: DocumentStatus, row: JobRow, ocr: map<string, JobRow>, phase: Phase): State {
    State(Mail(map[0 := DocumentReady(d, None)], {0}, {}, {}), map[d := status], map[d := row], ocr, {},
          map[0 := Busy(0, d, phase)])
  }

  function Skipped(d: string, key: IdempotencyKey): map<string, JobRow> {
    map[d := NewRow(Some(key)).(status := SKIPPED)]
  }

  function Ended(d: string, key: IdempotencyKey): State {
    State(Mail(map[0 := DocumentReady(d, None)], {}, {0}, {}), map[d := PROCESSING], map[d := Overlap.MARKED],
          Skipped(d, key), {}, map[0 := Idle])
  }

  /** One delivery of an upload none of whose pages is routed to OCR. */
  function NoPageRouted(d: string, key: IdempotencyKey): seq<Action> {
    [Upload(d, 0, None), Receive(0, 0)] + [StartPreprocess(0), CompletePreprocess(0)]
    + [MarkProcessing(0), FetchOcr(0, key)] + [StartOcr(0, false), Delete(0)]
  }

  lemma ItIsRead(d: string)
    ensures Overlap.Leads(
      INITIAL, [Upload(d, 0, None), Receive(0, 0)], Alone(d, READY_FOR_PROCESSING, FRESH, map[], ReadPreprocess(FRESH)))
  {
    Overlap.TwoLead(INITIAL, Upload(d, 0, None), Receive(0, 0));
  }

  lemma ItIsPrepared(d: string)
    ensures Overlap.Leads(
      Alone(d, READY_FOR_PROCESSING, FRESH, map[], ReadPreprocess(FRESH)), [StartPreprocess(0), CompletePreprocess(0)],
      Alone(d, READY_FOR_PROCESSING, Overlap.MARKED, map[], Prepared(Overlap.MARKED)))
  {
    Overlap.TwoLead(
      Alone(d, READY_FOR_PROCESSING, FRESH, map[], ReadPreprocess(FRESH)), StartPreprocess(0), CompletePreprocess(0));
  }

  lemma ItIsMarked(d: string, key: IdempotencyKey)
    ensures Overlap.Leads(
      Alone(d, READY_FOR_PROCESSING, Overlap.MARKED, map[], Prepared(Overlap.MARKED)), [MarkProcessing(0), FetchOcr(0, key)],
      Alone(d, PROCESSING, Overlap.MARKED, map[d := NewRow(Some(key))], ReadOcr(NewRow(Some(key)))))
  {
    Overlap.TwoLead(
      Alone(d, READY_FOR_PROCESSING, Overlap.MARKED, map[], Prepared(Overlap.MARKED)), MarkProcessing(0), FetchOcr(0, key));
  }

  lemma ItIsSkipped(d: string, key: IdempotencyKey)
    ensures Overlap.Leads(
      Alone(d, PROCESSING, Overlap.MARKED, map[d := NewRow(Some(key))], ReadOcr(NewRow(Some(key)))),
      [StartOcr(0, false), Delete(0)], Ended(d, key))
  {
    Overlap.TwoLead(
      Alone(d, PROCESSING, Overlap.MARKED, map[d := NewRow(Some(key))], ReadOcr(NewRow(Some(key)))), StartOcr(0, false), Delete(0));
  }

  /** The document ends PROCESSING, with nothing dead-lettered and no message or worker left. */
  lemma NothingToOcrStaysProcessing(d: string, key: IdempotencyKey)
    ensures var run := NoPageRouted(d, key);
      var end := After(INITIAL, run, |run|);
      && IsAtRest(end) && end.mail.deadLettered == {} && end.submitted == {}
      && d in end.statuses && end.statuses[d] == PROCESSING
  {
    var r1 := [Upload(d, 0, None), Receive(0, 0)];
    var r2 := r1 + [StartPreprocess(0), CompletePreprocess(0)];
    var r3 := r2 + [MarkProcessing(0), FetchOcr(0, key)];
    var read := Alone(d, READY_FOR_PROCESSING, FRESH, map[], ReadPreprocess(FRESH));
    var prepared := Alone(d, READY_FOR_PROCESSING, Overlap.MARKED, map[], Prepared(Overlap.MARKED));
    var marked := Alone(d, PROCESSING, Overlap.MARKED, map[d := NewRow(Some(key))], ReadOcr(NewRow(Some(key))));
    ItIsRead(d);
    ItIsPrepared(d);
    Overlap.LeadsOn(INITIAL, r1, read, [StartPreprocess(0), CompletePreprocess(0)], prepared);
    ItIsMarked(d, key);
    Overlap.LeadsOn(INITIAL, r2, prepared, [MarkProcessing(0), FetchOcr(0, key)], marked);
    ItIsSkipped(d, key);
    Overlap.LeadsOn(INITIAL, r3, marked, [StartOcr(0, false), Delete(0)], Ended(d, key));
  }
}
