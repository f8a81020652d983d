/**
 What holds of completions over every run of `DocumentRuns`: none is lost, when a deleted one has
 left its document settled, and when a settled document can still be reopened.
 */
module CompletionRuns {
  import opened Prelude
  import opened Repository
  import opened Completion
  import opened DocumentRuns

  // ------------------------------------------------------------------------
  // The invariant
  // ------------------------------------------------------------------------

  ghost predicate MailFits(s: State) {
    && (forall id :: id in s.mail.messages ==> s.mail.messages[id].document in s.statuses)
    && (forall id :: id in s.mail.messages ==> id in s.mail.queued || id in s.mail.deleted || id in s.mail.deadLettered)
    && (forall id :: id in s.mail.deleted ==> id in s.mail.messages)
    && (forall d :: d in s.submitted ==> d in s.statuses)
  }

  /** The phases in which a completion is handled. */
  predicate OfCompletion(phase: Phase) {
    phase.ReadOutcome? || phase.Concluded? || phase.Done?
  }

  /** A handler belongs to its message. */
  ghost predicate WorkerFits(s: State, worker: Worker) {
    match worker
    case Idle => true
    case Busy(id, d, phase) =>
      && id in s.mail.messages
      && s.mail.messages[id].document == d
      && (s.mail.messages[id].TextractCompleted? ==> OfCompletion(phase))
      && (s.mail.messages[id].DocumentReady? ==> !phase.ReadOutcome? && !phase.Concluded?)
  }

  ghost predicate Inv(s: State) {
    && MailFits(s)
    && (forall w :: w in s.workers ==> WorkerFits(s, s.workers[w]))
  }

  lemma EffectKeepsMail(s: State, d: string, phase: Phase, a: Action)
    requires Expects(phase, a) && MailFits(s) && d in s.statuses
    ensures MailFits(Effect(s, d, phase, a))
    ensures Effect(s, d, phase, a).mail == s.mail && Effect(s, d, phase, a).workers == s.workers
  {
  }

  /** Mail only grows, so what fits stays fitting. */
  ghost predicate MailGrows(s: State, t: State) {
    forall id :: id in s.mail.messages ==> id in t.mail.messages && t.mail.messages[id] == s.mail.messages[id]
  }

  lemma StillFits(s: State, t: State, worker: Worker)
    requires WorkerFits(s, worker) && MailGrows(s, t)
    ensures WorkerFits(t, worker)
  {
  }

  /** Where a handler goes next depends on what it handles. */
  lemma NextOfKind(s: State, d: string, phase: Phase, a: Action)
    requires Expects(phase, a) && IsMove(a) && Next(s, d, phase, a).Some?
    ensures var next := Next(s, d, phase, a).value;
      if phase.ReadOutcome? || phase.Concluded? then next.Concluded? || next.Done?
      else !phase.Done? && !next.ReadOutcome? && !next.Concluded?
  {
  }

  lemma MoveKeepsMail(s: State, a: Action)
    requires Inv(s) && Enabled(s, a) && IsMove(a)
    ensures MailFits(Apply(s, a)) && Apply(s, a).mail == s.mail
  {
    assert WorkerFits(s, At(s, a.w));
    EffectKeepsMail(s, At(s, a.w).document, At(s, a.w).phase, a);
  }

  /** A step takes its own worker on, and only it. */
  lemma MoveIs(s: State, a: Action)
    requires Enabled(s, a) && IsMove(a)
    ensures var Busy(id, d, phase) := At(s, a.w);
      At(Apply(s, a), a.w) == match Next(s, d, phase, a) case None => Idle case Some(next) => Busy(id, d, next)
  {
  }

  lemma MoveFits(s: State, a: Action)
    requires Inv(s) && Enabled(s, a) && IsMove(a)
    ensures WorkerFits(Apply(s, a), At(Apply(s, a), a.w))
  {
    var worker := At(s, a.w);
    assert WorkerFits(s, worker);
    MoveIs(s, a);
    MoveKeepsMail(s, a);
    if Next(s, worker.document, worker.phase, a).Some? {
      NextOfKind(s, worker.document, worker.phase, a);
    }
  }

  lemma ReceiveFits(s: State, a: Action)
    requires Inv(s) && Enabled(s, a) && a.Receive?
    ensures MailFits(Apply(s, a)) && Apply(s, a).mail == s.mail
    ensures WorkerFits(Apply(s, a), At(Apply(s, a), a.w))
  {
  }

  lemma StepFits(s: State, a: Action)
    requires Inv(s) && Enabled(s, a)
    ensures MailFits(Apply(s, a)) && MailGrows(s, Apply(s, a))
    ensures !IsOutside(a) ==> WorkerFits(Apply(s, a), At(Apply(s, a), a.w))
  {
    if IsMove(a) {
      MoveKeepsMail(s, a);
      MoveFits(s, a);
    } else if a.Receive? {
      ReceiveFits(s, a);
    } else if a.Delete? {
      assert WorkerFits(s, At(s, a.w));
    }
  }

  lemma OthersUntouched(s: State, a: Action, w: nat)
    requires Enabled(s, a) && (IsOutside(a) || a.w != w)
    ensures At(Apply(s, a), w) == At(s, w)
  {
  }

  lemma StepKeepsInv(s: State, a: Action)
    requires Inv(s)
    ensures Inv(Act(s, a)) && MailGrows(s, Act(s, a))
  {
    if Enabled(s, a) {
      StepFits(s, a);
      var t := Apply(s, a);
      forall w | w in t.workers
        ensures WorkerFits(t, t.workers[w])
      {
        if IsOutside(a) || a.w != w {
          OthersUntouched(s, a, w);
          assert WorkerFits(s, At(s, w));
          StillFits(s, t, At(s, w));
        }
      }
    }
  }

  lemma {:induction false} RunKeepsInv(start: State, run: seq<Action>, n: nat)
    requires Inv(start) && n <= |run|
    ensures Inv(After(start, run, n))
  {
    if n > 0 {
      RunKeepsInv(start, run, n - 1);
      StepKeepsInv(After(start, run, n - 1), run[n - 1]);
    }
  }

  // ------------------------------------------------------------------------
  // When a deleted completion's document is settled
  // ------------------------------------------------------------------------

  /** What each of the first `n` actions writes as the status of `d`. */
  function History(run: seq<Action>, n: nat, d: string): (h: seq<Option<DocumentStatus>>)
    requires n <= |run|
    ensures |h| == n
  {
    if n == 0 then [] else History(run, n - 1, d) + [Writes(After(INITIAL, run, n - 1), run[n - 1], d)]
  }

  lemma {:induction false} HistoryIsPrefix(run: seq<Action>, m: nat, n: nat, d: string)
    requires m <= n <= |run|
    ensures History(run, n, d)[..m] == History(run, m, d)
  {
    if m < n {
      HistoryIsPrefix(run, m, n - 1, d);
    }
  }

  lemma HistoryAt(run: seq<Action>, k: nat, n: nat, d: string)
    requires k < n <= |run|
    ensures History(run, n, d)[k] == Writes(After(INITIAL, run, k), run[k], d)
  {
    HistoryIsPrefix(run, k + 1, n, d);
    assert History(run, n, d)[k] == History(run, n, d)[..k + 1][k];
  }

  predicate IsVerdict(write: Option<DocumentStatus>) {
    write.Some? && Settled(write.value)
  }

  ghost predicate HasVerdict(h: seq<Option<DocumentStatus>>) {
    exists k :: 0 <= k < |h| && IsVerdict(h[k])
  }

  /** Action `k` unsettles the document for good: no later one settles it. */
  ghost predicate UnsettlesLast(h: seq<Option<DocumentStatus>>, k: nat) {
    && k < |h|
    && h[k].Some? && !Settled(h[k].value)
    && forall i :: k < i < |h| ==> !IsVerdict(h[i])
  }

  function LastWrite(h: seq<Option<DocumentStatus>>, n: nat): Option<DocumentStatus>
    requires n <= |h|
  {
    if n == 0 then None else if h[n - 1].Some? then h[n - 1] else LastWrite(h, n - 1)
  }

  lemma {:induction false} LastWriteIsLast(h: seq<Option<DocumentStatus>>, n: nat)
    requires n <= |h| && LastWrite(h, n).Some?
    ensures exists k :: 0 <= k < n && h[k] == LastWrite(h, n) && forall i :: k < i < n ==> h[i] == None
  {
    if h[n - 1] == None {
      LastWriteIsLast(h, n - 1);
      var k :| 0 <= k < n - 1 && h[k] == LastWrite(h, n - 1) && forall i :: k < i < n - 1 ==> h[i] == None;
      assert forall i :: k < i < n ==> h[i] == None;
    } else {
      assert h[n - 1] == LastWrite(h, n);
    }
  }

  lemma {:induction false} SomeWriteSomeLast(h: seq<Option<DocumentStatus>>, k: nat, n: nat)
    requires k < n <= |h| && h[k].Some?
    ensures LastWrite(h, n).Some?
  {
    if k < n - 1 {
      SomeWriteSomeLast(h, k, n - 1);
    }
  }

  /** A history with a verdict ends settled exactly when no write unsettles it for good. */
  lemma LastWriteDecides(h: seq<Option<DocumentStatus>>)
    requires HasVerdict(h)
    ensures LastWrite(h, |h|).Some?
    ensures Settled(LastWrite(h, |h|).value) <==> !exists k :: UnsettlesLast(h, k)
  {
    var v :| 0 <= v < |h| && IsVerdict(h[v]);
    SomeWriteSomeLast(h, v, |h|);
    LastWriteIsLast(h, |h|);
    var l :| 0 <= l < |h| && h[l] == LastWrite(h, |h|) && forall i :: l < i < |h| ==> h[i] == None;
    if Settled(h[l].value) {
      forall k: nat
        ensures !UnsettlesLast(h, k)
      {
        assert IsVerdict(h[l]);
      }
    } else {
      assert UnsettlesLast(h, l);
    }
  }

  lemma VerdictComesFirst(h: seq<Option<DocumentStatus>>, k: nat)
    requires HasVerdict(h) && UnsettlesLast(h, k)
    ensures HasVerdict(h[..k])
  {
    var v :| 0 <= v < |h| && IsVerdict(h[v]);
    assert v < k;
    assert h[..k][v] == h[v];
  }

  lemma {:induction false} StatusIsLastWrite(run: seq<Action>, n: nat, d: string)
    requires n <= |run|
    ensures var s, last := After(INITIAL, run, n), LastWrite(History(run, n, d), n);
      (last.Some? <==> d in s.statuses) && (last.Some? ==> s.statuses[d] == last.value)
  {
    if n > 0 {
      StatusIsLastWrite(run, n - 1, d);
      WritesAreTheStatus(After(INITIAL, run, n - 1), run[n - 1], d);
      SameLastWrite(History(run, n, d), History(run, n - 1, d), n - 1);
    }
  }

  lemma {:induction false} SameLastWrite(h: seq<Option<DocumentStatus>>, g: seq<Option<DocumentStatus>>, n: nat)
    requires n <= |h| && n <= |g| && h[..n] == g[..n]
    ensures LastWrite(h, n) == LastWrite(g, n)
  {
    if n > 0 {
      assert h[..n][n - 1] == g[..n][n - 1];
      assert h[..n - 1] == h[..n][..n - 1] && g[..n - 1] == g[..n][..n - 1];
      SameLastWrite(h, g, n - 1);
    }
  }

  /** Past the skip: the PREPROCESS row was read before it was COMPLETED, PROCESSING is still to be written. */
  predicate IsPast(worker: Worker) {
    && worker.Busy?
    && ((worker.phase.ReadPreprocess? && worker.phase.copy.status != COMPLETED)
        || worker.phase.Preparing? || worker.phase.Prepared?)
  }

  /** The action delivers an upload of `d` to `w`, which reads the PREPROCESS row before it is COMPLETED. */
  predicate ReadsUncompleted(s: State, a: Action, w: nat, d: string) {
    && a.Receive? && a.w == w && Enabled(s, a)
    && s.mail.messages[a.id].DocumentReady? && s.mail.messages[a.id].document == d
    && (Stored(s.preprocess, d).Some? ==> Stored(s.preprocess, d).value.status != COMPLETED)
  }

  predicate PastOn(s: State, w: nat, d: string) {
    IsPast(At(s, w)) && At(s, w).document == d
  }

  predicate PastAt(run: seq<Action>, i: nat, w: nat, d: string)
    requires i <= |run|
  {
    PastOn(After(INITIAL, run, i), w, d)
  }

  /** Action `j` delivered an upload of `d` to worker `w`, which has been past the skip ever since. */
  ghost predicate PastSince(run: seq<Action>, j: nat, n: nat, w: nat, d: string)
    requires n <= |run|
  {
    && j < n
    && ReadsUncompleted(After(INITIAL, run, j), run[j], w, d)
    && forall i :: j < i <= n ==> PastAt(run, i, w, d)
  }

  /**
   A delivery of the document's own upload read the PREPROCESS row before it was COMPLETED and
   wrote PROCESSING at action `k`, and nothing settled the document after that.
   */
  ghost predicate LateWrite(run: seq<Action>, k: nat, n: nat, d: string)
    requires n <= |run|
  {
    && UnsettlesLast(History(run, n, d), k)
    && run[k].MarkProcessing? && Reopens(After(INITIAL, run, k), run[k], d)
    && exists j :: PastSince(run, j, k, run[k].w, d)
  }

  lemma BecomesPast(s: State, a: Action, w: nat, d: string)
    requires PastOn(Act(s, a), w, d)
    ensures PastOn(s, w, d) || ReadsUncompleted(s, a, w, d)
  {
    if Enabled(s, a) {
      if IsOutside(a) || a.w != w {
        OthersUntouched(s, a, w);
      } else if IsMove(a) {
        MoveIs(s, a);
      }
    }
  }

  lemma {:induction false} PastHasReadTheRow(run: seq<Action>, n: nat, w: nat, d: string)
    requires n <= |run| && PastAt(run, n, w, d)
    ensures exists j :: PastSince(run, j, n, w, d)
  {
    if n > 0 {
      RunKeepsInv(INITIAL, run, n - 1);
      BecomesPast(After(INITIAL, run, n - 1), run[n - 1], w, d);
      if PastAt(run, n - 1, w, d) {
        PastHasReadTheRow(run, n - 1, w, d);
        var j :| PastSince(run, j, n - 1, w, d);
        PastGoesOn(run, j, n, w, d);
      } else {
        PastStarts(run, n, w, d);
      }
    }
  }

  lemma PastStarts(run: seq<Action>, n: nat, w: nat, d: string)
    requires 0 < n <= |run| && PastAt(run, n, w, d)
    requires ReadsUncompleted(After(INITIAL, run, n - 1), run[n - 1], w, d)
    ensures PastSince(run, n - 1, n, w, d)
  {
    forall i | n - 1 < i <= n
      ensures PastAt(run, i, w, d)
    {
      assert i == n;
    }
  }

  lemma PastGoesOn(run: seq<Action>, j: nat, n: nat, w: nat, d: string)
    requires 0 < n <= |run| && PastSince(run, j, n - 1, w, d) && PastAt(run, n, w, d)
    ensures PastSince(run, j, n, w, d)
  {
  }

  /** Once a document was settled, only a delivery past the skip can unsettle it. */
  lemma UnsettlingIsReopening(run: seq<Action>, k: nat, d: string)
    requires k < |run| && HasVerdict(History(run, k, d))
    requires Writes(After(INITIAL, run, k), run[k], d).Some?
    requires !Settled(Writes(After(INITIAL, run, k), run[k], d).value)
    ensures run[k].MarkProcessing? && Reopens(After(INITIAL, run, k), run[k], d)
    ensures exists j :: PastSince(run, j, k, run[k].w, d)
  {
    LastWriteDecides(History(run, k, d));
    StatusIsLastWrite(run, k, d);
    UnsettlingStep(After(INITIAL, run, k), run[k], d);
    PastHasReadTheRow(run, k, run[k].w, d);
  }

  lemma UnsettlingStep(s: State, a: Action, d: string)
    requires d in s.statuses && Writes(s, a, d).Some? && !Settled(Writes(s, a, d).value)
    ensures a.MarkProcessing? && Reopens(s, a, d) && IsPast(At(s, a.w)) && At(s, a.w).document == d
  {
  }

  /** Once a document was settled, it is settled exactly when no late write followed. */
  lemma SettledIffNoLateWrite(run: seq<Action>, n: nat, d: string)
    requires n <= |run| && HasVerdict(History(run, n, d))
    ensures d in After(INITIAL, run, n).statuses
    ensures Settled(After(INITIAL, run, n).statuses[d]) <==> !exists k :: LateWrite(run, k, n, d)
  {
    var h := History(run, n, d);
    LastWriteDecides(h);
    StatusIsLastWrite(run, n, d);
    forall k | UnsettlesLast(h, k)
      ensures LateWrite(run, k, n, d)
    {
      UnsettlerIsLate(run, k, n, d);
    }
  }

  lemma UnsettlerIsLate(run: seq<Action>, k: nat, n: nat, d: string)
    requires n <= |run| && HasVerdict(History(run, n, d)) && UnsettlesLast(History(run, n, d), k)
    ensures LateWrite(run, k, n, d)
  {
    VerdictComesFirst(History(run, n, d), k);
    HistoryIsPrefix(run, k, n, d);
    HistoryAt(run, k, n, d);
    UnsettlingIsReopening(run, k, d);
  }

  /** A completion that was handled, or deleted, has settled its document at some point. */
  ghost predicate HandledWasSettled(run: seq<Action>, n: nat)
    requires n <= |run|
  {
    var s := After(INITIAL, run, n);
    && (forall id :: id in s.mail.deleted && id in s.mail.messages && s.mail.messages[id].TextractCompleted? ==>
      HasVerdict(History(run, n, s.mail.messages[id].document)))
    && (forall w :: w in s.workers && IsHandled(s, s.workers[w]) ==>
      HasVerdict(History(run, n, s.workers[w].document)))
  }

  predicate IsHandled(s: State, worker: Worker) {
    worker.Busy? && worker.phase.Done? && worker.id in s.mail.messages && s.mail.messages[worker.id].TextractCompleted?
  }

  lemma VerdictsStay(run: seq<Action>, n: nat, d: string)
    requires 0 < n <= |run|
    ensures HasVerdict(History(run, n - 1, d)) || Settles(After(INITIAL, run, n - 1), run[n - 1], d) ==>
      HasVerdict(History(run, n, d))
  {
    var g, h := History(run, n - 1, d), History(run, n, d);
    if HasVerdict(g) {
      var k :| 0 <= k < |g| && IsVerdict(g[k]);
      assert IsVerdict(h[k]);
    }
    if Settles(After(INITIAL, run, n - 1), run[n - 1], d) {
      assert IsVerdict(h[n - 1]);
    }
  }

  lemma {:induction false} HandledHasSettled(run: seq<Action>, n: nat)
    requires n <= |run|
    ensures HandledWasSettled(run, n)
  {
    if n > 0 {
      HandledHasSettled(run, n - 1);
      RunKeepsInv(INITIAL, run, n - 1);
      var s, a := After(INITIAL, run, n - 1), run[n - 1];
      var t := Act(s, a);
      StepKeepsInv(s, a);
      forall w | w in t.workers && IsHandled(t, t.workers[w])
        ensures HasVerdict(History(run, n, t.workers[w].document))
      {
        BecomesHandled(s, a, w);
        VerdictsStay(run, n, t.workers[w].document);
      }
      forall id | id in t.mail.deleted && id in t.mail.messages && t.mail.messages[id].TextractCompleted?
        ensures HasVerdict(History(run, n, t.mail.messages[id].document))
      {
        BecomesDeleted(s, a, id);
        VerdictsStay(run, n, t.mail.messages[id].document);
      }
    }
  }

  /** The handler of a completion returns by settling. */
  lemma ReturnsBySettling(s: State, d: string, phase: Phase, a: Action)
    requires Expects(phase, a) && IsMove(a) && OfCompletion(phase) && Next(s, d, phase, a) == Some(Done)
    ensures a.Settle? && Settled(Verdict(phase.succeeded, a.run).value)
  {
  }

  lemma BecomesHandled(s: State, a: Action, w: nat)
    requires Inv(s) && w in Act(s, a).workers && IsHandled(Act(s, a), Act(s, a).workers[w])
    ensures var d := Act(s, a).workers[w].document;
      Settles(s, a, d) || (w in s.workers && s.workers[w] == Act(s, a).workers[w] && IsHandled(s, s.workers[w]))
  {
    if Enabled(s, a) {
      assert WorkerFits(s, At(s, w));
      if IsOutside(a) || a.w != w {
        OthersUntouched(s, a, w);
        StepFits(s, a);
      } else if IsMove(a) {
        MoveIs(s, a);
        MoveKeepsMail(s, a);
        ReturnsBySettling(s, At(s, w).document, At(s, w).phase, a);
      }
    }
  }

  lemma BecomesDeleted(s: State, a: Action, id: nat)
    requires Inv(s) && id in Act(s, a).mail.deleted && id in Act(s, a).mail.messages
    requires Act(s, a).mail.messages[id].TextractCompleted?
    ensures id in s.mail.messages && s.mail.messages[id] == Act(s, a).mail.messages[id]
    ensures id in s.mail.deleted ||
      (a.Delete? && a.w in s.workers && IsHandled(s, s.workers[a.w])
       && s.workers[a.w].document == s.mail.messages[id].document)
  {
    if Enabled(s, a) {
      if !IsOutside(a) {
        assert WorkerFits(s, At(s, a.w));
        if IsMove(a) {
          EffectKeepsMail(s, At(s, a.w).document, At(s, a.w).phase, a);
        }
      }
    }
  }

  /** No message is lost: each is on the queue, on the dead-letter queue, or deleted. */
  lemma NoMessageIsLost(run: seq<Action>, n: nat, id: nat)
    requires n <= |run| && id in After(INITIAL, run, n).mail.messages
    ensures var mail := After(INITIAL, run, n).mail;
      id in mail.queued || id in mail.deleted || id in mail.deadLettered
  {
    RunKeepsInv(INITIAL, run, n);
  }

  /** `id` is a completion of document `d`, and was deleted. */
  predicate DeletedCompletion(s: State, id: nat, d: string) {
    && id in s.mail.deleted && id in s.mail.messages
    && s.mail.messages[id].TextractCompleted? && s.mail.messages[id].document == d
  }

  /**
   The document of a deleted completion is settled exactly when no delivery of that document's own
   upload, past the skip, wrote PROCESSING with no verdict after it.
   */
  lemma DeletedIsSettledIff(run: seq<Action>, n: nat, id: nat, d: string)
    requires n <= |run| && DeletedCompletion(After(INITIAL, run, n), id, d)
    ensures IsSettled(After(INITIAL, run, n), d) <==> !exists k :: LateWrite(run, k, n, d)
  {
    HandledHasSettled(run, n);
    SettledIffNoLateWrite(run, n, d);
  }

  /** No delivery of `d` writes PROCESSING once `d` was settled. */
  ghost predicate NoneIsLate(run: seq<Action>, n: nat, d: string)
    requires n <= |run|
  {
    forall k :: 0 <= k < n && HasVerdict(History(run, k, d)) ==> !Reopens(After(INITIAL, run, k), run[k], d)
  }

  /** So, whatever other documents go through, a completion is deleted only when its document is settled. */
  lemma DeletedOnlyWhenSettled(run: seq<Action>, n: nat, id: nat, d: string)
    requires n <= |run| && DeletedCompletion(After(INITIAL, run, n), id, d) && NoneIsLate(run, n, d)
    ensures IsSettled(After(INITIAL, run, n), d)
  {
    HandledHasSettled(run, n);
    SettledIffNoLateWrite(run, n, d);
    forall k: nat
      ensures !LateWrite(run, k, n, d)
    {
      if UnsettlesLast(History(run, n, d), k) {
        VerdictComesFirst(History(run, n, d), k);
        HistoryIsPrefix(run, k, n, d);
      }
    }
  }
}
