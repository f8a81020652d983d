/**
 When a settled document can still be reopened by a delivery of its upload, in any reachable state.
 */
module Reopening {
  import opened Prelude
  import opened Repository
  import opened Completion
  import opened DocumentRuns
  import opened CompletionRuns

  /** Nothing can get past the skip on `d` any more: the PREPROCESS row is COMPLETED. */
  predicate SkipsFrom(s: State, d: string) {
    Stored(s.preprocess, d).Some? && Stored(s.preprocess, d).value.status == COMPLETED
  }

  predicate UploadWaits(s: State, id: nat, d: string) {
    && id in s.mail.queued && id in s.mail.messages
    && s.mail.messages[id].DocumentReady? && s.mail.messages[id].document == d
  }

  /**
   A delivery of the document's upload is past the skip, or the upload is still on the queue and
   the PREPROCESS row would let it past.
   */
  ghost predicate CanReopen(s: State, d: string) {
    (exists w :: PastOn(s, w, d)) || (!SkipsFrom(s, d) && exists id :: UploadWaits(s, id, d))
  }

  ghost predicate StaysSettled(s: State, d: string) {
    forall later: seq<Action> :: IsSettled(After(s, later, |later|), d)
  }

  lemma EffectKeepsRow(s: State, d: string, own: string, phase: Phase, a: Action)
    requires Expects(phase, a) && SkipsFrom(s, d)
    requires own == d ==> !IsPast(Busy(0, own, phase))
    ensures SkipsFrom(Effect(s, own, phase, a), d)
  {
  }

  lemma StaysSkipping(s: State, a: Action, d: string)
    requires Inv(s) && SkipsFrom(s, d) && forall w :: !PastOn(s, w, d)
    ensures SkipsFrom(Act(s, a), d)
  {
    if Enabled(s, a) && IsMove(a) {
      assert !PastOn(s, a.w, d);
      EffectKeepsRow(s, d, At(s, a.w).document, At(s, a.w).phase, a);
    }
  }

  lemma NoNewUpload(s: State, a: Action, id: nat, d: string)
    requires Inv(s) && d in s.statuses && UploadWaits(Act(s, a), id, d)
    ensures UploadWaits(s, id, d)
  {
    if Enabled(s, a) && IsMove(a) {
      assert WorkerFits(s, At(s, a.w));
      EffectKeepsMail(s, At(s, a.w).document, At(s, a.w).phase, a);
    }
  }

  lemma QuietStep(s: State, a: Action, d: string)
    requires Inv(s) && d in s.statuses && !CanReopen(s, d)
    ensures !CanReopen(Act(s, a), d)
  {
    var t := Act(s, a);
    forall w | PastOn(t, w, d)
      ensures false
    {
      BecomesPast(s, a, w, d);
      assert !PastOn(s, w, d);
      assert UploadWaits(s, a.id, d);
    }
    if !SkipsFrom(t, d) {
      if SkipsFrom(s, d) {
        StaysSkipping(s, a, d);
      }
      forall id | UploadWaits(t, id, d)
        ensures UploadWaits(s, id, d)
      {
        NoNewUpload(s, a, id, d);
      }
    }
  }

  lemma {:induction false} QuietRun(s: State, later: seq<Action>, n: nat, d: string)
    requires Inv(s) && IsSettled(s, d) && !CanReopen(s, d) && n <= |later|
    ensures IsSettled(After(s, later, n), d) && !CanReopen(After(s, later, n), d)
  {
    if n > 0 {
      QuietRun(s, later, n - 1, d);
      RunKeepsInv(s, later, n - 1);
      var u := After(s, later, n - 1);
      QuietStep(u, later[n - 1], d);
      QuietStatus(u, later[n - 1], d);
    }
  }

  lemma QuietStatus(s: State, a: Action, d: string)
    requires IsSettled(s, d) && !CanReopen(s, d)
    ensures IsSettled(Act(s, a), d)
  {
    WritesAreTheStatus(s, a, d);
    if Writes(s, a, d).Some? && !Settled(Writes(s, a, d).value) {
      UnsettlingStep(s, a, d);
      assert PastOn(s, a.w, d);
    }
  }

  lemma {:induction false} FirstStep(s: State, a: Action, later: seq<Action>, n: nat)
    requires n <= |later|
    ensures After(s, [a] + later, n + 1) == After(Act(s, a), later, n)
  {
    if n > 0 {
      FirstStep(s, a, later, n - 1);
      assert ([a] + later)[n] == later[n - 1];
    } else {
      assert After(s, [a] + later, 0) == s;
    }
  }

  lemma StartGoesOn(s: State, w: nat)
    requires At(s, w).Busy? && At(s, w).phase.ReadPreprocess? && At(s, w).phase.copy.status != COMPLETED
    ensures At(Act(s, StartPreprocess(w)), w) == Busy(At(s, w).id, At(s, w).document, Preparing(Repository.Started(At(s, w).phase.copy)))
  {
  }

  lemma CompleteGoesOn(s: State, w: nat)
    requires At(s, w).Busy? && At(s, w).phase.Preparing?
    ensures At(Act(s, CompletePreprocess(w)), w)
      == Busy(At(s, w).id, At(s, w).document, Prepared(At(s, w).phase.copy.(status := COMPLETED)))
  {
  }

  lemma ReceiveGetsPast(s: State, w: nat, id: nat, d: string)
    requires At(s, w).Idle? && UploadWaits(s, id, d) && !SkipsFrom(s, d)
    ensures IsPast(At(Act(s, Receive(w, id)), w)) && At(Act(s, Receive(w, id)), w).document == d
  {
  }

  lemma StopFreesWorker(s: State, w: nat)
    ensures At(Act(s, Stop(w)), w) == Idle
    ensures Act(s, Stop(w)).mail == s.mail && Act(s, Stop(w)).preprocess == s.preprocess
  {
  }

  /** A delivery past the skip can go on to write PROCESSING. */
  lemma PastCanReopen(s: State, w: nat, d: string) returns (later: seq<Action>)
    requires IsPast(At(s, w)) && At(s, w).document == d
    ensures !IsSettled(After(s, later, |later|), d)
    decreases if At(s, w).phase.ReadPreprocess? then 2 else if At(s, w).phase.Preparing? then 1 else 0
  {
    if At(s, w).phase.Prepared? {
      later := [MarkProcessing(w)];
      WritesAreTheStatus(s, MarkProcessing(w), d);
      assert After(s, later, 0) == s;
    } else {
      var a := if At(s, w).phase.Preparing? then CompletePreprocess(w) else StartPreprocess(w);
      if a.CompletePreprocess? {
        CompleteGoesOn(s, w);
      } else {
        StartGoesOn(s, w);
      }
      var rest := PastCanReopen(Act(s, a), w, d);
      FirstStep(s, a, rest, |rest|);
      later := [a] + rest;
    }
  }

  lemma IdleCanReopen(s: State, w: nat, id: nat, d: string) returns (later: seq<Action>)
    requires At(s, w).Idle? && UploadWaits(s, id, d) && !SkipsFrom(s, d)
    ensures !IsSettled(After(s, later, |later|), d)
  {
    ReceiveGetsPast(s, w, id, d);
    var rest := PastCanReopen(Act(s, Receive(w, id)), w, d);
    FirstStep(s, Receive(w, id), rest, |rest|);
    later := [Receive(w, id)] + rest;
  }

  /** An upload that is still on the queue and would get past the skip can do so again. */
  lemma WaitingCanReopen(s: State, id: nat, d: string) returns (later: seq<Action>)
    requires UploadWaits(s, id, d) && !SkipsFrom(s, d)
    ensures !IsSettled(After(s, later, |later|), d)
  {
    StopFreesWorker(s, 0);
    var rest := IdleCanReopen(Act(s, Stop(0)), 0, id, d);
    FirstStep(s, Stop(0), rest, |rest|);
    later := [Stop(0)] + rest;
  }

  /**
   In every reachable state, a document is settled for good, whatever happens next, exactly when it
   is settled, no delivery of its upload is past the skip, and none that waits could get past it.
   */
  lemma SettledForGoodIff(run: seq<Action>, n: nat, d: string)
    requires n <= |run|
    ensures var s := After(INITIAL, run, n);
      StaysSettled(s, d) <==> IsSettled(s, d) && !CanReopen(s, d)
  {
    var s := After(INITIAL, run, n);
    RunKeepsInv(INITIAL, run, n);
    if IsSettled(s, d) && !CanReopen(s, d) {
      forall later: seq<Action>
        ensures IsSettled(After(s, later, |later|), d)
      {
        QuietRun(s, later, |later|, d);
      }
    } else {
      var later := [];
      if !IsSettled(s, d) {
      } else if w :| PastOn(s, w, d) {
        later := PastCanReopen(s, w, d);
      } else {
        var id :| UploadWaits(s, id, d);
        later := WaitingCanReopen(s, id, d);
      }
      assert !IsSettled(After(s, later, |later|), d);
    }
  }
}
