/** A delivery that nothing overlaps spends, step by step, what the sequential run spends. */
module SoloExtractions {
  import opened Prelude
  import opened Extraction
  import opened ExtractedTables
  import O = OverlappingExtractions

  /** What a worker does for one table: reuse the answer it read, or pay for one and store it. */
  function StepsFor(w: nat, cache: Answers, d: Delivery, table: string): seq<O.Action> {
    if (table, d.version) in cache then [O.Reuse(w)] else [O.Pay(w), O.Record(w)]
  }

  function StepsOfLoop(w: nat, cache: Answers, d: Delivery, tables: seq<string>): seq<O.Action> {
    if tables == [] then [O.Finish(w)] else StepsFor(w, cache, d, tables[0]) + StepsOfLoop(w, cache, d, tables[1..])
  }

  /** Actions of one worker that begin nothing. */
  ghost predicate Goes(w: nat, run: seq<O.Action>) {
    forall i :: 0 <= i < |run| ==> run[i].w == w && !run[i].Begin?
  }

  lemma {:induction false} LoopGoes(w: nat, cache: Answers, d: Delivery, tables: seq<string>)
    ensures Goes(w, StepsOfLoop(w, cache, d, tables))
    decreases |tables|
  {
    if tables != [] {
      LoopGoes(w, cache, d, tables[1..]);
    }
  }

  /** An idle worker that begins nothing does nothing. */
  lemma {:induction false} IdleDoesNothing(s: O.State, w: nat, run: seq<O.Action>)
    requires O.At(s, w).Idle? && Goes(w, run)
    ensures O.After(s, run) == s
    decreases |run|
  {
    if run != [] {
      assert run[0].w == w && !run[0].Begin?;
      assert forall i :: 0 <= i < |run[1..]| ==> run[1..][i] == run[i + 1];
      IdleDoesNothing(s, w, run[1..]);
    }
  }

  lemma {:induction false} InParts(s: O.State, a: seq<O.Action>, b: seq<O.Action>)
    ensures O.After(s, a + b) == O.After(O.After(s, a), b)
    decreases |a|
  {
    if a == [] {
      assert a + b == b;
    } else {
      assert (a + b)[1..] == a[1..] + b;
      InParts(O.Act(s, a[0]), a[1..], b);
    }
  }

  function With(s: O.State, spend: Spend, failures: nat, w: nat, worker: O.Worker): O.State {
    O.State(spend, failures, s.workers[w := worker])
  }

  /** The first table: its answer is there or obtained, and the worker goes on, or the delivery fails. */
  lemma OneTable(s: O.State, w: nat, d: Delivery, cache: Answers, tables: seq<string>)
    requires tables != [] && O.At(s, w) == O.Running(d, cache, tables)
    ensures O.After(s, StepsFor(w, cache, d, tables[0])) ==
      if Obtains(cache, d, tables[0])
      then With(s, Obtained(s.spend, cache, d, tables[0]), s.failures, w, O.Running(d, cache, tables[1..]))
      else With(s, Paid(s.spend, tables[0], d), s.failures + 1, w, O.Idle)
  {
    var t := tables[0];
    ObtainsIff(cache, d, t);
    if (t, d.version) in cache {
      OneStep(s, O.Reuse(w));
    } else {
      TwoSteps(s, O.Pay(w), O.Record(w));
      var paid := With(s, Paid(s.spend, t, d), s.failures, w, O.Worker.Paid(d, cache, tables, FinalReply(t, d.replies)));
      assert O.Act(s, O.Pay(w)) == paid;
      StoresOrFails(paid, w, d, cache, tables, FinalReply(t, d.replies));
      assert paid.workers[w := O.Idle] == s.workers[w := O.Idle];
      assert paid.workers[w := O.Running(d, cache, tables[1..])] == s.workers[w := O.Running(d, cache, tables[1..])];
    }
  }

  lemma StoresOrFails(s: O.State, w: nat, d: Delivery, cache: Answers, tables: seq<string>, answer: Option<Records>)
    requires tables != [] && O.At(s, w) == O.Worker.Paid(d, cache, tables, answer)
    ensures O.Act(s, O.Record(w)) ==
      if answer.Some? && d.commits(tables[0])
      then With(s, s.spend.(answers := s.spend.answers[(tables[0], d.version) := answer.value]), s.failures, w,
                O.Running(d, cache, tables[1..]))
      else With(s, s.spend, s.failures + 1, w, O.Idle)
  {
  }

  lemma OneStep(s: O.State, a: O.Action)
    ensures O.After(s, [a]) == O.Act(s, a)
  {
    assert [a][1..] == [];
  }

  lemma TwoSteps(s: O.State, a: O.Action, b: O.Action)
    ensures O.After(s, [a, b]) == O.Act(O.Act(s, a), b)
  {
    assert [a, b][1..] == [b];
    OneStep(O.Act(s, a), b);
  }

  lemma Finishes(s: O.State, w: nat, d: Delivery, cache: Answers)
    requires O.At(s, w) == O.Running(d, cache, [])
    ensures O.After(s, [O.Finish(w)]) == With(s, s.spend, s.failures + (if d.restFails then 1 else 0), w, O.Idle)
  {
    OneStep(s, O.Finish(w));
  }

  /** What a run of the loop leaves: its spend, a failure if it failed, and the worker idle. */
  ghost predicate IsLoopOf(s: O.State, after: O.State, w: nat, d: Delivery, cache: Answers, tables: seq<string>,
                           records: seq<(string, Records)>) {
    var (spend, outcome) := Loop(s.spend, cache, tables, d, records);
    after == With(s, spend, s.failures + (if outcome.Failed? then 1 else 0), w, O.Idle)
  }

  lemma {:induction false} LoopStepByStep(s: O.State, w: nat, d: Delivery, cache: Answers, tables: seq<string>,
                                          records: seq<(string, Records)>)
    requires O.At(s, w) == O.Running(d, cache, tables)
    ensures IsLoopOf(s, O.After(s, StepsOfLoop(w, cache, d, tables)), w, d, cache, tables, records)
    decreases |tables|
  {
    if tables == [] {
      Finishes(s, w, d, cache);
    } else {
      var t, rest := tables[0], StepsOfLoop(w, cache, d, tables[1..]);
      var next := O.After(s, StepsFor(w, cache, d, t));
      InParts(s, StepsFor(w, cache, d, t), rest);
      OneTable(s, w, d, cache, tables);
      LoopStep(s.spend, cache, tables, d, records);
      if Obtains(cache, d, t) {
        var more := records + [(t, AnswerOf(cache, d, t))];
        LoopStepByStep(next, w, d, cache, tables[1..], more);
        SameWorkers(s, next, w, O.Running(d, cache, tables[1..]));
      } else {
        LoopGoes(w, cache, d, tables[1..]);
        IdleDoesNothing(next, w, rest);
      }
    }
  }

  lemma SameWorkers(s: O.State, next: O.State, w: nat, worker: O.Worker)
    requires next.workers == s.workers[w := worker]
    ensures next.workers[w := O.Idle] == s.workers[w := O.Idle]
  {
  }

  /** The steps of a delivery that nothing overlaps. */
  function Solo(s: Spend, w: nat, d: Delivery): seq<O.Action> {
    [O.Begin(w, d)] + if |Wanted(d)| > d.ceiling then [] else StepsOfLoop(w, s.answers, d, Wanted(d))
  }

  /** Taken alone, the steps spend, store and fail as the sequential run does. */
  lemma SoloIsDelivered(s: O.State, w: nat, d: Delivery)
    requires O.At(s, w).Idle?
    ensures var (spend, outcome) := Delivered(s.spend, d);
      O.After(s, Solo(s.spend, w, d)) == With(s, spend, s.failures + (if outcome.Failed? then 1 else 0), w, O.Idle)
  {
    OneStep(s, O.Begin(w, d));
    if |Wanted(d)| > d.ceiling {
      assert [O.Begin(w, d)] + [] == [O.Begin(w, d)];
    } else {
      var begun := O.Act(s, O.Begin(w, d));
      InParts(s, [O.Begin(w, d)], StepsOfLoop(w, s.spend.answers, d, Wanted(d)));
      LoopStepByStep(begun, w, d, s.spend.answers, Wanted(d), []);
      SameWorkers(s, begun, w, O.Running(d, s.spend.answers, Wanted(d)));
    }
  }
}
