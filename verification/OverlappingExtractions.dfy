/**
 What overlapping deliveries of one document can cost (run_extraction.py `run`).

 Each delivery reads the stored answers once, before its loop, so two that overlap do not see each
 other's answers. The steps of any number of workers are interleaved at will, and a worker may die
 between any two.
 */
module OverlappingExtractions {
  import opened Prelude
  import opened Extraction
  import opened ExtractionSpend

  /** `cache` is what the delivery read, `left` the tables still to do; `Paid` has its answer, not yet stored. */
  datatype Worker =
    | Idle
    | Running(d: Delivery, cache: Answers, left: seq<string>)
    | Paid(d: Delivery, cache: Answers, left: seq<string>, answer: Option<Records>)

  datatype State = State(spend: Spend, failures: nat, workers: map<nat, Worker>)

  const INITIAL := State(Spend(map[], [], 0), 0, map[])

  datatype Action =
    | Begin(w: nat, d: Delivery) | Reuse(w: nat) | Pay(w: nat) | Record(w: nat) | Finish(w: nat) | Stop(w: nat)

  function At(s: State, w: nat): Worker {
    if w in s.workers then s.workers[w] else Idle
  }

  predicate HasAnswer(worker: Worker)
    requires worker.Running?
  {
    worker.left != [] && (worker.left[0], worker.d.version) in worker.cache
  }

  predicate Enabled(s: State, a: Action) {
    var worker := At(s, a.w);
    match a
    case Begin(_, _) => worker.Idle?
    case Reuse(_) => worker.Running? && HasAnswer(worker)
    case Pay(_) => worker.Running? && worker.left != [] && !HasAnswer(worker)
    case Record(_) => worker.Paid? && worker.left != []
    case Finish(_) => worker.Running? && worker.left == []
    case Stop(_) => !worker.Idle?
  }

  /** The answer came and is committed. */
  predicate Stores(worker: Worker)
    requires worker.Paid? && worker.left != []
  {
    worker.answer.Some? && worker.d.commits(worker.left[0])
  }

  function Next(s: State, a: Action): Worker
    requires Enabled(s, a)
  {
    var worker := At(s, a.w);
    match a
    case Begin(_, d) =>
      var tables := Extractable(TableOrder(d.cells), d.locate);
      if |tables| > d.ceiling then Idle else Running(d, s.spend.answers, tables)
    case Reuse(_) => Running(worker.d, worker.cache, worker.left[1..])
    case Pay(_) => Paid(worker.d, worker.cache, worker.left, FinalReply(worker.left[0], worker.d.replies))
    case Record(_) => if Stores(worker) then Running(worker.d, worker.cache, worker.left[1..]) else Idle
    case Finish(_) => Idle
    case Stop(_) => Idle
  }

  function Spent(s: State, a: Action): Spend
    requires Enabled(s, a)
  {
    var worker := At(s, a.w);
    match a
    case Pay(_) => Extraction.Paid(s.spend, worker.left[0], worker.d)
    case Record(_) =>
      if Stores(worker)
      then s.spend.(answers := s.spend.answers[(worker.left[0], worker.d.version) := worker.answer.value])
      else s.spend
    case _ => s.spend
  }

  /** The action ends a delivery that did not complete. */
  predicate Fails(s: State, a: Action)
    requires Enabled(s, a)
  {
    a.Stop? || (a.Record? && !Stores(At(s, a.w))) || (a.Finish? && At(s, a.w).d.restFails)
  }

  /** An action that is not possible changes nothing. */
  function Act(s: State, a: Action): State {
    if Enabled(s, a)
    then State(Spent(s, a), s.failures + if Fails(s, a) then 1 else 0, s.workers[a.w := Next(s, a)])
    else s
  }

  function After(s: State, run: seq<Action>): State
    decreases |run|
  {
    if run == [] then s else After(Act(s, run[0]), run[1..])
  }

  // ------------------------------------------------------------------------
  // Accounting: an answer is stored at most once by each worker
  // ------------------------------------------------------------------------

  type Question = (string, string)

  /** The question a worker's step stores the answer of, with the worker. */
  ghost function Keeps(s: State, a: Action): set<(Question, nat)> {
    if Enabled(s, a) && a.Record? && Stores(At(s, a.w))
    then {((At(s, a.w).left[0], At(s, a.w).d.version), a.w)} else {}
  }

  /** What has been stored, and by whom, when `kept` has been before the run. */
  ghost function KeptAfter(s: State, run: seq<Action>, kept: set<(Question, nat)>): set<(Question, nat)>
    decreases |run|
  {
    if run == [] then kept else KeptAfter(Act(s, run[0]), run[1..], kept + Keeps(s, run[0]))
  }

  /** The questions of the delivery the action begins. */
  ghost function Asks(a: Action): set<Question> {
    if a.Begin? then Questions(a.d) else {}
  }

  /** The questions of the deliveries begun. */
  ghost function Asked(run: seq<Action>): set<Question>
    decreases |run|
  {
    if run == [] then {} else Asks(run[0]) + Asked(run[1..])
  }

  ghost predicate AsksOnly(run: seq<Action>, asked: set<Question>) {
    forall a :: a in run ==> Asks(a) <= asked
  }

  lemma {:induction false} AskedIsAsked(run: seq<Action>)
    ensures AsksOnly(run, Asked(run))
    decreases |run|
  {
    if run != [] {
      AskedIsAsked(run[1..]);
      assert forall a :: a in run ==> a == run[0] || a in run[1..];
    }
  }

  ghost function InFlight(workers: map<nat, Worker>): set<nat> {
    set w | w in workers && workers[w].Paid?
  }

  /** The tables left are distinct and of the delivery, and the one paid for was not read as answered. */
  ghost predicate WorkerFits(worker: Worker, asked: set<Question>) {
    !worker.Idle? ==>
      && Distinct(worker.left)
      && (forall t :: t in worker.left ==> (t, worker.d.version) in asked)
      && (worker.Paid? ==> worker.left != [] && (worker.left[0], worker.d.version) !in worker.cache)
  }

  /** A worker that stored an answer reads it in every later delivery, and is past it in this one. */
  ghost predicate IsPast(s: State, kept: (Question, nat)) {
    && kept.0 in s.spend.answers
    && (!At(s, kept.1).Idle? && kept.0.1 == At(s, kept.1).d.version && kept.0.0 in At(s, kept.1).left ==>
          kept.0 in At(s, kept.1).cache)
  }

  ghost predicate AllFit(s: State, asked: set<Question>) {
    forall w :: w in s.workers ==> WorkerFits(s.workers[w], asked)
  }

  ghost predicate AllPast(s: State, kept: set<(Question, nat)>, asked: set<Question>) {
    forall p :: p in kept ==> IsPast(s, p) && p.0 in asked
  }

  ghost predicate Accounted(s: State, kept: nat) {
    && |s.spend.runs| <= kept + s.failures + |InFlight(s.workers)|
    && s.spend.invocations <= 2 * |s.spend.runs|
  }

  lemma TablesAreAsked(d: Delivery)
    ensures var tables := Extractable(TableOrder(d.cells), d.locate);
      Distinct(tables) && forall t :: t in tables ==> (t, d.version) in Questions(d)
  {
    forall t | t in Extractable(TableOrder(d.cells), d.locate)
      ensures (t, d.version) in Questions(d)
    {
      var c :| c in d.cells && c.table == t;
    }
  }

  lemma NextFits(s: State, a: Action, asked: set<Question>)
    requires Enabled(s, a) && WorkerFits(At(s, a.w), asked) && Asks(a) <= asked
    ensures WorkerFits(Next(s, a), asked)
  {
    if a.Begin? {
      TablesAreAsked(a.d);
    }
  }

  /** What was kept stays past, whoever acts. */
  lemma KeptStaysPast(s: State, a: Action, asked: set<Question>, p: (Question, nat))
    requires WorkerFits(At(s, a.w), asked) && IsPast(s, p)
    ensures IsPast(Act(s, a), p)
  {
  }

  /** What a worker stores now it did not store before, and it is past it afterwards. */
  lemma KeepsSomethingNew(s: State, a: Action, asked: set<Question>, p: (Question, nat))
    requires WorkerFits(At(s, a.w), asked) && p in Keeps(s, a)
    ensures !IsPast(s, p) && IsPast(Act(s, a), p) && p.0 in asked
  {
  }

  lemma InFlightAfter(workers: map<nat, Worker>, w: nat, worker: Worker)
    ensures |InFlight(workers[w := worker])| ==
      |InFlight(workers) - {w}| + if worker.Paid? then 1 else 0
    ensures |InFlight(workers)| == |InFlight(workers) - {w}| + if w in workers && workers[w].Paid? then 1 else 0
  {
    var rest := InFlight(workers) - {w};
    assert InFlight(workers[w := worker]) == if worker.Paid? then rest + {w} else rest;
    assert InFlight(workers) == if w in workers && workers[w].Paid? then rest + {w} else rest;
  }

  /** A run is either of an answer kept, or of a failed delivery, or still to be stored. */
  lemma RunsAreAccounted(s: State, a: Action)
    ensures var t := Act(s, a);
      |t.spend.runs| - |s.spend.runs| <=
        |Keeps(s, a)| + (t.failures - s.failures) + (|InFlight(t.workers)| - |InFlight(s.workers)|)
    ensures |Act(s, a).spend.runs| >= |s.spend.runs|
    ensures Act(s, a).spend.invocations - s.spend.invocations <= 2 * (|Act(s, a).spend.runs| - |s.spend.runs|)
  {
    if Enabled(s, a) {
      InFlightAfter(s.workers, a.w, Next(s, a));
    }
  }

  lemma StepKeepsFit(s: State, a: Action, asked: set<Question>)
    requires AllFit(s, asked) && Asks(a) <= asked
    ensures AllFit(Act(s, a), asked)
  {
    assert WorkerFits(At(s, a.w), asked);
    if Enabled(s, a) {
      NextFits(s, a, asked);
    }
  }

  lemma StepKeepsPast(s: State, a: Action, kept: set<(Question, nat)>, asked: set<Question>)
    requires AllFit(s, asked) && AllPast(s, kept, asked)
    ensures AllPast(Act(s, a), kept + Keeps(s, a), asked)
  {
    assert WorkerFits(At(s, a.w), asked);
    forall p | p in kept + Keeps(s, a)
      ensures IsPast(Act(s, a), p) && p.0 in asked
    {
      if p in kept {
        KeptStaysPast(s, a, asked, p);
      } else {
        KeepsSomethingNew(s, a, asked, p);
      }
    }
  }

  lemma KeepsAdd(s: State, a: Action, kept: set<(Question, nat)>, asked: set<Question>)
    requires AllFit(s, asked) && AllPast(s, kept, asked)
    ensures |kept + Keeps(s, a)| == |kept| + |Keeps(s, a)|
  {
    assert WorkerFits(At(s, a.w), asked);
    forall p | p in Keeps(s, a)
      ensures p !in kept
    {
      KeepsSomethingNew(s, a, asked, p);
    }
    assert kept !! Keeps(s, a);
  }

  lemma StepAddsUp(s: State, a: Action, kept: set<(Question, nat)>, asked: set<Question>)
    requires AllFit(s, asked) && AllPast(s, kept, asked) && Accounted(s, |kept|)
    ensures Accounted(Act(s, a), |kept + Keeps(s, a)|)
  {
    KeepsAdd(s, a, kept, asked);
    RunsAreAccounted(s, a);
  }

  lemma {:induction false} RunAddsUp(s: State, run: seq<Action>, kept: set<(Question, nat)>, asked: set<Question>)
    requires AllFit(s, asked) && AllPast(s, kept, asked) && Accounted(s, |kept|) && AsksOnly(run, asked)
    ensures var all := KeptAfter(s, run, kept);
      Accounted(After(s, run), |all|) && AllPast(After(s, run), all, asked)
    decreases |run|
  {
    if run != [] {
      var a := run[0];
      StepKeepsFit(s, a, asked);
      StepKeepsPast(s, a, kept, asked);
      StepAddsUp(s, a, kept, asked);
      RunAddsUp(Act(s, a), run[1..], kept + Keeps(s, a), asked);
    }
  }

  /** At most `k` workers act. */
  ghost predicate Seats(run: seq<Action>, k: nat) {
    forall i :: 0 <= i < |run| ==> run[i].w < k
  }

  lemma {:induction false} KeptBySeats(s: State, run: seq<Action>, kept: set<(Question, nat)>, k: nat)
    requires Seats(run, k)
    requires (forall w :: w in s.workers ==> w < k) && forall p :: p in kept ==> p.1 < k
    ensures forall p :: p in KeptAfter(s, run, kept) ==> p.1 < k
    ensures forall w :: w in After(s, run).workers ==> w < k
    decreases |run|
  {
    if run != [] {
      assert forall i :: 0 <= i < |run[1..]| ==> run[1..][i] == run[i + 1];
      KeptBySeats(Act(s, run[0]), run[1..], kept + Keeps(s, run[0]), k);
    }
  }

  /** Pairs of a question and one of `k` workers are at most `k` times the questions. */
  lemma {:induction false} PairsAreFew(pairs: set<(Question, nat)>, questions: set<Question>, k: nat)
    requires forall p :: p in pairs ==> p.0 in questions && p.1 < k
    ensures |pairs| <= k * |questions|
  {
    if k == 0 {
      assert pairs == {};
    } else {
      var last := set p | p in pairs && p.1 == k - 1;
      PairsAreFew(pairs - last, questions, k - 1);
      var asked := set p | p in last :: p.0;
      OfOneWorker(last, asked, k - 1);
      SubsetSize(asked, questions);
      assert pairs == (pairs - last) + last;
      assert (k - 1) * |questions| + |questions| == k * |questions|;
    }
  }

  lemma OfOneWorker(pairs: set<(Question, nat)>, questions: set<Question>, w: nat)
    requires forall p :: p in pairs ==> p.0 in questions && p.1 == w
    ensures |pairs| <= |questions|
    decreases |pairs|
  {
    if pairs != {} {
      var p :| p in pairs;
      OfOneWorker(pairs - {p}, questions - {p.0}, w);
    }
  }

  lemma {:induction false} NumbersBelow(s: set<nat>, k: nat)
    requires forall w :: w in s ==> w < k
    ensures |s| <= k
  {
    if k == 0 {
      assert s == {};
    } else {
      NumbersBelow(s - {k - 1}, k - 1);
    }
  }

  /**
   Over every interleaving of the deliveries of one document by `k` workers, premium table runs are
   at most `k` times the distinct (table, prompt version) questions, plus the failed deliveries, plus
   the runs whose answer is still to be stored, of which there are at most `k`. The model is invoked
   at most twice per run. One worker gives the bound for deliveries in sequence.
   */
  lemma OverlappingSpendIsBounded(run: seq<Action>, k: nat)
    requires Seats(run, k)
    ensures var s := After(INITIAL, run);
      && |s.spend.runs| <= k * |Asked(run)| + s.failures + |InFlight(s.workers)|
      && |InFlight(s.workers)| <= k
      && s.spend.invocations <= 2 * |s.spend.runs|
  {
    AskedIsAsked(run);
    RunAddsUp(INITIAL, run, {}, Asked(run));
    KeptBySeats(INITIAL, run, {}, k);
    PairsAreFew(KeptAfter(INITIAL, run, {}), Asked(run), k);
    NumbersBelow(InFlight(After(INITIAL, run).workers), k);
  }

  lemma Begins(s: State, w: nat, d: Delivery, table: string)
    requires At(s, w).Idle? && Extractable(TableOrder(d.cells), d.locate) == [table] && d.ceiling >= 1
    ensures Act(s, Begin(w, d)) == s.(workers := s.workers[w := Running(d, s.spend.answers, [table])])
  {
  }

  lemma Pays(s: State, w: nat, d: Delivery, table: string, records: Records)
    requires At(s, w) == Running(d, map[], [table]) && d.replies(table, 1) == Answer(records)
    ensures Act(s, Pay(w)) == s.(
      spend := Spend(s.spend.answers, s.spend.runs + [(table, d.version)], s.spend.invocations + 1),
      workers := s.workers[w := Paid(d, map[], [table], Some(records))])
  {
  }

  lemma IsStored(s: State, w: nat, d: Delivery, table: string, records: Records)
    requires At(s, w) == Paid(d, map[], [table], Some(records)) && d.commits(table)
    ensures Act(s, Record(w)) == s.(
      spend := s.spend.(answers := s.spend.answers[(table, d.version) := records]),
      workers := s.workers[w := Running(d, map[], [])])
  {
    assert [table][1..] == [];
  }

  lemma Finishes(s: State, w: nat, d: Delivery)
    requires At(s, w) == Running(d, map[], []) && !d.restFails
    ensures Act(s, Finish(w)) == s.(workers := s.workers[w := Idle])
  {
  }

  function BothPaid(d: Delivery, table: string, records: Records): State {
    State(Spend(map[], [(table, d.version), (table, d.version)], 2), 0,
          map[0 := Paid(d, map[], [table], Some(records)), 1 := Paid(d, map[], [table], Some(records))])
  }

  lemma BothPay(d: Delivery, table: string, records: Records)
    requires Extractable(TableOrder(d.cells), d.locate) == [table] && d.ceiling >= 1
    requires d.replies(table, 1) == Answer(records)
    ensures Act(Act(Act(Act(INITIAL, Begin(0, d)), Begin(1, d)), Pay(0)), Pay(1)) == BothPaid(d, table, records)
  {
    var s1 := INITIAL.(workers := map[0 := Running(d, map[], [table])]);
    Begins(INITIAL, 0, d, table);
    assert Act(INITIAL, Begin(0, d)) == s1;
    var s2 := INITIAL.(workers := map[0 := Running(d, map[], [table]), 1 := Running(d, map[], [table])]);
    Begins(s1, 1, d, table);
    assert Act(s1, Begin(1, d)) == s2;
    Pays(s2, 0, d, table, records);
    Pays(Act(s2, Pay(0)), 1, d, table, records);
  }

  lemma BothStore(d: Delivery, table: string, records: Records)
    requires d.commits(table) && !d.restFails
    ensures var s := Act(Act(Act(Act(BothPaid(d, table, records), Record(0)), Record(1)), Finish(0)), Finish(1));
      && s.spend == Spend(map[(table, d.version) := records], [(table, d.version), (table, d.version)], 2)
      && s.failures == 0 && InFlight(s.workers) == {}
  {
    var s1 := Act(BothPaid(d, table, records), Record(0));
    IsStored(BothPaid(d, table, records), 0, d, table, records);
    IsStored(s1, 1, d, table, records);
    Finishes(Act(s1, Record(1)), 0, d);
    Finishes(Act(Act(s1, Record(1)), Finish(0)), 1, d);
  }

  /** Two workers that begin before either stores its answer. */
  function PaysTwice(d: Delivery): seq<Action> {
    [Begin(0, d), Begin(1, d), Pay(0), Pay(1)] + [Record(0), Record(1), Finish(0), Finish(1)]
  }

  lemma FourSteps(s: State, a: Action, b: Action, c: Action, d: Action, rest: seq<Action>)
    ensures After(s, [a, b, c, d] + rest) == After(Act(Act(Act(Act(s, a), b), c), d), rest)
  {
    assert ([a, b, c, d] + rest)[1..] == [b, c, d] + rest;
    assert ([b, c, d] + rest)[1..] == [c, d] + rest;
    assert ([c, d] + rest)[1..] == [d] + rest;
    assert ([d] + rest)[1..] == rest;
    assert After(Act(Act(s, a), b), [c, d] + rest) == After(Act(Act(Act(s, a), b), c), [d] + rest);
  }

  /** One table, one prompt version, no failure, two workers: the table is paid for twice. */
  lemma OverlappingDeliveriesPayTwice(d: Delivery, table: string, records: Records)
    requires Extractable(TableOrder(d.cells), d.locate) == [table] && d.ceiling >= 1
    requires d.replies(table, 1) == Answer(records) && d.commits(table) && !d.restFails
    ensures var s := After(INITIAL, PaysTwice(d));
      && s.spend == Spend(map[(table, d.version) := records], [(table, d.version), (table, d.version)], 2)
      && s.failures == 0 && InFlight(s.workers) == {}
  {
    FourSteps(INITIAL, Begin(0, d), Begin(1, d), Pay(0), Pay(1), [Record(0), Record(1), Finish(0), Finish(1)]);
    BothPay(d, table, records);
    FourSteps(BothPaid(d, table, records), Record(0), Record(1), Finish(0), Finish(1), []);
    BothStore(d, table, records);
    assert [Record(0), Record(1), Finish(0), Finish(1)] + [] == [Record(0), Record(1), Finish(0), Finish(1)];
  }
}
