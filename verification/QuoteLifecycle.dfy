/**
 The quote's approval gate: backend/api/quotes/views.py and the export worker in
 backend/pipeline/coordinator.py.

 Every request reads the quote, decides on what it read, and writes. `seen` is what was read, so
 a step whose `seen` is out of date is a request that another one overtook. The worker reads the
 quote, renders the lines it finds under the totals it read, and saves the status later. Edits may
 store any lines and totals; a returned vendor price stores what pricing makes of it. `approved`,
 `exports` and `marked` record what was approved, what each PDF showed, and whether EXPORTED was
 ever saved.
 */
module QuoteLifecycle {
  import opened Prelude
  import opened Rounding
  import opened ReferenceData
  import opened Pricing
  import opened PricingLaws
  import opened Assembly
  import opened Draft

  datatype Content = Content(lines: seq<LineRow>, totals: QuoteRow)

  datatype Quoted = Quoted(status: QuoteStatus, content: Content)

  /** `rendered` counts the workers that have rendered and not yet saved the status. */
  datatype State = State(
    quote: Option<Quoted>, approved: Option<Content>, exports: seq<Content>, marked: bool, requests: nat, rendered: nat)

  datatype Seen = Seen(status: QuoteStatus, flagged: bool, totals: QuoteRow)

  /** A vendor's price for a line, returned on `day` and entered on `terms`. */
  datatype Returned = Returned(line: nat, price: Decimal, day: int, terms: Terms)

  /**
   `Edit` is generation, recalculation and creating, changing or deleting a line. The last three
   have no guard on this quote: recording a vendor price, patching freight or jurisdiction, and
   changing another quote's line so that it belongs to this one.
   */
  datatype Op =
    | Edit(content: Content) | Approve | RequestExport | Render | MarkExported | Destroy
    | RecordPrice(returned: Returned) | PatchQuote(content: Content) | MoveLineIn(content: Content)

  predicate PriceIsTaken(content: Content, r: Returned) {
    CanEnter(content.lines, r.line, r.price, r.day, r.terms)
  }

  /** `apply_rfq_price` in its transaction: the line priced and the quote assembled, or nothing. */
  function AfterPrice(content: Content, r: Returned): Content {
    if PriceIsTaken(content, r) then
      var (totals, rows) :=
        Assembled(content.totals, Entered(content.lines, r.line, r.price, r.day, r.terms), r.terms);
      Content(rows, totals)
    else
      content
  }

  predicate Flagged(content: Content) {
    exists i :: 0 <= i < |content.lines| && content.lines[i].cost.needsReview
  }

  function Look(quote: Quoted): Seen {
    Seen(quote.status, Flagged(quote.content), quote.content.totals)
  }

  /** The guard a request passes on what it read. */
  predicate Performs(op: Op, seen: Seen) {
    match op
    case Edit(_) => seen.status == DRAFT
    case Approve => seen.status == DRAFT && !seen.flagged
    case RequestExport => seen.status in {APPROVED, EXPORTED}
    case Render => seen.status in {APPROVED, EXPORTED}
    case MarkExported => true
    case Destroy => seen.status == DRAFT
    case RecordPrice(_) => true
    case PatchQuote(_) => true
    case MoveLineIn(_) => true
  }

  predicate IsGuarded(op: Op) {
    !op.RecordPrice? && !op.PatchQuote? && !op.MoveLineIn?
  }

  /** The lines and totals after an operation. */
  function Changed(content: Content, op: Op): Content {
    if op.RecordPrice? then AfterPrice(content, op.returned)
    else if op.Edit? || op.PatchQuote? || op.MoveLineIn? then op.content
    else content
  }

  /** What the request writes once past its guard. */
  function Perform(s: State, op: Op, seen: Seen): State
    requires s.quote.Some?
  {
    var quote := s.quote.value;
    match op
    case Approve => s.(quote := Some(quote.(status := APPROVED)), approved := Some(quote.content))
    case RequestExport => s.(requests := s.requests + 1)
    case Render =>
      s.(exports := s.exports + [Content(quote.content.lines, seen.totals)], rendered := s.rendered + 1)
    case MarkExported =>
      s.(quote := Some(quote.(status := EXPORTED)), marked := true,
         rendered := if s.rendered > 0 then s.rendered - 1 else 0)
    case Destroy => s.(quote := None)
    case _ => s.(quote := Some(quote.(content := Changed(quote.content, op))))
  }

  /** A request goes through: the quote is there, an export has its message, the guard is passed. */
  predicate GoesThrough(s: State, op: Op, seen: Seen) {
    && s.quote.Some? && (op.Render? ==> s.requests > 0) && (op.MarkExported? ==> s.rendered > 0)
    && Performs(op, seen)
  }

  function Act(s: State, op: Op, seen: Seen): State {
    if GoesThrough(s, op, seen) then Perform(s, op, seen) else s
  }

  /** The quote in the database, as the views and the export worker change it. */
  class QuoteDesk {
    var status: QuoteStatus
    var content: Content
    var present: bool
    var requests: nat
    var rendered: nat
    var exports: seq<Content>
    ghost var approved: Option<Content>
    ghost var marked: bool

    ghost function Now(): State
      reads this
    {
      State(if present then Some(Quoted(status, content)) else None, approved, exports, marked, requests, rendered)
    }

    method Edit(seen: Seen, content: Content) returns (ok: bool)
      modifies this
      ensures Now() == Act(old(Now()), Op.Edit(content), seen) && ok == GoesThrough(old(Now()), Op.Edit(content), seen)
    {
      ok := present && seen.status == DRAFT;
      if ok {
        this.content := content;
      }
    }

    method Approve(seen: Seen) returns (ok: bool)
      modifies this
      ensures Now() == Act(old(Now()), Op.Approve, seen) && ok == GoesThrough(old(Now()), Op.Approve, seen)
    {
      ok := present && seen.status == DRAFT && !seen.flagged;
      if ok {
        status := APPROVED;
        approved := Some(content);
      }
    }

    method RequestExport(seen: Seen) returns (ok: bool)
      modifies this
      ensures Now() == Act(old(Now()), Op.RequestExport, seen) && ok == GoesThrough(old(Now()), Op.RequestExport, seen)
    {
      ok := present && (seen.status == APPROVED || seen.status == EXPORTED);
      if ok {
        requests := requests + 1;
      }
    }

    /** `handle_quote_export` up to the stored PDF, on a message that may be redelivered any number of times. */
    method Render(seen: Seen) returns (ok: bool)
      modifies this
      ensures Now() == Act(old(Now()), Op.Render, seen) && ok == GoesThrough(old(Now()), Op.Render, seen)
    {
      ok := present && requests > 0 && (seen.status == APPROVED || seen.status == EXPORTED);
      if ok {
        exports := exports + [Content(content.lines, seen.totals)];
        rendered := rendered + 1;
      }
    }

    /** The save that follows, which does not look at the quote again. */
    method MarkExported(seen: Seen) returns (ok: bool)
      modifies this
      ensures Now() == Act(old(Now()), Op.MarkExported, seen) && ok == GoesThrough(old(Now()), Op.MarkExported, seen)
    {
      ok := present && rendered > 0;
      if ok {
        status := EXPORTED;
        marked := true;
        rendered := rendered - 1;
      }
    }

    method Destroy(seen: Seen) returns (ok: bool)
      modifies this
      ensures Now() == Act(old(Now()), Op.Destroy, seen) && ok == GoesThrough(old(Now()), Op.Destroy, seen)
    {
      ok := present && seen.status == DRAFT;
      if ok {
        present := false;
      }
    }

    /** `record_price`: no guard. */
    method RecordPrice(seen: Seen, returned: Returned) returns (ok: bool)
      modifies this
      ensures Now() == Act(old(Now()), Op.RecordPrice(returned), seen)
      ensures ok == GoesThrough(old(Now()), Op.RecordPrice(returned), seen)
    {
      ok := present;
      if ok {
        content := AfterPrice(content, returned);
      }
    }
  }

  /**
   The gate: nothing is approved with a line to review, nothing is exported but what was approved,
   and lines and totals are still those approved. Only a draft that was never approved can be gone.
   */
  ghost predicate Gate(s: State) {
    if s.quote.None? || s.quote.value.status == DRAFT then
      s.approved == None && s.exports == [] && !s.marked && s.rendered == 0
    else
      && s.approved == Some(s.quote.value.content) && !Flagged(s.quote.value.content)
      && (s.quote.value.status == EXPORTED <==> s.marked)
      && (s.marked || s.rendered > 0 ==> s.exports != [])
      && forall i :: 0 <= i < |s.exports| ==> s.exports[i] == s.quote.value.content
  }

  /** When a write is harmless, in terms of the quote as it is when the write lands. */
  ghost predicate Safe(s: State, op: Op, seen: Seen)
    requires s.quote.Some?
  {
    var quote := s.quote.value;
    match op
    case Approve => quote.status == APPROVED || (quote.status == DRAFT && !Flagged(quote.content))
    case RequestExport => true
    case Render => quote.status != DRAFT && seen.totals == quote.content.totals
    case MarkExported => true
    case Destroy => quote.status == DRAFT
    case _ => quote.status == DRAFT || Changed(quote.content, op) == quote.content
  }

  lemma WriteKeepsGateIffSafe(s: State, op: Op, seen: Seen)
    requires Gate(s) && GoesThrough(s, op, seen)
    ensures Gate(Perform(s, op, seen)) <==> Safe(s, op, seen)
  {
    var quote := s.quote.value;
    if op.Render? {
      var after := Perform(s, op, seen);
      assert after.exports[|s.exports|] == Content(quote.content.lines, seen.totals);
      assert forall i :: 0 <= i < |s.exports| ==> after.exports[i] == s.exports[i];
    }
  }

  /** A guard evaluated on the quote as it is lets through only safe writes. */
  lemma CurrentGuardsAreSafe(s: State, op: Op)
    requires Gate(s) && s.quote.Some? && IsGuarded(op) && Performs(op, Look(s.quote.value))
    ensures Safe(s, op, Look(s.quote.value))
  {
  }

  datatype Step = Step(op: Op, seen: Seen)

  /** The state after the first `n` steps. */
  function After(start: State, steps: seq<Step>, n: nat): State
    requires n <= |steps|
  {
    if n == 0 then start else Act(After(start, steps, n - 1), steps[n - 1].op, steps[n - 1].seen)
  }

  function NewQuote(content: Content): State {
    State(Some(Quoted(DRAFT, content)), None, [], false, 0, 0)
  }

  /** The write of a step, if it makes one, is safe when it lands. */
  ghost predicate Lands(s: State, step: Step) {
    GoesThrough(s, step.op, step.seen) ==> Safe(s, step.op, step.seen)
  }

  /** The step is a guarded request that nothing overtook. */
  ghost predicate IsCurrent(s: State, step: Step) {
    IsGuarded(step.op) && (s.quote.Some? ==> step.seen == Look(s.quote.value))
  }

  /** The gate holds in every state of the first `n` steps. */
  ghost predicate HoldsAllAlong(start: State, steps: seq<Step>, n: nat)
    requires n <= |steps|
  {
    Gate(After(start, steps, n)) && (n > 0 ==> HoldsAllAlong(start, steps, n - 1))
  }

  /** Each write of the first `n` steps was safe where it landed. */
  ghost predicate EveryWriteIsSafe(start: State, steps: seq<Step>, n: nat)
    requires n <= |steps|
  {
    n > 0 ==> EveryWriteIsSafe(start, steps, n - 1) && Lands(After(start, steps, n - 1), steps[n - 1])
  }

  /**
   The exact condition, for every run of overtaken and unguarded requests alike: the gate holds
   all along exactly when every write that went through was safe where it landed.
   */
  lemma {:induction false} GateHoldsIffEveryWriteIsSafe(start: State, steps: seq<Step>, n: nat)
    requires Gate(start) && n <= |steps|
    ensures HoldsAllAlong(start, steps, n) <==> EveryWriteIsSafe(start, steps, n)
  {
    if n > 0 {
      GateHoldsIffEveryWriteIsSafe(start, steps, n - 1);
      var before := After(start, steps, n - 1);
      if Gate(before) {
        LastStep(before, steps[n - 1]);
      }
    }
  }

  lemma LastStep(s: State, step: Step)
    requires Gate(s)
    ensures Gate(Act(s, step.op, step.seen)) <==> Lands(s, step)
  {
    if GoesThrough(s, step.op, step.seen) {
      WriteKeepsGateIffSafe(s, step.op, step.seen);
    }
  }

  /**
   Over every run of guarded requests, none overtaken, with export messages redelivered at will:
   the gate holds throughout. So a quote is exported only after it was approved with no line to
   review, and every PDF shows the lines and totals that were approved.
   */
  lemma {:induction false} GuardedRunsKeepTheGate(content: Content, steps: seq<Step>, n: nat)
    requires n <= |steps| && AllCurrent(content, steps, n)
    ensures Gate(After(NewQuote(content), steps, n))
  {
    if n > 0 {
      GuardedRunsKeepTheGate(content, steps, n - 1);
      CurrentStepKeepsTheGate(After(NewQuote(content), steps, n - 1), steps[n - 1]);
    }
  }

  /** The first `n` steps are guarded requests that nothing overtook. */
  ghost predicate AllCurrent(content: Content, steps: seq<Step>, n: nat)
    requires n <= |steps|
  {
    n > 0 ==> AllCurrent(content, steps, n - 1) && IsCurrent(After(NewQuote(content), steps, n - 1), steps[n - 1])
  }

  lemma CurrentStepKeepsTheGate(s: State, step: Step)
    requires Gate(s) && IsCurrent(s, step)
    ensures Gate(Act(s, step.op, step.seen))
  {
    if GoesThrough(s, step.op, step.seen) {
      CurrentGuardsAreSafe(s, step.op);
    }
    LastStep(s, step);
  }

  /** Status moves only from DRAFT to APPROVED by an approval and on to EXPORTED by the worker. */
  lemma StatusOnlyMovesForward(s: State, step: Step)
    requires Gate(s) && IsCurrent(s, step)
    ensures var after := Act(s, step.op, step.seen);
      s.quote.Some? && after.quote.Some? && after.quote.value.status != s.quote.value.status ==>
        || (step.op == Approve && s.quote.value.status == DRAFT && after.quote.value.status == APPROVED)
        || (step.op == MarkExported && s.quote.value.status == APPROVED && after.quote.value.status == EXPORTED)
    ensures Act(s, step.op, step.seen).quote.None? && s.quote.Some? ==> s.quote.value.status == DRAFT
  {
  }

  /** What was approved stays what was approved, however the run goes on. */
  lemma {:induction false} ApprovedContentStays(content: Content, steps: seq<Step>, m: nat, n: nat)
    requires m <= n <= |steps| && AllCurrent(content, steps, n)
    requires After(NewQuote(content), steps, m).approved.Some?
    ensures After(NewQuote(content), steps, n).approved == After(NewQuote(content), steps, m).approved
  {
    if m < n {
      ApprovedContentStays(content, steps, m, n - 1);
      GuardedRunsKeepTheGate(content, steps, n - 1);
      ApprovalIsFinal(After(NewQuote(content), steps, n - 1), steps[n - 1]);
    }
  }

  lemma ApprovalIsFinal(s: State, step: Step)
    requires Gate(s) && IsCurrent(s, step) && s.approved.Some?
    ensures Act(s, step.op, step.seen).approved == s.approved
  {
  }

  // Where the gate fails.

  lemma TwoSteps(s: State, a: Step, b: Step)
    ensures After(s, [a, b], 2) == Act(Act(s, a.op, a.seen), b.op, b.seen)
  {
    assert After(s, [a, b], 1) == Act(s, a.op, a.seen);
  }

  /** A line that was priced at an entered cost keeps that cost when the quote is assembled. */
  lemma AssembledKeepsEntered(lines: seq<LineRow>, terms: Terms, k: nat)
    requires k < |lines| == |PricedRows(lines, terms)|
    requires lines[k].lineGroup == FREIGHT || (lines[k].cost.ourCost > 0 && !lines[k].cost.source.Unknown?)
    ensures WithSubtotals(PricedRows(lines, terms))[k].cost.ourCost == lines[k].cost.ourCost
  {
    PricedRowAt(lines, terms, |lines|, k);
  }

  /** A returned price that rounds to something positive is the stored cost of its line. */
  lemma ReturnedPriceIsStored(content: Content, r: Returned)
    requires PriceIsTaken(content, r) && Unit(r.price) > 0
    ensures r.line < |AfterPrice(content, r).lines| && AfterPrice(content, r).lines[r.line].cost.ourCost == Unit(r.price)
  {
    EnteredCost(WithVendorPrice(content.lines[r.line], r.price, r.day), r.terms);
    AssembledKeepsEntered(Entered(content.lines, r.line, r.price, r.day, r.terms), r.terms, r.line);
  }

  lemma EnteredCost(row: LineRow, terms: Terms)
    requires PriceError(row, terms).None? && row.cost.ourCost > 0 && row.cost.source == VENDOR_RFQ
    ensures PricedRow(row, terms, false).cost.ourCost == row.cost.ourCost
    ensures PricedRow(row, terms, false).cost.source == VENDOR_RFQ
  {
  }

  /** A positive price that differs from a line's cost, returned after the approval, changes what was approved. */
  lemma RecordedPriceBreaksTheGate(content: Content, r: Returned)
    requires !Flagged(content) && PriceIsTaken(content, r)
    requires Unit(r.price) > 0 && Unit(r.price) != content.lines[r.line].cost.ourCost
    ensures var approve, record := Step(Approve, Seen(DRAFT, false, content.totals)),
                                   Step(RecordPrice(r), Seen(APPROVED, false, content.totals));
      !Gate(After(NewQuote(content), [approve, record], 2))
  {
    ReturnedPriceIsStored(content, r);
    var other := AfterPrice(content, r);
    assert other.lines != content.lines;
    TwoSteps(NewQuote(content), Step(Approve, Seen(DRAFT, false, content.totals)),
             Step(RecordPrice(r), Seen(APPROVED, false, content.totals)));
  }

  /** An edit that read DRAFT before an approval, and lands after it, changes what was approved. */
  lemma OvertakenEditBreaksTheGate(content: Content, other: Content)
    requires !Flagged(content) && other != content
    ensures var approve, edit := Step(Approve, Seen(DRAFT, false, content.totals)),
                                 Step(Edit(other), Seen(DRAFT, false, content.totals));
      !Gate(After(NewQuote(content), [approve, edit], 2))
  {
    TwoSteps(NewQuote(content), Step(Approve, Seen(DRAFT, false, content.totals)),
             Step(Edit(other), Seen(DRAFT, false, content.totals)));
  }

  /** An approval that read DRAFT, and lands after the quote was exported, moves it back to APPROVED. */
  lemma OvertakenApprovalMovesBack(s: State, totals: QuoteRow)
    requires Gate(s) && s.quote.Some? && s.quote.value.status == EXPORTED
    ensures var after := Act(s, Approve, Seen(DRAFT, false, totals));
      after.quote == Some(s.quote.value.(status := APPROVED)) && !Gate(after)
  {
  }

  /**
   A change that lands between the worker's reading and its rendering puts new lines under the
   totals read before, in a PDF that shows neither what was approved nor what is stored.
   */
  lemma OvertakenRenderMixes(s: State, r: Returned)
    requires Gate(s) && s.quote.Some? && s.quote.value.status == APPROVED && s.requests > 0
    requires AfterPrice(s.quote.value.content, r).lines != s.quote.value.content.lines
    requires AfterPrice(s.quote.value.content, r).totals != s.quote.value.content.totals
    ensures var content, seen := s.quote.value.content, Look(s.quote.value);
      var between := Act(s, RecordPrice(r), seen);
      var after := Act(between, Render, seen);
      && between.quote.Some? && |after.exports| == |s.exports| + 1
      && after.exports[|s.exports|] == Content(between.quote.value.content.lines, content.totals)
      && after.exports[|s.exports|] != content && after.exports[|s.exports|] != between.quote.value.content
  {
  }
}
