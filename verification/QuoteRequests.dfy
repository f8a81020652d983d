/** What each request does to a quote, and the run that takes a draft to its exported PDF. */
module QuoteRequests {
  import opened Prelude
  import opened Rounding
  import opened ReferenceData
  import opened Pricing
  import opened PricingLaws
  import opened Assembly
  import opened AssemblyLaws
  import AssembledFigures
  import opened Draft
  import opened QuoteLifecycle

  predicate NeedsReview(content: Content) {
    exists i :: 0 <= i < |content.lines| && content.lines[i].cost.needsReview
  }

  /** Who gets through, on a quote that is there and not overtaken: what the status and the lines allow. */
  lemma GoesThroughIff(s: State, op: Op)
    ensures s.quote.None? ==> forall seen :: !GoesThrough(s, op, seen)
    ensures s.quote.Some? ==>
      var quote := s.quote.value;
      var through := GoesThrough(s, op, Look(quote));
      && (op.Edit? || op.Destroy? ==> (through <==> quote.status == DRAFT))
      && (op.Approve? ==> (through <==> quote.status == DRAFT && !NeedsReview(quote.content)))
      && (op.RequestExport? ==> (through <==> quote.status != DRAFT))
      && (op.Render? ==> (through <==> quote.status != DRAFT && s.requests > 0))
      && (op.MarkExported? ==> (through <==> s.rendered > 0))
      && (op.RecordPrice? || op.PatchQuote? || op.MoveLineIn? ==> through)
  {
  }

  /** What a request on what it read, overtaken or not, leaves of the quote. */
  lemma EffectIs(s: State, op: Op, seen: Seen)
    requires GoesThrough(s, op, seen)
    ensures var quote, after := s.quote.value, Act(s, op, seen);
      && (op.Edit? || op.PatchQuote? || op.MoveLineIn? ==> after == s.(quote := Some(Quoted(quote.status, op.content))))
      && (op.Approve? ==> after == s.(quote := Some(Quoted(APPROVED, quote.content)), approved := Some(quote.content)))
      && (op.RequestExport? ==> after == s.(requests := s.requests + 1))
      && (op.Render? ==>
            after == s.(exports := s.exports + [Content(quote.content.lines, seen.totals)], rendered := s.rendered + 1))
      && (op.MarkExported? ==>
            after.quote == Some(Quoted(EXPORTED, quote.content)) && after.marked && after.rendered + 1 == s.rendered
            && after.exports == s.exports && after.approved == s.approved && after.requests == s.requests)
      && (op.Destroy? ==> after == s.(quote := None))
  {
  }

  /** A request that does not get through changes nothing. */
  lemma RefusedChangesNothing(s: State, op: Op, seen: Seen)
    requires !GoesThrough(s, op, seen)
    ensures Act(s, op, seen) == s
  {
  }

  /** What recording a vendor's price leaves, when no line of the quote raises: that line priced at it, the rest as they price. */
  lemma RecordedPriceIs(content: Content, r: Returned, i: nat)
    requires r.line < |content.lines| && i < |content.lines|
    ensures var after := AfterPrice(content, r);
      && (AssembledFigures.NoneRaises(content.lines, r.terms) ==>
            && |after.lines| == |content.lines| && PriceError(content.lines[i], r.terms).None?
            && after.lines[i] == Resubtotalled(
                 PricedRow(if i == r.line then WithVendorPrice(content.lines[i], r.price, r.day) else content.lines[i], r.terms, false),
                 after.lines[i].figures.subtotal))
      && (!AssembledFigures.NoneRaises(content.lines, r.terms) ==> after == content)
  {
    AssembledFigures.CanEnterIff(content.lines, r.line, r.price, r.day, r.terms);
    if PriceIsTaken(content, r) {
      AssembledFigures.EnteringRaisesAlike(content.lines[i], r.price, r.day, r.terms);
      AssembledFigures.EnteringPricesTheLine(content.totals, content.lines, r.line, r.price, r.day, r.terms, i);
    }
  }

  function OnItsWay(): seq<Op> {
    [Approve, RequestExport, Render, MarkExported]
  }

  /** The state after requests that each decide on the quote as it is. */
  function AfterRequests(s: State, ops: seq<Op>): State
    decreases |ops|
  {
    if ops == [] then s
    else if s.quote.None? then s
    else AfterRequests(Act(s, ops[0], Look(s.quote.value)), ops[1..])
  }

  lemma OneRequest(s: State, op: Op, rest: seq<Op>)
    requires s.quote.Some?
    ensures AfterRequests(s, [op] + rest) == AfterRequests(Act(s, op, Look(s.quote.value)), rest)
  {
    assert ([op] + rest)[1..] == rest;
  }

  /**
   A draft with nothing to review, approved, requested, rendered and marked in turn, ends exported:
   its one PDF shows the lines and totals that were approved, and they are what the quote still has.
   */
  lemma DraftIsExported(content: Content)
    requires !NeedsReview(content)
    ensures AfterRequests(NewQuote(content), OnItsWay())
      == State(Some(Quoted(EXPORTED, content)), Some(content), [content], true, 1, 0)
  {
    var s := NewQuote(content);
    OneRequest(s, Approve, [RequestExport, Render, MarkExported]);
    assert OnItsWay() == [Approve] + [RequestExport, Render, MarkExported];
    FromApproved(content);
  }

  lemma FromApproved(content: Content)
    ensures AfterRequests(State(Some(Quoted(APPROVED, content)), Some(content), [], false, 0, 0), [RequestExport, Render, MarkExported])
      == State(Some(Quoted(EXPORTED, content)), Some(content), [content], true, 1, 0)
  {
    var approved := State(Some(Quoted(APPROVED, content)), Some(content), [], false, 0, 0);
    var requested := approved.(requests := 1);
    var rendered := requested.(exports := [content], rendered := 1);
    OneRequest(approved, RequestExport, [Render, MarkExported]);
    assert [RequestExport, Render, MarkExported] == [RequestExport] + [Render, MarkExported];
    assert Act(approved, RequestExport, Look(approved.quote.value)) == requested;
    OneRequest(requested, Render, [MarkExported]);
    assert [Render, MarkExported] == [Render] + [MarkExported];
    assert Act(requested, Render, Look(requested.quote.value)) == rendered;
    OneRequest(rendered, MarkExported, []);
    assert [MarkExported] == [MarkExported] + [];
  }

  /** A draft with a line to review is not approved, and so nothing of it is ever exported while it stays so. */
  lemma DraftToReviewStays(content: Content)
    requires NeedsReview(content)
    ensures AfterRequests(NewQuote(content), OnItsWay()) == NewQuote(content)
  {
    var s := NewQuote(content);
    OneRequest(s, Approve, [RequestExport, Render, MarkExported]);
    OneRequest(s, RequestExport, [Render, MarkExported]);
    OneRequest(s, Render, [MarkExported]);
    OneRequest(s, MarkExported, []);
    assert [RequestExport, Render, MarkExported] == [RequestExport] + [Render, MarkExported];
    assert [Render, MarkExported] == [Render] + [MarkExported];
    assert [MarkExported] == [MarkExported] + [];
  }
}
