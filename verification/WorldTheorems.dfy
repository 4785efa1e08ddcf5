/** What the invariant means for callers: the safety of the transfer lifecycle over whole runs. */
module WorldTheorems {
  import opened Common
  import opened Transfers
  import opened World
  import opened WorldInvariant
  import opened WorldRuns
  import Ledger
  import LedgerInvariant
  import Fx

  // ----- rows over time -----

  /** The row transaction of an activation; every other activation leaves the rows alone. */
  function ActRows(id: nat, r: Rows, a: Activation, now: int): Rows {
    match a
    case Transitioning => Transition(r, now)
    case Completing(p) => Complete(id, r, p, now)
    case Failing(http, reason) => Fail(id, r, http, reason, now)
    case FxFailing(http, reason) => Fail(id, r, http, reason, now)
    case Retrying(snap, stale) => ClaimRetry(r, snap, stale, now)
    case Preparing(snap, terms) => Prepare(r, snap, terms, now)
    case _ => r
  }

  lemma {:induction false} StepRows(id: nat, c: Cell, act: nat, choice: Choice, journal: seq<Ledger.Posting>, now: int)
    requires act in c.acts
    ensures ActStep(id, c, act, choice, journal, now).rows == ActRows(id, c.rows, c.acts[act], now)
  {
  }

  lemma {:induction false} ActEvolves(id: nat, r: Rows, a: Activation, journal: seq<Ledger.Posting>, quotes: Fx.Quotes, now: int)
    requires RowsOk(id, r) && Fx.QuotesOk(quotes) && ActOk(id, r, a, journal, quotes)
    ensures RowsEvolve(r, ActRows(id, r, a, now))
  {
    match a
    case Transitioning => TransitionIsOk(id, r, now);
    case Completing(p) => CompleteIsOk(id, r, p, now);
    case Failing(http, reason) => FailIsOk(id, r, http, reason, now);
    case FxFailing(http, reason) => FailIsOk(id, r, http, reason, now);
    case Retrying(snap, stale) => ClaimRetryIsOk(id, r, snap, stale, now);
    case Preparing(snap, terms) =>
      assert Fx.QuoteOk(quotes[snap.quote.value]);
      PrepareIsOk(id, r, snap, terms, now);
    case _ =>
  }

  /** One event changes the rows of a transfer only as the guards allow. */
  lemma NextRowsEvolve(w: World, e: Event, id: nat)
    requires Inv(w) && id in w.cells
    ensures id in Next(w, e).cells && RowsEvolve(w.cells[id].rows, Next(w, e).cells[id].rows)
  {
    hide LedgerInvariant.Inv, Ledger.PostAfterLookup, Ledger.Next, KeysUnique, QuotesUnique;
    var c := w.cells[id];
    assert CellOk(id, c, w.ledger, w.quotes);
    if e.Step? && e.id == id && e.act in c.acts {
      assert ActOk(id, c.rows, c.acts[e.act], w.ledger.journal, w.quotes);
      StepRows(id, c, e.act, e.choice, w.ledger.journal, w.now);
      ActEvolves(id, c.rows, c.acts[e.act], w.ledger.journal, w.quotes, w.now);
    } else {
      OtherEventsKeepRows(w, e, id);
    }
  }

  /**
   * Every update the service issues in any reachable state passes the update triggers and the CHECKs,
   * and a terminal transfer, its record and its history are never written again.
   */
  lemma {:induction false} UpdatesAreGuarded(events: seq<Event>, e: Event, id: nat)
    requires id in Run(events).cells
    ensures id in Next(Run(events), e).cells
    ensures var r, r' := Run(events).cells[id].rows, Next(Run(events), e).cells[id].rows;
      && UpdateGuard(r.transfer, r'.transfer) && RecordGuard(r.record, r'.record)
      && TransferCheck(r'.transfer) && RecordCheck(r'.record) && RowsEvolve(r, r')
  {
    hide LedgerInvariant.Inv, Next, KeysUnique, QuotesUnique;
    var w := Run(events);
    ReachableInv(events);
    NextKeepsInv(w, e);
    NextRowsEvolve(w, e, id);
    assert CellOk(id, Next(w, e).cells[id], Next(w, e).ledger, Next(w, e).quotes);
  }

  lemma OtherEventsKeepRows(w: World, e: Event, id: nat)
    requires |w.ledger.balances| == |w.ledger.accounts| && id in w.cells
    requires !(e.Step? && e.id == id && e.act in w.cells[id].acts)
    ensures id in Next(w, e).cells && Next(w, e).cells[id].rows == w.cells[id].rows
  {
  }

  /** What later states remember of earlier ones. */
  predicate Persists(r: Rows, r': Rows) {
    && SameCommand(r.transfer, r'.transfer)
    && r.record.client == r'.record.client && r.record.key == r'.record.key && r.record.request == r'.record.request
    && (r.transfer.targetAmount.Some? ==> r'.transfer.targetAmount == r.transfer.targetAmount && r'.transfer.rate == r.transfer.rate)
    && (!Open(r.transfer.status) ==> r' == r)
    && (r' == r || r.transfer.version < r'.transfer.version)
  }

  lemma {:induction false} RowsPersist(events: seq<Event>, n: nat, id: nat)
    requires n <= |events| && id in Run(events[..n]).cells
    ensures id in Run(events).cells && Persists(Run(events[..n]).cells[id].rows, Run(events).cells[id].rows)
    decreases |events|
  {
    if n == |events| {
      assert events[..n] == events;
    } else {
      var prefix := events[..|events| - 1];
      assert prefix[..n] == events[..n];
      RowsPersist(prefix, n, id);
      UpdatesAreGuarded(prefix, events[|events| - 1], id);
    }
  }

  /** Once a transfer is terminal, its rows and its stored reply are final. */
  lemma {:induction false} TerminalIsFinal(events: seq<Event>, n: nat, id: nat)
    requires n <= |events| && id in Run(events[..n]).cells && !Open(Run(events[..n]).cells[id].rows.transfer.status)
    ensures id in Run(events).cells && Run(events).cells[id].rows == Run(events[..n]).cells[id].rows
  {
    RowsPersist(events, n, id);
  }

  // ----- one transfer per key, one posting per transfer, one hash per attempt -----

  lemma {:induction false} OneTransferPerKey(events: seq<Event>, i: nat, j: nat)
    requires i in Run(events).cells && j in Run(events).cells
    requires Run(events).cells[i].rows.record.client == Run(events).cells[j].rows.record.client
    requires Run(events).cells[i].rows.record.key == Run(events).cells[j].rows.record.key
    ensures i == j
  {
    ReachableInv(events);
    assert SameKey(Run(events).cells[i], Run(events).cells[j]);
  }

  /** At most one posting under a transfer id, and it moves that transfer's amounts between its wallets. */
  lemma {:induction false} OnePostingPerTransfer(events: seq<Event>, id: nat, k: nat, m: nat)
    requires id in Run(events).cells && k < |Run(events).ledger.journal| && m < |Run(events).ledger.journal|
    requires Run(events).ledger.journal[k].body.reference == id && Run(events).ledger.journal[m].body.reference == id
    ensures k == m
    ensures PostedFor(Run(events).ledger.accounts, Run(events).ledger.journal[k], id, Run(events).cells[id].rows.transfer)
  {
    ReachableInv(events);
    assert CellOk(id, Run(events).cells[id], Run(events).ledger, Run(events).quotes);
    var journal := Run(events).ledger.journal;
    assert LedgerInvariant.JournalKeys(journal);
  }

  /** Every Ledger attempt made for a transfer at any two moments of a run carries the same command, so the same hash. */
  lemma {:induction false} AttemptsCarryOneHash(events: seq<Event>, n: nat, id: nat, p: nat, q: nat)
    requires n <= |events| && id in Run(events[..n]).cells && p in Run(events[..n]).cells[id].posts
    requires id in Run(events).cells && q in Run(events).cells[id].posts
    ensures Run(events[..n]).cells[id].posts[p].command == Run(events).cells[id].posts[q].command
    ensures forall k :: 0 <= k < |Run(events).ledger.journal| && Run(events).ledger.journal[k].body.reference == id ==>
      Run(events).ledger.journal[k].hash == Ledger.CommandHash(Run(events).cells[id].posts[q].command)
  {
    RowsPersist(events, n, id);
    ReachableInv(events[..n]);
    ReachableInv(events);
    var w0, w := Run(events[..n]), Run(events);
    assert CellOk(id, w0.cells[id], w0.ledger, w0.quotes) && CellOk(id, w.cells[id], w.ledger, w.quotes);
    assert PostOk(id, w0.cells[id].rows.transfer, w0.cells[id].posts[p], w0.ledger.journal);
    assert PostOk(id, w.cells[id].rows.transfer, w.cells[id].posts[q], w.ledger.journal);
  }

  /** COMPLETED names a posting that exists and is exactly this transfer's. */
  lemma {:induction false} CompletedIsPosted(events: seq<Event>, id: nat)
    requires id in Run(events).cells && Run(events).cells[id].rows.transfer.status == Completed
    ensures var w, t := Run(events), Run(events).cells[id].rows.transfer;
      && t.posting.Some? && t.posting.value < |w.ledger.journal|
      && PostedFor(w.ledger.accounts, w.ledger.journal[t.posting.value], id, t)
  {
    ReachableInv(events);
    assert CellOk(id, Run(events).cells[id], Run(events).ledger, Run(events).quotes);
  }

  // ----- joint lifecycle, history and replies -----

  /** After every step: the record mirrors the transfer and the history rows are the projection's definition. */
  lemma {:induction false} RowsAgree(events: seq<Event>, id: nat)
    requires id in Run(events).cells
    ensures var r := Run(events).cells[id].rows;
      && (r.record.state == RecordProcessing <==> Open(r.transfer.status))
      && (r.record.state == RecordCompleted <==> r.transfer.status == Completed)
      && (r.record.state == RecordFailed <==> r.transfer.status == Failed)
      && r.history == ExpectedRows(r.transfer)
  {
    ReachableInv(events);
    assert CellOk(id, Run(events).cells[id], Run(events).ledger, Run(events).quotes);
  }

  /** Any reply that reports a terminal transfer, now or after any further events, carries the stored body. */
  lemma {:induction false} TerminalRepliesAreStored(events: seq<Event>, n: nat, id: nat, a: nat)
    requires n <= |events| && id in Run(events[..n]).cells
    requires a in Run(events[..n]).cells[id].acts && Run(events[..n]).cells[id].acts[a].Replied?
    requires !Open(Run(events[..n]).cells[id].acts[a].reply.body.status)
    ensures id in Run(events).cells && Run(events).cells[id].rows.record.stored.Some?
    ensures Run(events[..n]).cells[id].acts[a].reply.body == Run(events).cells[id].rows.record.stored.value.body
  {
    ReachableInv(events[..n]);
    ReplyIsStored(Run(events[..n]), id, a);
    RowsPersist(events, n, id);
  }

  lemma ReplyIsStored(w: World, id: nat, a: nat)
    requires Inv(w) && id in w.cells && a in w.cells[id].acts && w.cells[id].acts[a].Replied?
    requires !Open(w.cells[id].acts[a].reply.body.status)
    ensures w.cells[id].rows.record.stored.Some? && !Open(w.cells[id].rows.transfer.status)
    ensures w.cells[id].acts[a].reply.body == w.cells[id].rows.record.stored.value.body
  {
    assert CellOk(id, w.cells[id], w.ledger, w.quotes);
    assert ActOk(id, w.cells[id].rows, w.cells[id].acts[a], w.ledger.journal, w.quotes);
  }

  /** What a caller is told of a completed transfer is what the journal says. */
  lemma {:induction false} CompletedReplyIsPosted(events: seq<Event>, id: nat, a: nat)
    requires id in Run(events).cells && a in Run(events).cells[id].acts && Run(events).cells[id].acts[a].Replied?
    requires Run(events).cells[id].acts[a].reply.body.status == Completed
    ensures var b := Run(events).cells[id].acts[a].reply.body;
      && b.transfer == id && b.posting.Some? && b.posting.value < |Run(events).ledger.journal|
      && var p := Run(events).ledger.journal[b.posting.value].body;
         && p.reference == id && p.sourceAmount == b.sourceAmount && Some(p.targetAmount) == b.targetAmount
         && p.sourceCurrency == b.sourceCurrency && p.targetCurrency == b.targetCurrency && p.quote == b.quote && p.rate == b.rate
  {
    hide Run, LedgerInvariant.Inv, KeysUnique, QuotesUnique, ActOk;
    ReachableInv(events);
    ReplyIsStored(Run(events), id, a);
    CompletedIsPosted(events, id);
    PostedTerms(Run(events), id);
    assert CellOk(id, Run(events).cells[id], Run(events).ledger, Run(events).quotes);
  }

  lemma PostedTerms(w: World, id: nat)
    requires Inv(w) && id in w.cells && w.cells[id].rows.transfer.status == Completed
    ensures var t := w.cells[id].rows.transfer;
      && t.posting.Some? && t.posting.value < |w.ledger.journal|
      && w.ledger.journal[t.posting.value].body.quote == t.quote && w.ledger.journal[t.posting.value].body.rate == t.rate
  {
    var t := w.cells[id].rows.transfer;
    assert CellOk(id, w.cells[id], w.ledger, w.quotes);
    assert LedgerInvariant.PostingOk(w.ledger.accounts, w.ledger.journal[t.posting.value]);
  }

  /** A failure is stored under the status it was answered with; a reply computed from the row says 422 whatever it was. */
  lemma FailureStatusIsStored(id: nat, r: Rows, http: nat, reason: Reason, now: int)
    requires RowsOk(id, r) && Open(r.transfer.status)
    ensures var f := Fail(id, r, http, reason, now);
      && f.record.stored == Some(Reply(http, ResultFor(id, f.transfer).body))
      && (f.record.stored == Some(ResultFor(id, f.transfer)) <==> http == 422)
  {
    FailIsOk(id, r, http, reason, now);
  }

  /** A request that arrives for a key whose transfer is terminal is answered from the record, status and body. */
  lemma {:induction false} LateRequestIsReplayed(events: seq<Event>, id: nat, a: nat, choice: Choice)
    requires var w := Run(events);
      && id in w.cells && a in w.intake && a !in w.cells[id].acts && !Open(w.cells[id].rows.transfer.status)
      && HasKey(w.cells[id], w.intake[a].client, w.intake[a].key)
    ensures var w := Run(events);
      var record := w.cells[id].rows.record;
      var w' := Next(Next(w, FindKey(a, Some(id))), Step(id, a, choice));
      && id in w'.cells && a in w'.cells[id].acts && record.stored.Some?
      && w'.cells[id].acts[a] ==
         if record.request != w.intake[a].request then Rejected(PayloadMismatch)
         else if record.replayExpiresAt <= w.now then Rejected(KeyExpired)
         else Replied(record.stored.value)
  {
    ReachableInv(events);
    JoinedIsReplayed(Run(events), id, a, choice);
  }

  lemma JoinedIsReplayed(w: World, id: nat, a: nat, choice: Choice)
    requires Inv(w) && id in w.cells && a in w.intake && a !in w.cells[id].acts
    requires HasKey(w.cells[id], w.intake[a].client, w.intake[a].key) && !Open(w.cells[id].rows.transfer.status)
    ensures var record := w.cells[id].rows.record;
      var w' := Next(Next(w, FindKey(a, Some(id))), Step(id, a, choice));
      && id in w'.cells && a in w'.cells[id].acts && record.stored.Some? && record.state != RecordProcessing
      && w'.cells[id].acts[a] == HandleExisting(w.intake[a].request, record, w.now)
  {
    assert CellOk(id, w.cells[id], w.ledger, w.quotes);
    JoinThenHandle(w, id, a, choice);
  }

  lemma JoinThenHandle(w: World, id: nat, a: nat, choice: Choice)
    requires |w.ledger.balances| == |w.ledger.accounts| && id in w.cells && a in w.intake && a !in w.cells[id].acts
    requires HasKey(w.cells[id], w.intake[a].client, w.intake[a].key)
    ensures var w' := Next(Next(w, FindKey(a, Some(id))), Step(id, a, choice));
      && id in w'.cells && a in w'.cells[id].acts
      && w'.cells[id].acts[a] == HandleExisting(w.intake[a].request, w.cells[id].rows.record, w.now)
  {
    var w1 := Next(w, FindKey(a, Some(id)));
    assert w1 == Join(w, a, id);
    assert w1.cells[id].acts[a] == Handling(w.intake[a].request, w.cells[id].rows.record);
  }

  // ----- quotes -----

  /** A quote settles at most one transfer and at most one FX posting, on its own immutable terms. */
  lemma {:induction false} QuoteSettlesOnce(events: seq<Event>, q: nat, k: nat, m: nat)
    requires var j := Run(events).ledger.journal;
      && k < |j| && m < |j| && j[k].body.kind == Ledger.FxTransfer && j[m].body.kind == Ledger.FxTransfer
      && j[k].body.quote == Some(q) && j[m].body.quote == Some(q)
    ensures k == m
    ensures var w := Run(events); var b := w.ledger.journal[k].body;
      && q in w.quotes && w.quotes[q].consumedBy == Some(b.reference)
      && b.sourceAmount == w.quotes[q].sourceAmount && b.targetAmount == w.quotes[q].targetAmount && b.rate == Some(w.quotes[q].rate)
      && b.sourceCurrency == w.quotes[q].sourceCurrency && b.targetCurrency == w.quotes[q].targetCurrency
      && w.quotes[q].consumedAt.Some? && w.quotes[q].consumedAt.value < w.quotes[q].expiresAt
  {
    var w := Run(events);
    ReachableInv(events);
    var i, j := w.ledger.journal[k].body.reference, w.ledger.journal[m].body.reference;
    FxPostingIsBound(w, k);
    FxPostingIsBound(w, m);
    assert w.cells[i].rows.transfer.quote == Some(q) && w.cells[j].rows.transfer.quote == Some(q);
    assert QuotesUnique(w.cells);
    assert i == j;
    OnePostingPerTransfer(events, i, k, m);
    assert ClaimsQuote(w.cells[i].rows.transfer, q, w.quotes[q]);
    assert Fx.QuoteOk(w.quotes[q]);
  }

  /** A quote serves one transfer, and a prepared transfer carries exactly its quote's terms. */
  lemma {:induction false} QuoteServesOneTransfer(events: seq<Event>, i: nat, j: nat)
    requires i in Run(events).cells && j in Run(events).cells
    requires Run(events).cells[i].rows.transfer.quote.Some?
    requires Run(events).cells[i].rows.transfer.quote == Run(events).cells[j].rows.transfer.quote
    ensures i == j
    ensures var t := Run(events).cells[i].rows.transfer;
      t.targetAmount.Some? ==>
        && t.quote.value in Run(events).quotes
        && var q := Run(events).quotes[t.quote.value];
           && q.consumedBy == Some(i) && t.targetAmount == Some(q.targetAmount) && t.rate == Some(q.rate)
           && t.client == q.client && t.sourceAmount == q.sourceAmount
  {
    hide Run, LedgerInvariant.Inv, KeysUnique, ActsOk, PostsOk, FxCallsOk;
    ReachableInv(events);
    var w := Run(events);
    assert CellOk(i, w.cells[i], w.ledger, w.quotes);
    var t := w.cells[i].rows.transfer;
    assert t.targetAmount.Some? ==> ClaimsQuote(t, t.quote.value, w.quotes[t.quote.value]);
  }

  lemma FxPostingIsBound(w: World, k: nat)
    requires Inv(w) && k < |w.ledger.journal| && w.ledger.journal[k].body.kind == Ledger.FxTransfer
    ensures var b := w.ledger.journal[k].body;
      && b.reference in w.cells && PostedFor(w.ledger.accounts, w.ledger.journal[k], b.reference, w.cells[b.reference].rows.transfer)
      && w.cells[b.reference].rows.transfer.kind == International && b.quote == w.cells[b.reference].rows.transfer.quote
      && b.quote.Some? && b.rate.Some?
      && Bound(w.quotes, w.cells[b.reference].rows.transfer, b.reference, Fx.Terms(b.targetAmount, b.rate.value))
  {
    var id := w.ledger.journal[k].body.reference;
    assert id in w.cells;
    assert CellOk(id, w.cells[id], w.ledger, w.quotes);
    assert PostedFor(w.ledger.accounts, w.ledger.journal[k], id, w.cells[id].rows.transfer);
  }

  lemma NextQuotesEvolve(w: World, e: Event)
    requires Inv(w)
    ensures Fx.QuotesEvolve(w.quotes, Next(w, e).quotes)
  {
    hide CellsOk, LedgerInvariant.Inv, KeysUnique, QuotesUnique, Ledger.PostAfterLookup, Ledger.Next, ActStep;
    QuotesEvolveReflexive(w.quotes);
    match e
    case FxRun(id, f, late) =>
      if id in w.cells && f in w.cells[id].fxCalls {
        Fx.ConsumeKeeps(w.quotes, w.cells[id].fxCalls[f].claim, ClockOf(w.cells[id].fxCalls[f], late, w.now));
      }
    case NewQuote(q, quote) =>
    case ReadQuote(q, client) =>
    case _ => QuotesUntouched(w, e);
  }

  lemma QuotesUntouched(w: World, e: Event)
    requires |w.ledger.balances| == |w.ledger.accounts| && !e.FxRun? && !e.NewQuote? && !e.ReadQuote?
    ensures Next(w, e).quotes == w.quotes
  {
  }

  lemma {:induction false} QuotesPersist(events: seq<Event>, n: nat)
    requires n <= |events|
    ensures Fx.QuotesEvolve(Run(events[..n]).quotes, Run(events).quotes)
    decreases |events|
  {
    if n == |events| {
      assert events[..n] == events;
    } else {
      var prefix := events[..|events| - 1];
      assert prefix[..n] == events[..n];
      QuotesPersist(prefix, n);
      ReachableInv(prefix);
      NextQuotesEvolve(Run(prefix), events[|events| - 1]);
    }
  }

  /**
   * After a crash between consumption and preparation, the transfer's next consumption succeeds however late
   * it runs and whatever its clock, changes nothing and returns the terms first agreed.
   */
  lemma {:induction false} CrashedConsumptionRetries(events: seq<Event>, n: nat, q: nat, id: nat, clock: int)
    requires n <= |events| && q in Run(events[..n]).quotes && Run(events[..n]).quotes[q].consumedBy == Some(id)
    ensures id in Run(events).cells && Run(events).cells[id].rows.transfer.quote == Some(q)
    ensures var w := Run(events);
      Fx.Consume(w.quotes, QuoteClaim(id, w.cells[id].rows.transfer), clock)
      == (w.quotes, Ok(Fx.TermsOf(Run(events[..n]).quotes[q])))
  {
    var w0, w := Run(events[..n]), Run(events);
    ReachableInv(events[..n]);
    assert ConsumersOk(w0) && Fx.QuoteOk(w0.quotes[q]);
    QuotesPersist(events, n);
    RowsPersist(events, n, id);
    assert ClaimsQuote(w0.cells[id].rows.transfer, q, w0.quotes[q]);
  }

  /** The ledger inside any reachable system is conserved, solvent and exactly projected. */
  lemma {:induction false} LedgerStaysSound(events: seq<Event>)
    ensures LedgerInvariant.Inv(Run(events).ledger)
  {
    ReachableInv(events);
  }
}
