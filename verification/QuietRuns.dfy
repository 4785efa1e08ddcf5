/** FAILED means never posted, in every disciplined run; and a run without the discipline that breaks it. */
module QuietRuns {
  import opened Common
  import opened Transfers
  import opened World
  import opened WorldInvariant
  import opened WorldRuns
  import opened LedgerGrowth
  import opened Quiet
  import Ledger
  import WorldTheorems
  import Fx

  // ----- frames -----

  lemma {:induction false} PostedStable(l: Ledger.Ledger, l': Ledger.Ledger, id: nat)
    requires Grows(l, l')
    requires forall i :: |l.journal| <= i < |l'.journal| ==> l'.journal[i].body.reference != id
    ensures Ledger.FindReference(l.journal, id).Some? <==> Ledger.FindReference(l'.journal, id).Some?
  {
    var r, r' := Ledger.FindReference(l.journal, id), Ledger.FindReference(l'.journal, id);
    if r.Some? { assert l'.journal[..|l.journal|][r.value].body.reference == id; }
    if r'.Some? && r'.value < |l.journal| { assert l'.journal[..|l.journal|][r'.value].body.reference == id; }
  }

  lemma PutCellCalm(w: World, id: nat, c: Cell)
    requires AllCalm(w) && id in w.cells && Calm(c, Posted(w, id))
    ensures AllCalm(WithCell(w, id, c))
  {
  }

  /** The part of the invariant these proofs need. */
  predicate Sane(w: World) {
    |w.ledger.balances| == |w.ledger.accounts| && Fx.QuotesOk(w.quotes) && CellsOk(w) && ConsumersOk(w)
  }

  // ----- the events -----

  lemma StepCalm(w: World, id: nat, a: nat, choice: Choice)
    requires Sane(w) && AllCalm(w) && QuietEvent(w, Step(id, a, choice))
    ensures AllCalm(Next(w, Step(id, a, choice)))
  {
    if id in w.cells && a in w.cells[id].acts {
      ActKeepsCalm(id, w.cells[id], a, choice, w.ledger, w.quotes, w.now);
      PutCellCalm(w, id, ActStep(id, w.cells[id], a, choice, w.ledger.journal, w.now));
    }
  }

  lemma JoinCalm(w: World, act: nat, id: nat)
    requires AllCalm(w) && act in w.intake && id in w.cells
    ensures AllCalm(Join(w, act, id))
  {
    var c := w.cells[id];
    if act !in c.acts { PutPassive(c, act, Handling(w.intake[act].request, c.rows.record), Posted(w, id)); }
  }

  /** An answered or aborted attempt is no longer outstanding. */
  lemma SettleCalm(c: Cell, p: nat, s: PostState, posted: bool)
    requires Calm(c, posted) && p in c.posts && Outstanding(c.posts[p])
    requires s.Refused? || s.LookedUp?
    ensures Calm(SetPost(c, p, s), posted)
  {
  }

  lemma LoseCalm(c: Cell, p: nat, posted: bool)
    requires Calm(c, posted) && p in c.posts && Outstanding(c.posts[p])
    ensures Calm(c.(posts := c.posts - {p}), posted)
  {
  }

  /** The commit itself: the posting appears exactly when its only outstanding attempt is answered. */
  lemma AcceptCalm(c: Cell, p: nat, i: nat)
    requires Calm(c, false) && p in c.posts && Outstanding(c.posts[p])
    ensures Calm(SetPost(c, p, Accepted(i)), true)
  {
  }

  /** While an attempt is outstanding the posting does not exist. */
  lemma OutstandingUnposted(c: Cell, p: nat, posted: bool)
    requires Calm(c, posted) && p in c.posts && Outstanding(c.posts[p])
    ensures !posted
  {
  }

  lemma LookupCalm(w: World, id: nat, p: nat)
    requires Sane(w) && AllCalm(w) && PostIn(w, id, p, Sent)
    ensures AllCalm(Next(w, LedgerLookup(id, p)))
  {
    hide CellOk, Calm, Ledger.Next, Ledger.PostAfterLookup, ActStep;
    var c := w.cells[id];
    OwnCommand(id, c, p, w.ledger, w.quotes);
    OutstandingUnposted(c, p, Posted(w, id));
    assert Ledger.Lookup(w.ledger, c.posts[p].command) == None;
    SettleCalm(c, p, LookedUp, false);
    PutCellCalm(w, id, SetPost(c, p, LookedUp));
  }

  lemma {:induction false} RanOwnCalm(id: nat, c: Cell, p: nat, l: Ledger.Ledger, l': Ledger.Ledger, answer: Result<nat, Ledger.Failure>)
    requires Calm(c, Ledger.FindReference(l.journal, id).Some?) && p in c.posts && Outstanding(c.posts[p])
    requires c.posts[p].command.reference == id && PostRan(l, l', c.posts[p].command, answer)
    ensures Calm(SetPost(c, p, PostAnswer(answer)), Ledger.FindReference(l'.journal, id).Some?)
  {
    OutstandingUnposted(c, p, Ledger.FindReference(l.journal, id).Some?);
    if l'.journal == l.journal {
      SettleCalm(c, p, PostAnswer(answer), false);
    } else {
      AcceptCalm(c, p, answer.value);
      assert l'.journal[|l.journal|].body.reference == id;
    }
  }

  lemma RanCalm(w: World, id: nat, p: nat, ledger: Ledger.Ledger, answer: Result<nat, Ledger.Failure>)
    requires Sane(w) && AllCalm(w) && PostIn(w, id, p, LookedUp)
    requires PostRan(w.ledger, ledger, w.cells[id].posts[p].command, answer)
    ensures AllCalm(WithCell(w, id, SetPost(w.cells[id], p, PostAnswer(answer))).(ledger := ledger))
  {
    var c := w.cells[id];
    OwnCommand(id, c, p, w.ledger, w.quotes);
    RanUnder(w.ledger, ledger, c.posts[p].command, answer);
    RanOwnCalm(id, c, p, w.ledger, ledger, answer);
    MoveLedgerCalm(w, id, SetPost(c, p, PostAnswer(answer)), ledger);
  }

  lemma {:induction false} MoveLedgerCalm(w: World, id: nat, c: Cell, ledger: Ledger.Ledger)
    requires AllCalm(w) && id in w.cells && Grows(w.ledger, ledger) && NewUnder(w.ledger, ledger, id)
    requires Calm(c, Ledger.FindReference(ledger.journal, id).Some?)
    ensures AllCalm(WithCell(w, id, c).(ledger := ledger))
  {
    forall i | i in w.cells && i != id
      ensures Calm(w.cells[i], Ledger.FindReference(ledger.journal, i).Some?)
    {
      PostedStable(w.ledger, ledger, i);
    }
  }

  lemma LedgerRunCalm(w: World, id: nat, p: nat)
    requires Sane(w) && AllCalm(w) && PostIn(w, id, p, LookedUp)
    ensures AllCalm(Next(w, LedgerRun(id, p)))
  {
    hide CellOk, Calm, Ledger.Next, Ledger.PostAfterLookup, ActStep, Fx.QuotesOk, ConsumersOk, Grows, Added, AnswersOwn;
    var command := w.cells[id].posts[p].command;
    PostAfterLookupGrows(w.ledger, command);
    RanCalm(w, id, p, Ledger.PostAfterLookup(w.ledger, command).0, Ledger.PostAfterLookup(w.ledger, command).1);
  }

  /** Quotes and time are no concern of the invariant. */
  lemma MoveQuotesCalm(w: World, quotes: Fx.Quotes, now: int)
    requires AllCalm(w)
    ensures AllCalm(w.(quotes := quotes, now := now))
  {
  }

  lemma FxRunCalm(w: World, id: nat, f: nat, late: nat)
    requires Sane(w) && AllCalm(w) && id in w.cells && f in w.cells[id].fxCalls && w.cells[id].fxCalls[f].state.FxSent?
    ensures AllCalm(Next(w, FxRun(id, f, late)))
  {
    hide CellOk, Calm, Ledger.Next, Ledger.PostAfterLookup, ActStep, Fx.QuotesOk, ConsumersOk;
    var c := w.cells[id];
    var (quotes, answer) := Fx.Consume(w.quotes, c.fxCalls[f].claim, ClockOf(c.fxCalls[f], late, w.now));
    var w1 := w.(quotes := quotes);
    MoveQuotesCalm(w, quotes, w.now);
    var c' := c.(fxCalls := c.fxCalls[f := c.fxCalls[f].(state := FxAnswer(answer))]);
    FxCallsCalm(c, c', Posted(w1, id));
    PutCellCalm(w1, id, c');
  }

  lemma FxCallsCalm(c: Cell, c': Cell, posted: bool)
    requires Calm(c, posted) && c' == c.(fxCalls := c'.fxCalls)
    ensures Calm(c', posted)
  {
  }

  lemma NewQuoteCalm(w: World, q: nat, quote: Fx.Quote)
    requires Sane(w) && AllCalm(w)
    ensures AllCalm(Next(w, NewQuote(q, quote)))
  {
    hide CellOk, Calm, Ledger.Next, Ledger.PostAfterLookup, ActStep;
    MoveQuotesCalm(w, Next(w, NewQuote(q, quote)).quotes, w.now);
  }

  lemma ReadQuoteCalm(w: World, q: nat, client: nat)
    requires Sane(w) && AllCalm(w)
    ensures AllCalm(Next(w, ReadQuote(q, client)))
  {
    hide CellOk, Calm, Ledger.Next, Ledger.PostAfterLookup, ActStep;
    MoveQuotesCalm(w, Next(w, ReadQuote(q, client)).quotes, w.now);
  }

  lemma OutsideCalm(w: World, e: Ledger.Event)
    requires Sane(w) && AllCalm(w) && OutsideAllowed(w, e)
    ensures AllCalm(Next(w, Outside(e)))
  {
    hide Calm, CellOk, CellsOk, ConsumersOk, Ledger.Next, Ledger.PostAfterLookup, ActStep;
    NextGrows(w.ledger, e);
    OutsideMovesCalm(w, Ledger.Next(w.ledger, e));
  }

  lemma OutsideMovesCalm(w: World, ledger: Ledger.Ledger)
    requires AllCalm(w) && Grows(w.ledger, ledger)
    requires forall i :: |w.ledger.journal| <= i < |ledger.journal| ==> ledger.journal[i].body.reference !in w.cells
    ensures AllCalm(w.(ledger := ledger))
  {
    forall i | i in w.cells
      ensures Calm(w.cells[i], Ledger.FindReference(ledger.journal, i).Some?)
    {
      PostedStable(w.ledger, ledger, i);
    }
  }

  lemma NewCellCalm(i: Intake, a: nat, now: int)
    ensures Calm(NewCell(i, a, now), false)
  {
  }

  lemma InsertCalm(w: World, a: nat, id: nat)
    requires Sane(w) && AllCalm(w)
    ensures AllCalm(Next(w, Insert(a, id)))
  {
    hide Calm, CellOk, CellsOk, ConsumersOk, NewCell, KeyFree, QuoteFree, Ledger.Next, Ledger.PostAfterLookup, ActStep;
    if a in w.intake && Insertable(w, w.intake[a], id) {
      NewCellCalm(w.intake[a], a, w.now);
      var w' := Next(w, Insert(a, id));
      assert w'.cells == w.cells[id := NewCell(w.intake[a], a, w.now)];
    }
  }

  lemma CrashCalm(w: World, id: nat, a: nat)
    requires Sane(w) && AllCalm(w) && id in w.cells
    ensures AllCalm(Next(w, Crash(id, a)))
  {
    hide CellOk, Calm, Ledger.Next, Ledger.PostAfterLookup, ActStep;
    var c := w.cells[id];
    DropKeepsCalm(c, c.(acts := c.acts - {a}), Posted(w, id));
    PutCellCalm(w, id, c.(acts := c.acts - {a}));
  }

  lemma LoseFxCalm(w: World, id: nat, f: nat)
    requires Sane(w) && AllCalm(w) && id in w.cells
    ensures AllCalm(Next(w, LoseFx(id, f)))
  {
    hide CellOk, Calm, Ledger.Next, Ledger.PostAfterLookup, ActStep;
    var c := w.cells[id];
    DropKeepsCalm(c, c.(fxCalls := c.fxCalls - {f}), Posted(w, id));
    PutCellCalm(w, id, c.(fxCalls := c.fxCalls - {f}));
  }

  lemma PostEventsCalm(w: World, e: Event)
    requires Sane(w) && AllCalm(w) && (e.LedgerAbort? || e.LosePost?)
    ensures AllCalm(Next(w, e))
  {
    hide CellOk, Calm, Ledger.Next, Ledger.PostAfterLookup, ActStep;
    match e
    case LedgerAbort(id, p) =>
      if PostIn(w, id, p, LookedUp) {
        SettleCalm(w.cells[id], p, Refused(Ledger.DatabaseError), Posted(w, id));
        PutCellCalm(w, id, SetPost(w.cells[id], p, Refused(Ledger.DatabaseError)));
      }
    case LosePost(id, p) =>
      if PostIn(w, id, p, Sent) || PostIn(w, id, p, LookedUp) {
        LoseCalm(w.cells[id], p, Posted(w, id));
        PutCellCalm(w, id, w.cells[id].(posts := w.cells[id].posts - {p}));
      }
  }

  lemma ReconcileCalm(w: World, id: nat, a: nat, force: bool)
    requires Sane(w) && AllCalm(w) && id in w.cells
    ensures AllCalm(Next(w, Reconcile(id, a, force)))
  {
    hide CellOk, Calm, Ledger.Next, Ledger.PostAfterLookup, ActStep;
    var c := w.cells[id];
    PutPassive(c, a, Reconciling(force), Posted(w, id));
    PutCellCalm(w, id, c.(acts := c.acts[a := Reconciling(force)]));
  }

  lemma IntakeCalm(w: World, e: Event)
    requires Sane(w) && AllCalm(w) && (e.Arrive? || e.FindKey? || e.InsertLost? || e.DropIntake?)
    ensures AllCalm(Next(w, e))
  {
    hide CellOk, Calm, Ledger.Next, Ledger.PostAfterLookup, ActStep;
    match e
    case FindKey(a, found) => if a in w.intake && found.Some? && found.value in w.cells { JoinCalm(w, a, found.value); }
    case InsertLost(a, id) => if a in w.intake && id in w.cells { JoinCalm(w, a, id); }
    case _ =>
  }

  lemma TickCalm(w: World, d: nat)
    requires Sane(w) && AllCalm(w)
    ensures AllCalm(Next(w, Tick(d)))
  {
    hide CellOk, Calm, Ledger.Next, Ledger.PostAfterLookup, ActStep;
    MoveQuotesCalm(w, w.quotes, w.now + d);
    assert Next(w, Tick(d)) == w.(quotes := w.quotes, now := w.now + d);
  }

  lemma QuoteEventsCalm(w: World, e: Event)
    requires Sane(w) && AllCalm(w) && (e.FxRun? || e.LoseFx? || e.Tick? || e.NewQuote? || e.ReadQuote?)
    ensures AllCalm(Next(w, e))
  {
    match e
    case FxRun(id, f, late) =>
      if id in w.cells && f in w.cells[id].fxCalls && w.cells[id].fxCalls[f].state.FxSent? { FxRunCalm(w, id, f, late); }
    case LoseFx(id, f) => if id in w.cells { LoseFxCalm(w, id, f); }
    case Tick(d) => TickCalm(w, d);
    case NewQuote(q, quote) => NewQuoteCalm(w, q, quote);
    case ReadQuote(q, client) => ReadQuoteCalm(w, q, client);
  }

  lemma LedgerEventsCalm(w: World, e: Event)
    requires Sane(w) && AllCalm(w) && (e.LedgerLookup? || e.LedgerRun? || e.Outside?)
    ensures AllCalm(Next(w, e))
  {
    hide AllCalm, Sane;
    match e
    case LedgerLookup(id, p) => if PostIn(w, id, p, Sent) { LookupCalm(w, id, p); }
    case LedgerRun(id, p) => if PostIn(w, id, p, LookedUp) { LedgerRunCalm(w, id, p); }
    case Outside(le) => if OutsideAllowed(w, le) { OutsideCalm(w, le); }
  }

  lemma NextKeepsCalm(w: World, e: Event)
    requires Sane(w) && AllCalm(w) && QuietEvent(w, e)
    ensures AllCalm(Next(w, e))
  {
    if e.Step? { StepCalm(w, e.id, e.act, e.choice); }
    else if e.Insert? { InsertCalm(w, e.act, e.id); }
    else if e.Crash? { if e.id in w.cells { CrashCalm(w, e.id, e.act); } }
    else if e.Reconcile? { if e.id in w.cells { ReconcileCalm(w, e.id, e.act, e.force); } }
    else if e.LedgerAbort? || e.LosePost? { PostEventsCalm(w, e); }
    else if e.LedgerLookup? || e.LedgerRun? || e.Outside? { LedgerEventsCalm(w, e); }
    else if e.Arrive? || e.FindKey? || e.InsertLost? || e.DropIntake? { IntakeCalm(w, e); }
    else { QuoteEventsCalm(w, e); }
  }

  lemma {:induction false} RunIsSane(events: seq<Event>)
    ensures Sane(Run(events))
  {
    ReachableInv(events);
  }

  lemma {:induction false} DisciplinedIsCalm(events: seq<Event>)
    requires Disciplined(events)
    ensures AllCalm(Run(events))
  {
    if events == [] {
      assert Run(events) == START;
    } else {
      var last := |events| - 1;
      var prefix := events[..last];
      assert Disciplined(prefix) by {
        forall n | 0 <= n < last ensures QuietEvent(Run(prefix[..n]), prefix[n]) {
          assert prefix[..n] == events[..n];
          assert QuietEvent(Run(events[..n]), events[n]);
        }
      }
      DisciplinedIsCalm(prefix);
      RunIsSane(prefix);
      assert QuietEvent(Run(events[..last]), events[last]);
      NextKeepsCalm(Run(prefix), events[last]);
      assert Run(events) == Next(Run(prefix), events[last]);
    }
  }

  /** In a disciplined run a FAILED transfer has no posting, no attempt that could still post, and never will have one. */
  lemma {:induction false} FailedIsNeverPosted(events: seq<Event>, n: nat, id: nat)
    requires Disciplined(events) && n <= |events|
    requires id in Run(events[..n]).cells && Run(events[..n]).cells[id].rows.transfer.status == Failed
    ensures id in Run(events).cells && NoneOutstanding(Run(events).cells[id]) && NoneActive(Run(events).cells[id])
    ensures forall k :: 0 <= k < |Run(events).ledger.journal| ==> Run(events).ledger.journal[k].body.reference != id
  {
    DisciplinedIsCalm(events);
    WorldTheorems.TerminalIsFinal(events, n, id);
    FailedIsIdle(Run(events), id);
  }

  lemma FailedIsIdle(w: World, id: nat)
    requires AllCalm(w) && id in w.cells && w.cells[id].rows.transfer.status == Failed
    ensures Idle(w.cells[id], Posted(w, id))
  {
    assert Calm(w.cells[id], Posted(w, id));
  }
}
