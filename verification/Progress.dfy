/**
 * Liveness of recovery.  A forced reconcile whose calls are all answered takes a bounded number of steps, whatever
 * the rest of the system does between them, and leaves the transfer terminal, COMPLETED exactly when its posting
 * exists, for every transfer that is recoverable; and it changes nothing for an open transfer that is not.
 */
module Progress {
  import opened Common
  import opened Transfers
  import opened World
  import opened WorldInvariant
  import opened WorldRuns
  import opened LedgerGrowth
  import opened Quiet
  import Ledger
  import LedgerInvariant
  import LooseEnds
  import Order
  import QuietRuns
  import WorldTheorems
  import Fx

  /** What reconcile can settle: anything PROCESSING, and a PENDING international transfer whose quote is not someone else's. */
  predicate Recoverable(t: Transfer, quotes: Fx.Quotes) {
    || t.status == Processing
    || (t.status == Pending && t.kind == International
        && (t.quote.Some? && t.quote.value in quotes ==> quotes[t.quote.value].client == t.client))
  }

  /** A refusal of the quote that fails the transfer. */
  predicate Final(f: Fx.FxFailure) { Fx.FxStatus(f) != 403 && Fx.FxStatus(f) < 500 }

  predicate ServerError(r: Result<nat, Ledger.Failure>) { r.Err? && Ledger.HttpStatus(r.error) >= 500 }

  /** The events that carry activation `a` on when no call is lost and the Ledger has no fault of its own. */
  ghost predicate IsMove(w: World, id: nat, a: nat, e: Event)
    requires |w.ledger.balances| == |w.ledger.accounts|
  {
    && id in w.cells && a in w.cells[id].acts
    && var c := w.cells[id];
       match c.acts[a]
       case AwaitingLedger(_, p) =>
         && p in c.posts
         && (match c.posts[p].state
             case Sent => e == LedgerLookup(id, p)
             case LookedUp => e == LedgerRun(id, p) && !ServerError(Ledger.PostAfterLookup(w.ledger, c.posts[p].command).1)
             case _ => e == Step(id, a, Answered))
       case AwaitingFx(_, f) =>
         f in c.fxCalls && if c.fxCalls[f].state.FxSent? then e.FxRun? && e.id == id && e.call == f else e == Step(id, a, Answered)
       case AskingReference(_, _) => e == Step(id, a, Answered)
       case AskingAccount(_) => e.Step? && e.id == id && e.act == a && e.choice.AccountSays? && e.choice.msg !in c.posts
       case FxReady(_) => e.Step? && e.id == id && e.act == a && e.choice.Proceed? && e.choice.msg !in c.fxCalls
       case Replied(_) => false
       case Rejected(_) => false
       case _ => e.Step? && e.id == id && e.act == a
  }

  /**
   * An event of the rest of the system: other transfers, other callers, quotes and time.  Of this transfer, other
   * activations may come, go and read, but they write no rows and none of its calls runs.
   */
  predicate Foreign(w: World, id: nat, a: nat, e: Event) {
    match e
    case Step(i, b, _) => i != id || (b != a && id in w.cells && (b in w.cells[id].acts ==> IsLocal(w.cells[id].acts[b])))
    case Crash(i, b) => i != id || b != a
    case LedgerLookup(i, _) => i != id
    case LedgerRun(i, _) => i != id
    case LedgerAbort(i, _) => i != id
    case LosePost(i, _) => i != id
    case FxRun(i, _, _) => i != id
    case LoseFx(i, _) => i != id
    case _ => true
  }

  /** `rest` carries the activation on from the end of `events`, with foreign events in between. */
  ghost predicate Carries(events: seq<Event>, id: nat, a: nat, rest: seq<Event>) {
    forall n :: 0 <= n < |rest| ==>
      var w := Run(events + rest[..n]); IsMove(w, id, a, rest[n]) || Foreign(w, id, a, rest[n])
  }

  /** How many of the first `n` events of `rest` are moves of the activation. */
  ghost function MovesIn(events: seq<Event>, id: nat, a: nat, rest: seq<Event>, n: nat): nat
    requires n <= |rest|
  {
    if n == 0 then 0 else
      MovesIn(events, id, a, rest, n - 1) + if IsMove(Run(events + rest[..n - 1]), id, a, rest[n - 1]) then 1 else 0
  }

  /** Moves left before the reply. */
  function Rank(c: Cell, act: Activation): nat {
    match act
    case Reconciling(_) => 14
    case PreparingRead => 13
    case FxReady(_) => 12
    case AwaitingFx(_, f) => if f in c.fxCalls && c.fxCalls[f].state.FxSent? then 11 else 10
    case AskingReference(_, _) => 10
    case Preparing(_, _) => 9
    case Retrying(_, _) => 9
    case Transitioning => 9
    case Handling(_, _) => 15
    case Reading => 8
    case AskingAccount(_) => 7
    case AwaitingLedger(_, p) =>
      if p in c.posts && c.posts[p].state.Sent? then 6 else if p in c.posts && c.posts[p].state.LookedUp? then 5 else 4
    case Completing(_) => 1
    case Failing(_, _) => 1
    case FxFailing(_, _) => 1
    case Rereading => 1
    case Replied(_) => 0
    case Rejected(_) => 0
  }

  /** What holds of the transfer at each stop of a forced reconcile. */
  predicate Track(c: Cell, act: Activation, posted: bool, quotes: Fx.Quotes) {
    var t := c.rows.transfer;
    match act
    case Reconciling(force) => force && Recoverable(t, quotes)
    case AskingReference(snap, force) => force && t.status == Processing && snap == t
    case Retrying(snap, stale) => stale.None? && t.status == Processing && snap == t && !posted
    case Reading => t.status == Processing && !posted
    case AskingAccount(_) => t.status == Processing && !posted
    case AwaitingLedger(_, p) =>
      && t.status == Processing && p in c.posts
      && (c.posts[p].state.Accepted? || !posted)
      && (c.posts[p].state.Refused? ==> Ledger.HttpStatus(c.posts[p].state.failure) < 500)
    case Completing(_) => t.status == Processing
    case Failing(_, _) => t.status == Processing && !posted
    case PreparingRead => t.status == Pending && Recoverable(t, quotes)
    case FxReady(snap) => t.status == Pending && Recoverable(t, quotes) && snap == t
    case AwaitingFx(snap, f) =>
      && t.status == Pending && Recoverable(t, quotes) && snap == t && f in c.fxCalls
      && (c.fxCalls[f].state.FxDeclined? ==> Final(c.fxCalls[f].state.failure))
    case Preparing(snap, _) => t.status == Pending && snap == t && t.kind == International
    case FxFailing(_, _) => t.status == Pending && t.kind == International
    case Replied(_) => !Open(t.status) && (t.status == Completed <==> posted)
    case _ => false
  }

  predicate Tracked(w: World, id: nat, a: nat) {
    id in w.cells && a in w.cells[id].acts && Track(w.cells[id], w.cells[id].acts[a], Posted(w, id), w.quotes)
  }

  function RankAt(w: World, id: nat, a: nat): nat
    requires Tracked(w, id, a)
  {
    Rank(w.cells[id], w.cells[id].acts[a])
  }

  predicate Descends(w: World, w': World, id: nat, a: nat)
    requires Tracked(w, id, a)
  {
    Tracked(w', id, a) && RankAt(w', id, a) < RankAt(w, id, a)
  }

  // ----- one move of the activation itself -----

  lemma {:induction false} PendingIsUnposted(id: nat, c: Cell, l: Ledger.Ledger, quotes: Fx.Quotes)
    requires CellOk(id, c, l, quotes) && c.rows.transfer.status == Pending && c.rows.transfer.kind == International
    ensures Ledger.FindReference(l.journal, id).None?
  {
    var r := Ledger.FindReference(l.journal, id);
    assert r.Some? ==> PostedFor(l.accounts, l.journal[r.value], id, c.rows.transfer);
  }

  lemma {:induction false} NamedIsPosted(journal: seq<Ledger.Posting>, p: nat, id: nat)
    requires NamesPosting(journal, p, id)
    ensures Ledger.FindReference(journal, id).Some?
  {
  }

  lemma {:induction false} LocalMove(id: nat, c: Cell, a: nat, choice: Choice, l: Ledger.Ledger, quotes: Fx.Quotes, now: int)
    requires CellOk(id, c, l, quotes) && a in c.acts && IsLocal(c.acts[a])
    requires Track(c, c.acts[a], Ledger.FindReference(l.journal, id).Some?, quotes) && !c.acts[a].Replied?
    requires c.acts[a].AskingReference? ==> choice.Answered?
    requires c.acts[a].AwaitingLedger? ==> choice.Answered? && !Outstanding(c.posts[c.acts[a].post])
    requires c.acts[a].AwaitingFx? ==> choice.Answered? && !c.fxCalls[c.acts[a].call].state.FxSent?
    ensures var act := LocalStep(id, c, c.acts[a], choice, l.journal, now);
      && Track(c, act, Ledger.FindReference(l.journal, id).Some?, quotes) && Rank(c, act) < Rank(c, c.acts[a])
  {
    if c.acts[a].AwaitingLedger? { assert PostOk(id, c.rows.transfer, c.posts[c.acts[a].post], l.journal); }
  }

  lemma AccountMove(id: nat, c: Cell, a: nat, answer: AccountAnswer, msg: nat, l: Ledger.Ledger, quotes: Fx.Quotes, posted: bool)
    requires CellOk(id, c, l, quotes) && a in c.acts && c.acts[a].AskingAccount? && msg !in c.posts
    requires Track(c, c.acts[a], posted, quotes)
    ensures var c' := AfterAccount(id, c, a, c.acts[a].snap, answer, msg);
      && a in c'.acts && Track(c', c'.acts[a], posted, quotes) && Rank(c', c'.acts[a]) < Rank(c, c.acts[a])
  {
    assert ActOk(id, c.rows, c.acts[a], l.journal, quotes);
  }

  /** From a cell with activation `act` to one with activation `act'`. */
  predicate CellDescends(c: Cell, act: Activation, c': Cell, a: nat, posted: bool, quotes: Fx.Quotes) {
    a in c'.acts && Track(c', c'.acts[a], posted, quotes) && Rank(c', c'.acts[a]) < Rank(c, act)
  }

  lemma {:induction false} CompletingMove(id: nat, c: Cell, a: nat, choice: Choice, journal: seq<Ledger.Posting>, quotes: Fx.Quotes, now: int)
    requires a in c.acts && c.acts[a].Completing? && c.rows.transfer.status == Processing
    ensures CellDescends(c, c.acts[a], ActStep(id, c, a, choice, journal, now), a, true, quotes)
  {
  }

  lemma {:induction false} FailingMove(id: nat, c: Cell, a: nat, choice: Choice, journal: seq<Ledger.Posting>, quotes: Fx.Quotes, now: int)
    requires a in c.acts && (c.acts[a].Failing? || c.acts[a].FxFailing?) && Open(c.rows.transfer.status)
    ensures CellDescends(c, c.acts[a], ActStep(id, c, a, choice, journal, now), a, false, quotes)
  {
  }

  lemma {:induction false} RetryMove(
    id: nat, c: Cell, a: nat, choice: Choice, journal: seq<Ledger.Posting>, posted: bool, quotes: Fx.Quotes, now: int)
    requires a in c.acts && c.acts[a].Retrying? && Track(c, c.acts[a], posted, quotes)
    ensures CellDescends(c, c.acts[a], ActStep(id, c, a, choice, journal, now), a, posted, quotes)
  {
  }

  lemma {:induction false} PrepareMove(id: nat, c: Cell, a: nat, choice: Choice, journal: seq<Ledger.Posting>, quotes: Fx.Quotes, now: int)
    requires a in c.acts && c.acts[a].Preparing? && Preparable(c.rows.transfer)
    ensures CellDescends(c, c.acts[a], ActStep(id, c, a, choice, journal, now), a, false, quotes)
  {
  }

  lemma {:induction false} ConsumeMove(
    id: nat, c: Cell, a: nat, choice: Choice, journal: seq<Ledger.Posting>, posted: bool, quotes: Fx.Quotes, now: int)
    requires a in c.acts && c.acts[a].FxReady? && Track(c, c.acts[a], posted, quotes) && c.rows.transfer.quote.Some?
    requires choice.Proceed? && choice.msg !in c.fxCalls
    ensures CellDescends(c, c.acts[a], ActStep(id, c, a, choice, journal, now), a, posted, quotes)
  {
  }

  lemma {:induction false} RowsMove(id: nat, c: Cell, a: nat, choice: Choice, l: Ledger.Ledger, quotes: Fx.Quotes, now: int, posted: bool)
    requires CellOk(id, c, l, quotes) && a in c.acts && !IsLocal(c.acts[a]) && !c.acts[a].AskingAccount?
    requires c.acts[a].FxReady? ==> choice.Proceed? && choice.msg !in c.fxCalls
    requires posted == Ledger.FindReference(l.journal, id).Some? && Track(c, c.acts[a], posted, quotes)
    ensures CellDescends(c, c.acts[a], ActStep(id, c, a, choice, l.journal, now), a, posted, quotes)
  {
    assert ActOk(id, c.rows, c.acts[a], l.journal, quotes);
    if c.rows.transfer.status == Pending { PendingIsUnposted(id, c, l, quotes); }
    match c.acts[a]
    case Completing(p) => NamedIsPosted(l.journal, p, id); CompletingMove(id, c, a, choice, l.journal, quotes, now);
    case Preparing(_, _) => PrepareMove(id, c, a, choice, l.journal, quotes, now);
    case Retrying(_, _) => RetryMove(id, c, a, choice, l.journal, posted, quotes, now);
    case FxReady(_) => ConsumeMove(id, c, a, choice, l.journal, posted, quotes, now);
    case _ => FailingMove(id, c, a, choice, l.journal, quotes, now);
  }

  lemma {:induction false} ActMove(id: nat, c: Cell, a: nat, choice: Choice, l: Ledger.Ledger, quotes: Fx.Quotes, now: int, posted: bool)
    requires CellOk(id, c, l, quotes) && a in c.acts && !c.acts[a].Replied?
    requires posted == Ledger.FindReference(l.journal, id).Some? && Track(c, c.acts[a], posted, quotes)
    requires c.acts[a].FxReady? ==> choice.Proceed? && choice.msg !in c.fxCalls
    requires c.acts[a].AskingAccount? ==> choice.AccountSays? && choice.msg !in c.posts
    requires c.acts[a].AskingReference? ==> choice.Answered?
    requires c.acts[a].AwaitingLedger? ==> choice.Answered? && !Outstanding(c.posts[c.acts[a].post])
    requires c.acts[a].AwaitingFx? ==> choice.Answered? && !c.fxCalls[c.acts[a].call].state.FxSent?
    ensures CellDescends(c, c.acts[a], ActStep(id, c, a, choice, l.journal, now), a, posted, quotes)
  {
    if IsLocal(c.acts[a]) {
      LocalMove(id, c, a, choice, l, quotes, now);
      LocalCell(id, c, a, choice, l.journal, posted, quotes, now);
    } else if c.acts[a].AskingAccount? {
      AccountMove(id, c, a, choice.answer, choice.msg, l, quotes, posted);
    } else {
      RowsMove(id, c, a, choice, l, quotes, now, posted);
    }
  }

  lemma {:induction false} LocalCell(
    id: nat, c: Cell, a: nat, choice: Choice, journal: seq<Ledger.Posting>, posted: bool, quotes: Fx.Quotes, now: int)
    requires a in c.acts && IsLocal(c.acts[a])
    requires var act := LocalStep(id, c, c.acts[a], choice, journal, now); Track(c, act, posted, quotes) && Rank(c, act) < Rank(c, c.acts[a])
    ensures CellDescends(c, c.acts[a], ActStep(id, c, a, choice, journal, now), a, posted, quotes)
  {
  }

  lemma StepMove(w: World, id: nat, a: nat, choice: Choice)
    requires |w.ledger.balances| == |w.ledger.accounts| && Tracked(w, id, a) && IsMove(w, id, a, Step(id, a, choice))
    requires CellOk(id, w.cells[id], w.ledger, w.quotes)
    ensures Descends(w, Next(w, Step(id, a, choice)), id, a)
  {
    hide Ledger.PostAfterLookup, Ledger.Next, CellOk, ActStep;
    ActMove(id, w.cells[id], a, choice, w.ledger, w.quotes, w.now, Posted(w, id));
  }

  // ----- the moves of the services it calls -----

  lemma LookupMove(w: World, id: nat, a: nat, p: nat)
    requires |w.ledger.balances| == |w.ledger.accounts| && Tracked(w, id, a) && CellOk(id, w.cells[id], w.ledger, w.quotes)
    requires w.cells[id].acts[a].AwaitingLedger? && w.cells[id].acts[a].post == p && PostIn(w, id, p, Sent)
    ensures Descends(w, Next(w, LedgerLookup(id, p)), id, a)
  {
    var c := w.cells[id];
    assert PostOk(id, c.rows.transfer, c.posts[p], w.ledger.journal);
  }

  lemma RanMove(w: World, id: nat, a: nat, p: nat, ledger: Ledger.Ledger, answer: Result<nat, Ledger.Failure>)
    requires Tracked(w, id, a) && w.cells[id].acts[a].AwaitingLedger? && w.cells[id].acts[a].post == p && PostIn(w, id, p, LookedUp)
    requires PostRan(w.ledger, ledger, w.cells[id].posts[p].command, answer) && !ServerError(answer)
    ensures Descends(w, WithCell(w, id, SetPost(w.cells[id], p, PostAnswer(answer))).(ledger := ledger), id, a)
  {
  }

  lemma LedgerRunMove(w: World, id: nat, a: nat, p: nat)
    requires |w.ledger.balances| == |w.ledger.accounts| && Tracked(w, id, a)
    requires w.cells[id].acts[a].AwaitingLedger? && w.cells[id].acts[a].post == p && PostIn(w, id, p, LookedUp)
    requires !ServerError(Ledger.PostAfterLookup(w.ledger, w.cells[id].posts[p].command).1)
    ensures Descends(w, Next(w, LedgerRun(id, p)), id, a)
  {
    var command := w.cells[id].posts[p].command;
    PostAfterLookupGrows(w.ledger, command);
    RanMove(w, id, a, p, Ledger.PostAfterLookup(w.ledger, command).0, Ledger.PostAfterLookup(w.ledger, command).1);
  }

  /** A quote of the transfer's own client is granted or refused for good; it is never refused as someone else's. */
  lemma OwnedConsumeIsDefinite(w: World, id: nat, claim: Fx.Claim, clock: int)
    requires Fx.QuotesOk(w.quotes) && ConsumersOk(w)
    requires id in w.cells && w.cells[id].rows.transfer.quote.Some? && claim == QuoteClaim(id, w.cells[id].rows.transfer)
    requires Recoverable(w.cells[id].rows.transfer, w.quotes) && w.cells[id].rows.transfer.status == Pending
    ensures var (quotes, answer) := Fx.Consume(w.quotes, claim, clock);
      && (answer.Err? ==> Final(answer.error)) && Recoverable(w.cells[id].rows.transfer, quotes)
  {
    if claim.quote in w.quotes {
      forall q | q in w.quotes && w.quotes[q].consumedBy == Some(claim.transfer) ensures q == claim.quote {
        assert ClaimsQuote(w.cells[id].rows.transfer, q, w.quotes[q]);
      }
      assert Fx.QuoteOk(w.quotes[claim.quote]);
    }
  }

  lemma FxRunMove(w: World, id: nat, a: nat, f: nat, late: nat)
    requires QuietRuns.Sane(w) && Tracked(w, id, a)
    requires w.cells[id].acts[a].AwaitingFx? && w.cells[id].acts[a].call == f && w.cells[id].fxCalls[f].state.FxSent?
    ensures Descends(w, Next(w, FxRun(id, f, late)), id, a)
  {
    hide Ledger.PostAfterLookup, Ledger.Next, ActStep, LocalStep;
    var c := w.cells[id];
    assert CellOk(id, c, w.ledger, w.quotes);
    assert FxOk(id, c.rows.transfer, c.fxCalls[f], w.quotes);
    OwnedConsumeIsDefinite(w, id, c.fxCalls[f].claim, ClockOf(c.fxCalls[f], late, w.now));
  }

  // ----- what the rest of the system does meanwhile -----

  /** Everything the activation depends on is as it was. */
  predicate Undisturbed(w: World, w': World, id: nat, a: nat) {
    && id in w.cells && id in w'.cells && w'.cells[id].rows == w.cells[id].rows
    && w'.cells[id].posts == w.cells[id].posts && w'.cells[id].fxCalls == w.cells[id].fxCalls
    && a in w.cells[id].acts && a in w'.cells[id].acts && w'.cells[id].acts[a] == w.cells[id].acts[a]
    && (Posted(w', id) <==> Posted(w, id)) && SameQuote(w.cells[id].rows.transfer, w.quotes, w'.quotes)
  }

  /** The quote of the transfer exists in both tables or in neither, for the same client. */
  predicate SameQuote(t: Transfer, quotes: Fx.Quotes, quotes': Fx.Quotes) {
    t.quote.Some? ==>
      && (t.quote.value in quotes <==> t.quote.value in quotes')
      && (t.quote.value in quotes ==> quotes'[t.quote.value].client == quotes[t.quote.value].client)
  }

  lemma {:induction false} ForeignCells(w: World, id: nat, a: nat, e: Event)
    requires |w.ledger.balances| == |w.ledger.accounts| && id in w.cells && a in w.cells[id].acts && Foreign(w, id, a, e)
    ensures id in Next(w, e).cells && a in Next(w, e).cells[id].acts
    ensures var c, c' := w.cells[id], Next(w, e).cells[id];
      c'.rows == c.rows && c'.posts == c.posts && c'.fxCalls == c.fxCalls && c'.acts[a] == c.acts[a]
  {
    hide Ledger.PostAfterLookup, Ledger.Next, LocalStep;
    if e.Step? && e.id == id && e.act in w.cells[id].acts {
      LocalLeavesRows(id, w.cells[id], e.act, e.choice, w.ledger.journal, w.now);
    }
  }

  lemma {:induction false} LocalLeavesRows(id: nat, c: Cell, b: nat, choice: Choice, journal: seq<Ledger.Posting>, now: int)
    requires b in c.acts && IsLocal(c.acts[b])
    ensures ActStep(id, c, b, choice, journal, now) == c.(acts := c.acts[b := LocalStep(id, c, c.acts[b], choice, journal, now)])
  {
  }

  lemma {:induction false} ForeignQuotes(w: World, id: nat, e: Event)
    requires Inv(w) && id in w.cells
    ensures SameQuote(w.cells[id].rows.transfer, w.quotes, Next(w, e).quotes)
  {
    hide Ledger.PostAfterLookup, Ledger.Next, LedgerInvariant.Inv, CellsOk, KeysUnique, QuotesUnique, ConsumersOk, ActStep;
    match e
    case FxRun(i, f, late) =>
      if i in w.cells && f in w.cells[i].fxCalls {
        Fx.ConsumeKeeps(w.quotes, w.cells[i].fxCalls[f].claim, ClockOf(w.cells[i].fxCalls[f], late, w.now));
      }
    case NewQuote(q, quote) =>
    case ReadQuote(q, client) =>
    case _ => WorldTheorems.QuotesUntouched(w, e);
  }

  lemma {:induction false} UndisturbedTrack(w: World, w': World, id: nat, a: nat)
    requires Tracked(w, id, a) && Undisturbed(w, w', id, a)
    ensures Tracked(w', id, a) && RankAt(w', id, a) == RankAt(w, id, a)
  {
  }

  lemma {:induction false} ForeignUndisturbs(w: World, id: nat, a: nat, e: Event)
    requires Inv(w) && id in w.cells && a in w.cells[id].acts && Foreign(w, id, a, e)
    ensures Undisturbed(w, Next(w, e), id, a)
  {
    hide Next, LedgerInvariant.Inv, CellsOk, KeysUnique, QuotesUnique, ConsumersOk, SameQuote, Posted;
    ForeignCells(w, id, a, e);
    LooseEnds.PostedKept(w, e, id);
    ForeignQuotes(w, id, e);
  }

  lemma ForeignKeepsTrack(w: World, id: nat, a: nat, e: Event)
    requires Inv(w) && Tracked(w, id, a) && Foreign(w, id, a, e)
    ensures |w.ledger.balances| == |w.ledger.accounts|
    ensures Tracked(Next(w, e), id, a) && RankAt(Next(w, e), id, a) == RankAt(w, id, a)
  {
    hide Next, Track, Rank, LedgerInvariant.Inv, CellsOk, KeysUnique, QuotesUnique, ConsumersOk, Foreign, Undisturbed;
    ForeignUndisturbs(w, id, a, e);
    UndisturbedTrack(w, Next(w, e), id, a);
  }

  // ----- the theorems -----

  lemma MoveDescends(w: World, id: nat, a: nat, e: Event)
    requires QuietRuns.Sane(w) && Tracked(w, id, a) && IsMove(w, id, a, e)
    ensures Descends(w, Next(w, e), id, a)
  {
    hide CellOk, Track, Rank, Next;
    if e.LedgerLookup? { LookupMove(w, id, a, e.post); }
    else if e.LedgerRun? { LedgerRunMove(w, id, a, e.post); }
    else if e.FxRun? { FxRunMove(w, id, a, e.call, e.late); }
    else { StepMove(w, id, a, e.choice); }
  }

  /** The moves left after a history, or -1 off the track. */
  ghost function Budget(events: seq<Event>, id: nat, a: nat): int {
    if Tracked(Run(events), id, a) then RankAt(Run(events), id, a) else -1
  }

  lemma {:induction false} EventSpends(events: seq<Event>, id: nat, a: nat, rest: seq<Event>, n: nat)
    requires n < |rest| && Carries(events, id, a, rest) && Budget(events + rest[..n], id, a) >= 0
    ensures 0 <= Budget(events + rest[..n + 1], id, a)
    ensures Budget(events + rest[..n + 1], id, a) + MovesIn(events, id, a, rest, n + 1)
         <= Budget(events + rest[..n], id, a) + MovesIn(events, id, a, rest, n)
  {
    hide Run, Next, Track, Rank, QuietRuns.Sane, Foreign, Inv;
    var before := events + rest[..n];
    var w := Run(before);
    QuietRuns.RunIsSane(before);
    ReachableInv(before);
    if IsMove(w, id, a, rest[n]) { MoveDescends(w, id, a, rest[n]); } else { ForeignKeepsTrack(w, id, a, rest[n]); }
    RunStep(before, rest[n]);
    assert before + [rest[n]] == events + rest[..n + 1];
  }

  lemma {:induction false} MovesEnd(events: seq<Event>, id: nat, a: nat, rest: seq<Event>)
    requires Budget(events, id, a) >= 0 && Carries(events, id, a, rest)
    ensures 0 <= Budget(events + rest, id, a) <= Budget(events, id, a) - MovesIn(events, id, a, rest, |rest|)
  {
    hide Run, Carries, Budget;
    var n := 0;
    assert events + rest[..0] == events;
    while n < |rest|
      invariant n <= |rest| && 0 <= Budget(events + rest[..n], id, a) <= Budget(events, id, a) - MovesIn(events, id, a, rest, n)
    {
      EventSpends(events, id, a, rest, n);
      n := n + 1;
    }
    assert rest[..n] == rest;
  }

  /** Until it has replied, a forced reconcile always has a next move, unless the Ledger itself is failing. */
  lemma NeverStuck(w: World, id: nat, a: nat)
    requires |w.ledger.balances| == |w.ledger.accounts| && Tracked(w, id, a) && !w.cells[id].acts[a].Replied?
    requires var c := w.cells[id];
      c.acts[a].AwaitingLedger? && c.posts[c.acts[a].post].state.LookedUp? ==>
        !ServerError(Ledger.PostAfterLookup(w.ledger, c.posts[c.acts[a].post].command).1)
    ensures exists e :: IsMove(w, id, a, e)
  {
    var c := w.cells[id];
    var act := c.acts[a];
    var m := Order.FreshName(c.posts.Keys);
    var n := Order.FreshName(c.fxCalls.Keys);
    var e :=
      if act.AwaitingLedger? && c.posts[act.post].state.Sent? then LedgerLookup(id, act.post)
      else if act.AwaitingLedger? && c.posts[act.post].state.LookedUp? then LedgerRun(id, act.post)
      else if act.AwaitingFx? && c.fxCalls[act.call].state.FxSent? then FxRun(id, act.call, 0)
      else if act.AskingAccount? then Step(id, a, AccountSays(AccountDown, m))
      else if act.FxReady? then Step(id, a, Proceed(n))
      else Step(id, a, Answered);
    assert IsMove(w, id, a, e);
  }

  /**
   * A forced reconcile of a recoverable transfer, in any reachable system, whatever the Account service answers and
   * whatever the rest of the system does in between: at most fourteen moves, and when it has replied the transfer is
   * terminal, COMPLETED exactly when posted.
   */
  lemma {:induction false} ForcedReconcileSettles(events: seq<Event>, id: nat, a: nat, rest: seq<Event>)
    requires id in Run(events).cells && a !in Run(events).cells[id].acts
    requires Recoverable(Run(events).cells[id].rows.transfer, Run(events).quotes)
    requires Carries(events + [Reconcile(id, a, true)], id, a, rest)
    ensures MovesIn(events + [Reconcile(id, a, true)], id, a, rest, |rest|) <= 14
    ensures var w := Run(events + [Reconcile(id, a, true)] + rest);
      && Tracked(w, id, a)
      && (w.cells[id].acts[a].Replied? ==>
            && !Open(w.cells[id].rows.transfer.status)
            && (w.cells[id].rows.transfer.status == Completed <==> Posted(w, id)))
  {
    hide Run, Next, Track, Rank, Carries, MovesIn;
    RunStep(events, Reconcile(id, a, true));
    StartsTracked(Run(events), id, a);
    MovesEnd(events + [Reconcile(id, a, true)], id, a, rest);
    RepliedIsSettled(Run(events + [Reconcile(id, a, true)] + rest), id, a);
  }

  lemma RepliedIsSettled(w: World, id: nat, a: nat)
    requires Tracked(w, id, a)
    ensures w.cells[id].acts[a].Replied? ==>
      && !Open(w.cells[id].rows.transfer.status) && (w.cells[id].rows.transfer.status == Completed <==> Posted(w, id))
  {
  }

  lemma StartsTracked(w: World, id: nat, a: nat)
    requires |w.ledger.balances| == |w.ledger.accounts|
    requires id in w.cells && a !in w.cells[id].acts && Recoverable(w.cells[id].rows.transfer, w.quotes)
    ensures var w' := Next(w, Reconcile(id, a, true)); Tracked(w', id, a) && RankAt(w', id, a) == 14
  {
  }

  // ----- what a reconcile cannot settle -----

  /** The stops of a reconcile of an open transfer that is not recoverable; `rows` never change on the way. */
  predicate Stalled(c: Cell, act: Activation, rows: Rows, quotes: Fx.Quotes) {
    && c.rows == rows && Open(rows.transfer.status) && !Recoverable(rows.transfer, quotes)
    && (match act
        case Reconciling(_) => true
        case PreparingRead => rows.transfer.kind == International
        case FxReady(snap) => snap == rows.transfer && rows.transfer.kind == International
        case AwaitingFx(snap, f) =>
          && snap == rows.transfer && f in c.fxCalls && rows.transfer.quote == Some(c.fxCalls[f].claim.quote)
          && c.fxCalls[f].claim.client == rows.transfer.client && rows.transfer.kind == International
          && (c.fxCalls[f].state.FxSent? || c.fxCalls[f].state == FxDeclined(Fx.QuoteAccessDenied))
        case Replied(reply) => Open(reply.body.status)
        case _ => false)
  }

  predicate StalledAt(w: World, id: nat, a: nat, rows: Rows) {
    id in w.cells && a in w.cells[id].acts && Stalled(w.cells[id], w.cells[id].acts[a], rows, w.quotes)
  }

  lemma StalledMove(w: World, id: nat, a: nat, rows: Rows, e: Event)
    requires |w.ledger.balances| == |w.ledger.accounts| && StalledAt(w, id, a, rows) && IsMove(w, id, a, e)
    ensures StalledAt(Next(w, e), id, a, rows)
  {
    hide Ledger.PostAfterLookup, Ledger.Next, Fx.QuotesOk;
    if w.cells[id].acts[a].AwaitingFx? && e.FxRun? {
      var call := w.cells[id].fxCalls[e.call];
      assert Fx.Consume(w.quotes, call.claim, ClockOf(call, e.late, w.now)) == (w.quotes, Err(Fx.QuoteAccessDenied));
    }
  }

  lemma {:induction false} UndisturbedStall(w: World, w': World, id: nat, a: nat, rows: Rows)
    requires StalledAt(w, id, a, rows) && Undisturbed(w, w', id, a)
    ensures StalledAt(w', id, a, rows)
  {
  }

  lemma {:induction false} StalledNext(events: seq<Event>, id: nat, a: nat, rows: Rows, rest: seq<Event>, n: nat)
    requires n < |rest| && Carries(events, id, a, rest) && StalledAt(Run(events + rest[..n]), id, a, rows)
    ensures StalledAt(Run(events + rest[..n + 1]), id, a, rows)
  {
    hide Run, Next, Stalled, IsMove, Foreign, Inv, Undisturbed;
    var before := events + rest[..n];
    var w := Run(before);
    if IsMove(w, id, a, rest[n]) {
      StalledMove(w, id, a, rows, rest[n]);
    } else {
      ReachableInv(before);
      ForeignUndisturbs(w, id, a, rest[n]);
      UndisturbedStall(w, Next(w, rest[n]), id, a, rows);
    }
    RunStep(before, rest[n]);
    assert before + [rest[n]] == events + rest[..n + 1];
  }

  /**
   * An open transfer that is not recoverable - a domestic one left PENDING, or one whose quote belongs to another
   * client - is left exactly as it was by every forced reconcile, whatever the rest of the system does meanwhile.
   */
  lemma {:induction false} ForcedReconcileStalls(events: seq<Event>, id: nat, a: nat, rest: seq<Event>)
    requires id in Run(events).cells && a !in Run(events).cells[id].acts && Open(Run(events).cells[id].rows.transfer.status)
    requires !Recoverable(Run(events).cells[id].rows.transfer, Run(events).quotes)
    requires Carries(events + [Reconcile(id, a, true)], id, a, rest)
    ensures var w := Run(events + [Reconcile(id, a, true)] + rest);
      id in w.cells && w.cells[id].rows == Run(events).cells[id].rows
  {
    hide Run, Next, Carries, Stalled, Recoverable;
    var rows := Run(events).cells[id].rows;
    var start := events + [Reconcile(id, a, true)];
    RunStep(events, Reconcile(id, a, true));
    StartsStalled(Run(events), id, a);
    var n := 0;
    assert start + rest[..0] == start;
    while n < |rest|
      invariant n <= |rest| && StalledAt(Run(start + rest[..n]), id, a, rows)
    {
      StalledNext(start, id, a, rows, rest, n);
      n := n + 1;
    }
    assert rest[..n] == rest;
    StalledRows(Run(start + rest), id, a, rows);
  }

  lemma StalledRows(w: World, id: nat, a: nat, rows: Rows)
    requires StalledAt(w, id, a, rows)
    ensures w.cells[id].rows == rows
  {
  }

  lemma StartsStalled(w: World, id: nat, a: nat)
    requires |w.ledger.balances| == |w.ledger.accounts| && id in w.cells && a !in w.cells[id].acts
    requires Open(w.cells[id].rows.transfer.status) && !Recoverable(w.cells[id].rows.transfer, w.quotes)
    ensures StalledAt(Next(w, Reconcile(id, a, true)), id, a, w.cells[id].rows)
  {
    hide Ledger.PostAfterLookup, Ledger.Next;
  }
}
