/** The invariant of the whole system, over every run of every interleaving. */
module WorldRuns {
  import opened Common
  import opened Transfers
  import opened World
  import opened WorldInvariant
  import opened LedgerGrowth
  import Ledger
  import LedgerInvariant
  import Fx

  predicate CellsOk(w: World) { forall id :: id in w.cells ==> CellOk(id, w.cells[id], w.ledger, w.quotes) }

  predicate SameKey(c: Cell, d: Cell) { HasKey(d, c.rows.record.client, c.rows.record.key) }

  predicate KeysUnique(cells: map<nat, Cell>) {
    forall i, j :: i in cells && j in cells && SameKey(cells[i], cells[j]) ==> i == j
  }

  predicate QuotesUnique(cells: map<nat, Cell>) {
    forall i, j :: i in cells && j in cells ==>
      cells[i].rows.transfer.quote.Some? && cells[i].rows.transfer.quote == cells[j].rows.transfer.quote ==> i == j
  }

  predicate ConsumedPast(quotes: Fx.Quotes, now: int) {
    forall q :: q in quotes && quotes[q].consumedAt.Some? ==> quotes[q].consumedAt.value <= now
  }

  /** FX postings exist only under transfer ids. */
  predicate FxPostingsOwned(w: World) {
    forall k :: 0 <= k < |w.ledger.journal| && w.ledger.journal[k].body.kind == Ledger.FxTransfer ==>
      w.ledger.journal[k].body.reference in w.cells
  }

  /** A consumed quote names the transfer it was consumed for, and that transfer asked for exactly this quote. */
  predicate ConsumersOk(w: World) {
    forall q :: q in w.quotes && w.quotes[q].consumedBy.Some? ==>
      && w.quotes[q].consumedBy.value in w.cells
      && ClaimsQuote(w.cells[w.quotes[q].consumedBy.value].rows.transfer, q, w.quotes[q])
  }

  predicate ClaimsQuote(t: Transfer, q: nat, quote: Fx.Quote) {
    && t.quote == Some(q) && t.client == quote.client && t.sourceCurrency == quote.sourceCurrency
    && t.targetCurrency == quote.targetCurrency && t.sourceAmount == quote.sourceAmount
  }

  ghost predicate Inv(w: World) {
    && |w.ledger.balances| == |w.ledger.accounts| && LedgerInvariant.Inv(w.ledger) && Fx.QuotesOk(w.quotes) && ConsumedPast(w.quotes, w.now)
    && CellsOk(w) && KeysUnique(w.cells) && QuotesUnique(w.cells) && FxPostingsOwned(w) && ConsumersOk(w)
  }

  lemma InvSizes(w: World)
    requires Inv(w)
    ensures |w.ledger.balances| == |w.ledger.accounts|
  {
  }

  // ----- replacing one cell -----

  predicate SameIdentity(c: Cell, d: Cell) {
    && c.rows.record.client == d.rows.record.client && c.rows.record.key == d.rows.record.key
    && SameCommand(c.rows.transfer, d.rows.transfer)
  }

  lemma PutCell(w: World, id: nat, c: Cell)
    requires Inv(w) && id in w.cells && CellOk(id, c, w.ledger, w.quotes) && SameIdentity(w.cells[id], c)
    ensures Inv(WithCell(w, id, c))
  {
    hide LedgerInvariant.Inv, CellOk;
    var w' := WithCell(w, id, c);
    forall i, j | i in w'.cells && j in w'.cells && SameKey(w'.cells[i], w'.cells[j]) ensures i == j {
      assert SameKey(w.cells[i], w.cells[j]);
    }
  }

  lemma {:induction false} ActStepIdentity(id: nat, c: Cell, act: nat, choice: Choice, journal: seq<Ledger.Posting>, now: int)
    requires act in c.acts
    ensures SameIdentity(c, ActStep(id, c, act, choice, journal, now))
  {
  }

  /** The ledger or the quotes move on; every cell but `except` is untouched by what is new. */
  lemma FrameOthers(w: World, ledger: Ledger.Ledger, quotes: Fx.Quotes, own: nat)
    requires Inv(w) && Grows(w.ledger, ledger) && Fx.QuotesEvolve(w.quotes, quotes)
    requires forall i :: |w.ledger.journal| <= i < |ledger.journal| ==>
      ledger.journal[i].body.reference == own || ledger.journal[i].body.reference !in w.cells
    ensures forall i :: i in w.cells && i != own ==> CellOk(i, w.cells[i], ledger, quotes)
  {
    forall i | i in w.cells && i != own ensures CellOk(i, w.cells[i], ledger, quotes) {
      CellFrame(i, w.cells[i], w.ledger, ledger, w.quotes, quotes);
    }
  }

  lemma QuotesEvolveReflexive(quotes: Fx.Quotes)
    ensures Fx.QuotesEvolve(quotes, quotes)
  {
  }

  // ----- the events -----

  lemma JoinKeeps(w: World, act: nat, id: nat)
    requires Inv(w) && act in w.intake && id in w.cells
    ensures Inv(Join(w, act, id))
  {
    var i, c := w.intake[act], w.cells[id];
    if act !in c.acts {
      PutAct(id, c, act, Handling(i.request, c.rows.record), w.ledger, w.quotes);
      PutCell(w, id, c.(acts := c.acts[act := Handling(i.request, c.rows.record)]));
    }
  }

  lemma NewCellOk(w: World, a: nat, id: nat)
    requires Inv(w) && a in w.intake && Insertable(w, w.intake[a], id) && RequestAllowed(w.intake[a].request)
    ensures CellOk(id, NewCell(w.intake[a], a, w.now), w.ledger, w.quotes)
  {
    hide LedgerInvariant.Inv, KeysUnique, QuotesUnique, ConsumersOk;
    var i := w.intake[a];
    ClaimIsOk(id, i.client, i.key, i.request, w.now);
  }

  predicate IntakeOk(w: World) { forall a :: a in w.intake ==> RequestAllowed(w.intake[a].request) }

  lemma InsertKeeps(w: World, a: nat, id: nat)
    requires Inv(w) && IntakeOk(w) && a in w.intake && Insertable(w, w.intake[a], id)
    ensures Inv(Next(w, Insert(a, id)))
  {
    hide LedgerInvariant.Inv, CellOk, Ledger.PostAfterLookup, Ledger.Next, ActStep;
    NewCellOk(w, a, id);
    var w' := Next(w, Insert(a, id));
    var i := w.intake[a];
    forall x, y | x in w'.cells && y in w'.cells && SameKey(w'.cells[x], w'.cells[y]) ensures x == y {
      if x in w.cells && y in w.cells { assert SameKey(w.cells[x], w.cells[y]); }
      if x in w.cells { assert !HasKey(w.cells[x], i.client, i.key); }
      if y in w.cells { assert !HasKey(w.cells[y], i.client, i.key); }
    }
  }

  lemma StepKeeps(w: World, id: nat, a: nat, choice: Choice)
    requires Inv(w)
    ensures Inv(Next(w, Step(id, a, choice)))
  {
    hide LedgerInvariant.Inv, Ledger.PostAfterLookup, Ledger.Next, ActStep, CellOk, KeysUnique, QuotesUnique;
    if id in w.cells && a in w.cells[id].acts {
      ActKeeps(id, w.cells[id], a, choice, w.ledger, w.quotes, w.now);
      ActStepIdentity(id, w.cells[id], a, choice, w.ledger.journal, w.now);
      PutCell(w, id, ActStep(id, w.cells[id], a, choice, w.ledger.journal, w.now));
    }
  }

  lemma PutPost(w: World, id: nat, p: nat, s: PostState)
    requires Inv(w) && id in w.cells && p in w.cells[id].posts
    requires s.Accepted? ==> NamesPosting(w.ledger.journal, s.posting, id)
    ensures Inv(WithCell(w, id, SetPost(w.cells[id], p, s)))
  {
    var c := w.cells[id];
    assert PostOk(id, c.rows.transfer, c.posts[p], w.ledger.journal);
    PutCell(w, id, SetPost(c, p, s));
  }

  lemma LookupKeeps(w: World, id: nat, p: nat)
    requires Inv(w)
    ensures Inv(Next(w, LedgerLookup(id, p)))
  {
    hide LedgerInvariant.Inv, Ledger.PostAfterLookup, Ledger.Next, ActStep, KeysUnique, QuotesUnique;
    if PostIn(w, id, p, Sent) {
      var c := w.cells[id];
      assert PostOk(id, c.rows.transfer, c.posts[p], w.ledger.journal);
      var answer := Ledger.Lookup(w.ledger, c.posts[p].command);
      PutPost(w, id, p, if answer.None? then LookedUp else PostAnswer(answer.value));
    }
  }

  /** What the running post did to the ledger, as far as its own cell is concerned. */
  ghost predicate PostRan(l: Ledger.Ledger, l': Ledger.Ledger, c: Ledger.Command, answer: Result<nat, Ledger.Failure>) {
    Grows(l, l') && (l'.journal == l.journal || Added(l, l', c, answer)) && AnswersOwn(l', c, answer)
  }

  lemma RunKeepsOwnCell(id: nat, c: Cell, p: nat, l: Ledger.Ledger, l': Ledger.Ledger, answer: Result<nat, Ledger.Failure>,
                        quotes: Fx.Quotes)
    requires CellOk(id, c, l, quotes) && p in c.posts && PostRan(l, l', c.posts[p].command, answer)
    ensures CellOk(id, SetPost(c, p, PostAnswer(answer)), l', quotes)
  {
    var t := c.rows.transfer;
    assert PostOk(id, t, c.posts[p], l.journal);
    QuotesEvolveReflexive(quotes);
    if l'.journal == l.journal {
      CellFrame(id, c, l, l', quotes, quotes);
    } else {
      AddedIsPostedFor(l, l', id, t, answer);
      OwnPostingAdded(id, c, l, l', quotes);
    }
    AnswerKept(id, c, p, l', answer, quotes);
  }

  lemma AnswerKept(id: nat, c: Cell, p: nat, l: Ledger.Ledger, answer: Result<nat, Ledger.Failure>, quotes: Fx.Quotes)
    requires CellOk(id, c, l, quotes) && p in c.posts && AnswersOwn(l, c.posts[p].command, answer)
    ensures CellOk(id, SetPost(c, p, PostAnswer(answer)), l, quotes)
  {
    assert PostOk(id, c.rows.transfer, c.posts[p], l.journal);
  }

  lemma OwnPostingAdded(id: nat, c: Cell, l: Ledger.Ledger, l': Ledger.Ledger, quotes: Fx.Quotes)
    requires CellOk(id, c, l, quotes) && Grows(l, l')
    requires |l'.journal| == |l.journal| + 1 && PostedFor(l'.accounts, l'.journal[|l.journal|], id, c.rows.transfer)
    requires forall k :: 0 <= k < |l.journal| ==> l.journal[k].body.reference != id
    ensures CellOk(id, c, l', quotes)
  {
    forall i | 0 <= i < |l.journal| ensures l'.journal[i] == l.journal[i] {
      assert l'.journal[..|l.journal|][i] == l.journal[i];
    }
    QuotesEvolveReflexive(quotes);
    FrameActs(id, c, l.journal, l'.journal, quotes, quotes);
    forall p | p in c.posts ensures PostOk(id, c.rows.transfer, c.posts[p], l'.journal) {
      assert PostOk(id, c.rows.transfer, c.posts[p], l.journal);
    }
  }

  lemma RanUnder(l: Ledger.Ledger, l': Ledger.Ledger, c: Ledger.Command, answer: Result<nat, Ledger.Failure>)
    requires PostRan(l, l', c, answer)
    ensures NewUnder(l, l', c.reference)
  {
  }

  lemma RanKeeps(w: World, id: nat, p: nat, ledger: Ledger.Ledger, answer: Result<nat, Ledger.Failure>)
    requires Inv(w) && PostIn(w, id, p, LookedUp) && LedgerInvariant.Inv(ledger)
    requires PostRan(w.ledger, ledger, w.cells[id].posts[p].command, answer)
    ensures Inv(WithCell(w, id, SetPost(w.cells[id], p, PostAnswer(answer))).(ledger := ledger))
  {
    hide LedgerInvariant.Inv, CellOk, KeysUnique, QuotesUnique;
    var c := w.cells[id];
    OwnCommand(id, c, p, w.ledger, w.quotes);
    RunKeepsOwnCell(id, c, p, w.ledger, ledger, answer, w.quotes);
    RanUnder(w.ledger, ledger, c.posts[p].command, answer);
    QuotesEvolveReflexive(w.quotes);
    FrameOthers(w, ledger, w.quotes, id);
    SwapLedger(w, id, SetPost(c, p, PostAnswer(answer)), ledger, w.quotes);
  }

  lemma LedgerRunKeeps(w: World, id: nat, p: nat)
    requires Inv(w)
    ensures Inv(Next(w, LedgerRun(id, p)))
  {
    hide LedgerInvariant.Inv, CellsOk, Ledger.PostAfterLookup, Grows, Added, AnswersOwn;
    if PostIn(w, id, p, LookedUp) {
      var command := w.cells[id].posts[p].command;
      PostAfterLookupGrows(w.ledger, command);
      LedgerInvariant.PostAfterLookupKeepsInv(w.ledger, command);
      RanKeeps(w, id, p, Ledger.PostAfterLookup(w.ledger, command).0, Ledger.PostAfterLookup(w.ledger, command).1);
    }
  }

  /** One cell and the ledger change together. */
  lemma SwapLedger(w: World, id: nat, c: Cell, ledger: Ledger.Ledger, quotes: Fx.Quotes)
    requires Inv(w) && id in w.cells && SameIdentity(w.cells[id], c) && CellOk(id, c, ledger, quotes)
    requires LedgerInvariant.Inv(ledger) && Grows(w.ledger, ledger) && Fx.QuotesOk(quotes) && ConsumedPast(quotes, w.now)
    requires ConsumersOk(w.(quotes := quotes))
    requires forall i :: i in w.cells && i != id ==> CellOk(i, w.cells[i], ledger, quotes)
    requires forall i :: |w.ledger.journal| <= i < |ledger.journal| ==> ledger.journal[i].body.reference == id
    ensures Inv(WithCell(w, id, c).(ledger := ledger, quotes := quotes))
  {
    hide LedgerInvariant.Inv, CellOk;
    var w' := WithCell(w, id, c).(ledger := ledger, quotes := quotes);
    forall i, j | i in w'.cells && j in w'.cells && SameKey(w'.cells[i], w'.cells[j]) ensures i == j {
      assert SameKey(w.cells[i], w.cells[j]);
    }
    forall k | 0 <= k < |ledger.journal| && ledger.journal[k].body.kind == Ledger.FxTransfer
      ensures ledger.journal[k].body.reference in w'.cells
    {
      if k < |w.ledger.journal| { assert ledger.journal[..|w.ledger.journal|][k] == w.ledger.journal[k]; }
    }
  }

  lemma FxRunKeeps(w: World, id: nat, f: nat, late: nat)
    requires Inv(w)
    ensures Inv(Next(w, FxRun(id, f, late)))
  {
    hide LedgerInvariant.Inv, CellOk, Ledger.PostAfterLookup, Ledger.Next, ActStep, KeysUnique, QuotesUnique;
    if id in w.cells && f in w.cells[id].fxCalls && w.cells[id].fxCalls[f].state.FxSent? {
      var c := w.cells[id];
      var claim := c.fxCalls[f].claim;
      OwnClaim(id, c, f, w.ledger, w.quotes);
      var clock := ClockOf(c.fxCalls[f], late, w.now);
      var (quotes, answer) := Fx.Consume(w.quotes, claim, clock);
      Fx.ConsumeKeeps(w.quotes, claim, clock);
      CellFrame(id, c, w.ledger, w.ledger, w.quotes, quotes);
      FrameOthers(w, w.ledger, quotes, id);
      PutFxAnswer(id, c, f, FxAnswer(answer), w.ledger, quotes);
      var c' := c.(fxCalls := c.fxCalls[f := c.fxCalls[f].(state := FxAnswer(answer))]);
      assert ConsumersOk(w.(quotes := quotes));
      SwapLedger(w, id, c', w.ledger, quotes);
    }
  }

  lemma QuotesMoveKeeps(w: World, quotes: Fx.Quotes)
    requires Inv(w) && Fx.QuotesEvolve(w.quotes, quotes) && Fx.QuotesOk(quotes) && ConsumedPast(quotes, w.now)
    requires ConsumersOk(w.(quotes := quotes))
    ensures Inv(w.(quotes := quotes))
  {
    forall i | i in w.cells ensures CellOk(i, w.cells[i], w.ledger, quotes) {
      CellFrame(i, w.cells[i], w.ledger, w.ledger, w.quotes, quotes);
    }
  }

  lemma OutsideKeeps(w: World, e: Ledger.Event)
    requires Inv(w)
    ensures Inv(Next(w, Outside(e)))
  {
    hide LedgerInvariant.Inv, CellOk, Ledger.PostAfterLookup, Ledger.Next, ActStep, KeysUnique, QuotesUnique;
    if OutsideAllowed(w, e) {
      var ledger := Ledger.Next(w.ledger, e);
      LedgerInvariant.NextKeepsInv(w.ledger, e);
      NextGrows(w.ledger, e);
      QuotesEvolveReflexive(w.quotes);
      forall i | i in w.cells ensures CellOk(i, w.cells[i], ledger, w.quotes) {
        CellFrame(i, w.cells[i], w.ledger, ledger, w.quotes, w.quotes);
      }
      forall k | 0 <= k < |ledger.journal| && ledger.journal[k].body.kind == Ledger.FxTransfer
        ensures ledger.journal[k].body.reference in w.cells
      {
        if k < |w.ledger.journal| { assert ledger.journal[..|w.ledger.journal|][k] == w.ledger.journal[k]; }
      }
    }
  }

  lemma DropKeeps(w: World, id: nat, c: Cell)
    requires Inv(w) && id in w.cells && c.rows == w.cells[id].rows
    requires c.acts.Keys <= w.cells[id].acts.Keys && (forall a :: a in c.acts ==> c.acts[a] == w.cells[id].acts[a])
    requires c.posts.Keys <= w.cells[id].posts.Keys && (forall p :: p in c.posts ==> c.posts[p] == w.cells[id].posts[p])
    requires c.fxCalls.Keys <= w.cells[id].fxCalls.Keys && (forall f :: f in c.fxCalls ==> c.fxCalls[f] == w.cells[id].fxCalls[f])
    ensures Inv(WithCell(w, id, c))
  {
    PutCell(w, id, c);
  }

  lemma IntakeEventsKeep(w: World, e: Event)
    requires Inv(w) && (e.Arrive? || e.FindKey? || e.InsertLost? || e.DropIntake?)
    ensures Inv(Next(w, e))
  {
    match e
    case FindKey(a, found) =>
      if a in w.intake && found.Some? && found.value in w.cells { JoinKeeps(w, a, found.value); }
    case InsertLost(a, id) => if a in w.intake && id in w.cells { JoinKeeps(w, a, id); }
    case _ =>
  }

  lemma CrashKeeps(w: World, id: nat, a: nat)
    requires Inv(w)
    ensures Inv(Next(w, Crash(id, a)))
  {
    hide LedgerInvariant.Inv, CellOk, Ledger.PostAfterLookup, Ledger.Next, ActStep, KeysUnique, QuotesUnique, ConsumersOk;
    if id in w.cells { DropKeeps(w, id, w.cells[id].(acts := w.cells[id].acts - {a})); }
  }

  lemma ReconcileKeeps(w: World, id: nat, a: nat, force: bool)
    requires Inv(w)
    ensures Inv(Next(w, Reconcile(id, a, force)))
  {
    hide LedgerInvariant.Inv, CellOk, Ledger.PostAfterLookup, Ledger.Next, ActStep, KeysUnique, QuotesUnique, ConsumersOk;
    if id in w.cells && a !in w.cells[id].acts {
      PutAct(id, w.cells[id], a, Reconciling(force), w.ledger, w.quotes);
      PutCell(w, id, w.cells[id].(acts := w.cells[id].acts[a := Reconciling(force)]));
    }
  }

  lemma LossesKeep(w: World, e: Event)
    requires Inv(w) && (e.LedgerAbort? || e.LosePost? || e.LoseFx?)
    ensures Inv(Next(w, e))
  {
    hide LedgerInvariant.Inv, CellOk, Ledger.PostAfterLookup, Ledger.Next, ActStep, KeysUnique, QuotesUnique, ConsumersOk;
    match e
    case LedgerAbort(id, p) => if PostIn(w, id, p, LookedUp) { PutPost(w, id, p, Refused(Ledger.DatabaseError)); }
    case LosePost(id, p) =>
      if PostIn(w, id, p, Sent) || PostIn(w, id, p, LookedUp) {
        DropKeeps(w, id, w.cells[id].(posts := w.cells[id].posts - {p}));
      }
    case LoseFx(id, f) =>
      if id in w.cells && f in w.cells[id].fxCalls && w.cells[id].fxCalls[f].state.FxSent? {
        DropKeeps(w, id, w.cells[id].(fxCalls := w.cells[id].fxCalls - {f}));
      }
  }

  lemma NewQuoteKeeps(w: World, q: nat, quote: Fx.Quote)
    requires Inv(w)
    ensures Inv(Next(w, NewQuote(q, quote)))
  {
    hide LedgerInvariant.Inv, CellOk, Fx.QuotesOk, Fx.QuotesEvolve, Fx.QuoteCheck;
    var quotes := Fx.CreateQuote(w.quotes, q, quote);
    if Next(w, NewQuote(q, quote)) != w {
      Fx.CreateKeeps(w.quotes, q, quote);
      QuotesMoveKeeps(w, quotes);
    }
  }

  lemma ReadQuoteKeeps(w: World, q: nat, client: nat)
    requires Inv(w)
    ensures Inv(Next(w, ReadQuote(q, client)))
  {
    hide LedgerInvariant.Inv, CellOk, CellsOk, KeysUnique, QuotesUnique, Fx.QuotesOk, Fx.QuotesEvolve, Fx.QuoteCheck;
    var got := Fx.GetQuote(w.quotes, client, q, w.now);
    if got.Ok? {
      Fx.GetKeeps(w.quotes, client, q, w.now);
      QuotesMoveKeeps(w, got.value);
    }
  }

  lemma IntakeKept(w: World, e: Event)
    requires |w.ledger.balances| == |w.ledger.accounts| && IntakeOk(w)
    ensures IntakeOk(Next(w, e))
  {
  }

  /** Every event, in any state that satisfies the invariant, leads to one that does. */
  lemma NextKeepsInv(w: World, e: Event)
    requires Inv(w) && IntakeOk(w)
    ensures Inv(Next(w, e)) && IntakeOk(Next(w, e))
  {
    IntakeKept(w, e);
    match e
    case Insert(a, id) => if a in w.intake && Insertable(w, w.intake[a], id) { InsertKeeps(w, a, id); }
    case Step(id, a, choice) => StepKeeps(w, id, a, choice);
    case LedgerLookup(id, p) => LookupKeeps(w, id, p);
    case LedgerRun(id, p) => LedgerRunKeeps(w, id, p);
    case FxRun(id, f, late) => FxRunKeeps(w, id, f, late);
    case Outside(le) => OutsideKeeps(w, le);
    case Arrive(_, _, _, _) => IntakeEventsKeep(w, e);
    case FindKey(_, _) => IntakeEventsKeep(w, e);
    case InsertLost(_, _) => IntakeEventsKeep(w, e);
    case DropIntake(_) => IntakeEventsKeep(w, e);
    case Tick(_) =>
    case NewQuote(q, quote) => NewQuoteKeeps(w, q, quote);
    case ReadQuote(q, client) => ReadQuoteKeeps(w, q, client);
    case Crash(id, a) => CrashKeeps(w, id, a);
    case Reconcile(id, a, force) => ReconcileKeeps(w, id, a, force);
    case _ => LossesKeep(w, e);
  }

  // ----- runs -----

  lemma NextSizes(w: World, e: Event)
    requires |w.ledger.balances| == |w.ledger.accounts|
    ensures |Next(w, e).ledger.balances| == |Next(w, e).ledger.accounts|
  {
    match e
    case LedgerRun(id, p) =>
      if PostIn(w, id, p, LookedUp) { LedgerInvariant.WithClearingSizes(w.ledger, w.cells[id].posts[p].command); }
    case Outside(le) => LedgerInvariant.NextSizes(w.ledger, le);
    case _ =>
  }

  ghost function Run(events: seq<Event>): (w: World)
    ensures |w.ledger.balances| == |w.ledger.accounts|
  {
    if events == [] then START else
      var w := Run(events[..|events| - 1]);
      NextSizes(w, events[|events| - 1]);
      Next(w, events[|events| - 1])
  }

  /** The invariant holds in every state that any interleaving of any events can reach. */
  lemma {:induction false} ReachableInv(events: seq<Event>)
    ensures Inv(Run(events)) && IntakeOk(Run(events))
  {
    if events == [] {
      LedgerInvariant.ReachableInv([]);
    } else {
      ReachableInv(events[..|events| - 1]);
      NextKeepsInv(Run(events[..|events| - 1]), events[|events| - 1]);
    }
  }

  lemma {:induction false} RunStep(events: seq<Event>, e: Event)
    ensures Run(events + [e]) == Next(Run(events), e)
  {
    assert (events + [e])[..|events|] == events;
  }

  /** Events applied in order from a given state. */
  ghost function Replay(w: World, events: seq<Event>): (w': World)
    requires |w.ledger.balances| == |w.ledger.accounts|
    ensures |w'.ledger.balances| == |w'.ledger.accounts|
    decreases |events|
  {
    if events == [] then w else
      NextSizes(w, events[0]);
      Replay(Next(w, events[0]), events[1..])
  }

  lemma {:induction false} ReplayIsRun(before: seq<Event>, events: seq<Event>)
    ensures Run(before + events) == Replay(Run(before), events)
    decreases |events|
  {
    if events == [] {
      assert before + events == before;
    } else {
      RunStep(before, events[0]);
      ReplayIsRun(before + [events[0]], events[1..]);
      assert before + [events[0]] + events[1..] == before + events;
    }
  }

  lemma {:induction false} ReplayCons(w: World, e: Event, rest: seq<Event>)
    requires |w.ledger.balances| == |w.ledger.accounts|
    ensures |Next(w, e).ledger.balances| == |Next(w, e).ledger.accounts|
    ensures Replay(w, [e] + rest) == Replay(Next(w, e), rest)
  {
    NextSizes(w, e);
    assert ([e] + rest)[1..] == rest;
  }
}
