/** The invariant that every event of the transfer machine keeps. */
module WorldInvariant {
  import opened Common
  import opened Transfers
  import opened World
  import opened LedgerGrowth
  import Ledger
  import Fx

  // ----- the posting of a transfer -----

  predicate EntryFor(accounts: seq<Ledger.Account>, e: Ledger.Entry, wallet: nat, side: Ledger.Side, amount: int, c: Currency) {
    && e.account < |accounts| && accounts[e.account].wallet == Some(wallet)
    && e.side == side && e.amount == amount && e.currency == c
  }

  /** The posting moves exactly this transfer's amounts between exactly its wallets. */
  predicate PostedFor(accounts: seq<Ledger.Account>, p: Ledger.Posting, id: nat, t: Transfer) {
    && t.targetAmount.Some? && p.hash == Ledger.CommandHash(PostingCommand(id, t))
    && p.body.reference == id
    && p.body.kind == (if t.kind == International then Ledger.FxTransfer else Ledger.TransferPosting)
    && p.body.sourceCurrency == t.sourceCurrency && p.body.targetCurrency == t.targetCurrency
    && p.body.sourceAmount == t.sourceAmount && p.body.targetAmount == t.targetAmount.value
    && (t.kind == International ==> p.body.quote == t.quote && p.body.rate == t.rate)
    && |p.body.entries| == (if t.kind == International then 4 else 2)
    && EntryFor(accounts, p.body.entries[0], t.sender, Ledger.Debit, t.sourceAmount, t.sourceCurrency)
    && EntryFor(accounts, p.body.entries[1], t.recipient, Ledger.Credit, t.targetAmount.value, t.targetCurrency)
  }

  lemma AddedIsPostedFor(l: Ledger.Ledger, l': Ledger.Ledger, id: nat, t: Transfer, answer: Result<nat, Ledger.Failure>)
    requires t.targetAmount.Some? && Added(l, l', PostingCommand(id, t), answer)
    ensures PostedFor(l'.accounts, l'.journal[|l.journal|], id, t)
  {
    var c := PostingCommand(id, t);
    var es := Ledger.CustomerEntries(l'.accounts, c);
    assert l'.journal[|l.journal|].body == Ledger.Resolve(l'.accounts, c);
    assert es[0].account < |l'.accounts| && es[1].account < |l'.accounts|;
  }

  // ----- one cell -----

  /** A row read earlier: same command, its quote terms still stand, and it is the row unless the version has grown. */
  predicate SnapOk(snap: Transfer, t: Transfer) {
    && SameCommand(snap, t) && (snap == t || snap.version < t.version)
    && (snap.targetAmount.Some? ==> snap.targetAmount == t.targetAmount && snap.rate == t.rate)
    && (snap.kind == International <==> snap.quote.Some?)
    && (Open(snap.status) ==> snap.posting.None? && snap.completedAt.None?)
  }

  predicate WorkingSnap(snap: Transfer, t: Transfer) {
    && SnapOk(snap, t) && snap.status == Processing && snap.targetAmount.Some? && t.status != Pending
  }

  /** The quote is consumed by this transfer and these are its terms. */
  predicate Bound(quotes: Fx.Quotes, t: Transfer, id: nat, terms: Fx.Terms) {
    && t.quote.Some? && t.quote.value in quotes
    && quotes[t.quote.value].status == Fx.QuoteConsumed && quotes[t.quote.value].consumedBy == Some(id)
    && Fx.TermsOf(quotes[t.quote.value]) == terms
  }

  predicate NamesPosting(journal: seq<Ledger.Posting>, p: nat, id: nat) {
    p < |journal| && journal[p].body.reference == id
  }

  /** What a body says of a transfer besides its progress is what the row says. */
  predicate BodyOf(b: Response, t: Transfer) {
    && b.sourceAmount == t.sourceAmount && b.sourceCurrency == t.sourceCurrency && b.targetCurrency == t.targetCurrency
    && b.quote == t.quote && (b.targetAmount.Some? ==> b.targetAmount == t.targetAmount && b.rate == t.rate)
  }

  /**
   * A reply is about this transfer.  One that reports it open says 202, where to ask again and no outcome; one that
   * reports it COMPLETED says 201; a terminal one carries the stored body, a failure under the stored status or 422.
   */
  predicate ReplyOk(id: nat, rows: Rows, reply: Reply) {
    && reply.body.transfer == id && BodyOf(reply.body, rows.transfer)
    && reply.body.statusUrl == Open(reply.body.status) && reply.body.status != Reversed
    && (Open(reply.body.status) ==>
          reply.http == 202 && reply.body.posting.None? && reply.body.completedAt.None? && reply.body.failure.None?)
    && (reply.body.status == Completed ==> reply.http == 201 && reply.body.failure.None?)
    && (reply.body.status == Failed ==> (reply.http == 422 || rows.record.stored == Some(reply)) && reply.body.posting.None?)
    && (!Open(reply.body.status) ==> rows.record.stored.Some? && reply.body == rows.record.stored.value.body)
  }

  predicate ActOk(id: nat, rows: Rows, a: Activation, journal: seq<Ledger.Posting>, quotes: Fx.Quotes) {
    var t := rows.transfer;
    match a
    case Handling(_, record) =>
      && record.client == rows.record.client && record.key == rows.record.key && record.request == rows.record.request
      && record.replayExpiresAt == rows.record.replayExpiresAt && RecordCheck(record)
      && (record.state != RecordProcessing ==> record == rows.record)
    case Transitioning => t.kind == Domestic
    case Reading => t.status != Pending
    case AskingAccount(snap) => WorkingSnap(snap, t)
    case AwaitingLedger(snap, _) => WorkingSnap(snap, t)
    case Completing(p) => NamesPosting(journal, p, id)
    case Failing(http, reason) => t.status != Pending && Cause(http, reason)
    case AskingReference(snap, _) => WorkingSnap(snap, t)
    case Retrying(snap, _) => WorkingSnap(snap, t)
    case FxReady(snap) => SnapOk(snap, t) && (Open(snap.status) || ToResponse(id, snap) == ToResponse(id, t))
    case FxFailing(http, reason) => t.kind == International && Cause(http, reason)
    case AwaitingFx(snap, _) => SnapOk(snap, t) && Open(snap.status) && t.kind == International
    case Preparing(snap, terms) => SnapOk(snap, t) && t.kind == International && Bound(quotes, t, id, terms)
    case Replied(reply) => ReplyOk(id, rows, reply)
    case _ => true
  }

  predicate PostOk(id: nat, t: Transfer, p: Post, journal: seq<Ledger.Posting>) {
    && t.targetAmount.Some? && t.status != Pending && p.command == PostingCommand(id, t)
    && (p.state.Accepted? ==> NamesPosting(journal, p.state.posting, id))
  }

  predicate FxOk(id: nat, t: Transfer, f: FxCall, quotes: Fx.Quotes) {
    && t.kind == International && t.quote.Some? && f.claim == QuoteClaim(id, t)
    && (f.state.FxAnswered? ==> Bound(quotes, t, id, f.state.terms))
  }

  predicate PostingsMatch(id: nat, t: Transfer, l: Ledger.Ledger) {
    forall k :: 0 <= k < |l.journal| && l.journal[k].body.reference == id ==> PostedFor(l.accounts, l.journal[k], id, t)
  }

  predicate TermsHeld(id: nat, t: Transfer, quotes: Fx.Quotes) {
    t.kind == International && t.targetAmount.Some? ==>
      t.rate.Some? && Bound(quotes, t, id, Fx.Terms(t.targetAmount.value, t.rate.value))
  }

  predicate ActsOk(id: nat, c: Cell, journal: seq<Ledger.Posting>, quotes: Fx.Quotes) {
    forall a :: a in c.acts ==> ActOk(id, c.rows, c.acts[a], journal, quotes)
  }

  predicate PostsOk(id: nat, c: Cell, journal: seq<Ledger.Posting>) {
    forall p :: p in c.posts ==> PostOk(id, c.rows.transfer, c.posts[p], journal)
  }

  predicate FxCallsOk(id: nat, c: Cell, quotes: Fx.Quotes) {
    forall f :: f in c.fxCalls ==> FxOk(id, c.rows.transfer, c.fxCalls[f], quotes)
  }

  predicate CompletionOk(id: nat, t: Transfer, journal: seq<Ledger.Posting>) {
    t.status == Completed ==> t.posting.Some? && NamesPosting(journal, t.posting.value, id)
  }

  predicate CellOk(id: nat, c: Cell, l: Ledger.Ledger, quotes: Fx.Quotes) {
    && RowsOk(id, c.rows) && ActsOk(id, c, l.journal, quotes) && PostsOk(id, c, l.journal) && FxCallsOk(id, c, quotes)
    && PostingsMatch(id, c.rows.transfer, l) && TermsHeld(id, c.rows.transfer, quotes)
    && CompletionOk(id, c.rows.transfer, l.journal) && FailureOk(c.rows)
  }

  // ----- cells under change -----

  lemma PutAct(id: nat, c: Cell, a: nat, act: Activation, l: Ledger.Ledger, quotes: Fx.Quotes)
    requires CellOk(id, c, l, quotes) && ActOk(id, c.rows, act, l.journal, quotes)
    ensures CellOk(id, c.(acts := c.acts[a := act]), l, quotes)
  {
  }

  /** Rows that evolve as the guards allow leave every other activation's knowledge valid. */
  lemma {:induction false} ActStable(id: nat, rows: Rows, rows': Rows, a: Activation, journal: seq<Ledger.Posting>, quotes: Fx.Quotes)
    requires ActOk(id, rows, a, journal, quotes) && RowsOk(id, rows) && RowsOk(id, rows') && RowsEvolve(rows, rows')
    ensures ActOk(id, rows', a, journal, quotes)
  {
    if !Open(rows.transfer.status) { assert rows' == rows; }
  }

  lemma PutRows(id: nat, c: Cell, rows: Rows, l: Ledger.Ledger, quotes: Fx.Quotes)
    requires CellOk(id, c, l, quotes) && RowsOk(id, rows) && RowsEvolve(c.rows, rows)
    requires TermsHeld(id, rows.transfer, quotes) && CompletionOk(id, rows.transfer, l.journal) && FailureOk(rows)
    requires c.rows.transfer.status != Pending ==> rows.transfer.status != Pending
    ensures CellOk(id, c.(rows := rows), l, quotes)
  {
    forall a | a in c.acts ensures ActOk(id, rows, c.acts[a], l.journal, quotes) {
      ActStable(id, c.rows, rows, c.acts[a], l.journal, quotes);
    }
    forall k | 0 <= k < |l.journal| && l.journal[k].body.reference == id
      ensures PostedFor(l.accounts, l.journal[k], id, rows.transfer)
    {
      assert PostedFor(l.accounts, l.journal[k], id, c.rows.transfer);
    }
  }

  /** The ledger and the quotes move on without touching this transfer. */
  lemma CellFrame(id: nat, c: Cell, l: Ledger.Ledger, l': Ledger.Ledger, quotes: Fx.Quotes, quotes': Fx.Quotes)
    requires CellOk(id, c, l, quotes) && Grows(l, l') && Fx.QuotesEvolve(quotes, quotes')
    requires forall i :: |l.journal| <= i < |l'.journal| ==> l'.journal[i].body.reference != id
    ensures CellOk(id, c, l', quotes')
  {
    forall i | 0 <= i < |l.journal| ensures l'.journal[i] == l.journal[i] {
      assert l'.journal[..|l.journal|][i] == l.journal[i];
    }
    FrameActs(id, c, l.journal, l'.journal, quotes, quotes');
    FramePosts(id, c, l, l', quotes, quotes');
  }

  lemma {:induction false} FrameActs(id: nat, c: Cell, j: seq<Ledger.Posting>, j': seq<Ledger.Posting>, quotes: Fx.Quotes, quotes': Fx.Quotes)
    requires ActsOk(id, c, j, quotes) && Fx.QuotesEvolve(quotes, quotes')
    requires |j| <= |j'| && forall i :: 0 <= i < |j| ==> j'[i] == j[i]
    ensures ActsOk(id, c, j', quotes')
  {
    forall a | a in c.acts ensures ActOk(id, c.rows, c.acts[a], j', quotes') {
      assert ActOk(id, c.rows, c.acts[a], j, quotes);
    }
  }

  lemma FramePosts(id: nat, c: Cell, l: Ledger.Ledger, l': Ledger.Ledger, quotes: Fx.Quotes, quotes': Fx.Quotes)
    requires CellOk(id, c, l, quotes) && Grows(l, l') && Fx.QuotesEvolve(quotes, quotes')
    requires forall i :: 0 <= i < |l.journal| ==> l'.journal[i] == l.journal[i]
    requires forall i :: |l.journal| <= i < |l'.journal| ==> l'.journal[i].body.reference != id
    ensures PostsOk(id, c, l'.journal) && FxCallsOk(id, c, quotes')
    ensures PostingsMatch(id, c.rows.transfer, l') && TermsHeld(id, c.rows.transfer, quotes')
    ensures CompletionOk(id, c.rows.transfer, l'.journal)
  {
    forall f | f in c.fxCalls ensures FxOk(id, c.rows.transfer, c.fxCalls[f], quotes') {
      assert FxOk(id, c.rows.transfer, c.fxCalls[f], quotes);
    }
    forall p | p in c.posts ensures PostOk(id, c.rows.transfer, c.posts[p], l'.journal) {
      assert PostOk(id, c.rows.transfer, c.posts[p], l.journal);
    }
    forall k | 0 <= k < |l'.journal| && l'.journal[k].body.reference == id
      ensures PostedFor(l'.accounts, l'.journal[k], id, c.rows.transfer)
    {
      assert PostedFor(l.accounts, l.journal[k], id, c.rows.transfer);
    }
  }

  // ----- calls in flight -----

  lemma OwnCommand(id: nat, c: Cell, p: nat, l: Ledger.Ledger, quotes: Fx.Quotes)
    requires CellOk(id, c, l, quotes) && p in c.posts
    ensures c.posts[p].command.reference == id && Ledger.FxShape(c.posts[p].command)
  {
    assert PostOk(id, c.rows.transfer, c.posts[p], l.journal);
  }

  lemma OwnClaim(id: nat, c: Cell, f: nat, l: Ledger.Ledger, quotes: Fx.Quotes)
    requires CellOk(id, c, l, quotes) && f in c.fxCalls
    ensures c.rows.transfer.quote.Some? && c.rows.transfer.kind == International
    ensures c.fxCalls[f].claim == QuoteClaim(id, c.rows.transfer)
  {
    assert FxOk(id, c.rows.transfer, c.fxCalls[f], quotes);
  }

  lemma PutFxAnswer(id: nat, c: Cell, f: nat, state: FxState, l: Ledger.Ledger, quotes: Fx.Quotes)
    requires CellOk(id, c, l, quotes) && f in c.fxCalls
    requires state.FxAnswered? ==> Bound(quotes, c.rows.transfer, id, state.terms)
    ensures CellOk(id, c.(fxCalls := c.fxCalls[f := c.fxCalls[f].(state := state)]), l, quotes)
  {
    assert FxOk(id, c.rows.transfer, c.fxCalls[f], quotes);
  }

  // ----- one activation step -----

  lemma FailKeeps(id: nat, c: Cell, act: nat, http: nat, reason: Reason, l: Ledger.Ledger, quotes: Fx.Quotes, now: int)
    requires CellOk(id, c, l, quotes) && act in c.acts && Cause(http, reason)
    ensures CellOk(id, FailStep(id, c, act, http, reason, now), l, quotes)
  {
    hide ActsOk, PostsOk, FxCallsOk, PostingsMatch, RowsEvolve, ToResponse, ResultFor;
    var rows := Fail(id, c.rows, http, reason, now);
    var reply := FailStep(id, c, act, http, reason, now).acts[act].reply;
    FailIsOk(id, c.rows, http, reason, now);
    FailReplies(id, c.rows, http, reason, now, reply);
    PutRows(id, c, rows, l, quotes);
    PutAct(id, c.(rows := rows), act, Replied(reply), l, quotes);
  }

  lemma FailReplies(id: nat, r: Rows, http: nat, reason: Reason, now: int, reply: Reply)
    requires RowsOk(id, r)
    requires var rows := Fail(id, r, http, reason, now);
      reply == if Open(r.transfer.status) then Reply(http, ToResponse(id, rows.transfer)) else ResultFor(id, rows.transfer)
    ensures ReplyOk(id, Fail(id, r, http, reason, now), reply)
  {
    FailIsOk(id, r, http, reason, now);
  }

  lemma CompleteKeeps(id: nat, c: Cell, act: nat, p: nat, l: Ledger.Ledger, quotes: Fx.Quotes, now: int)
    requires CellOk(id, c, l, quotes) && act in c.acts && c.acts[act] == Completing(p)
    ensures CellOk(id, ActStep(id, c, act, Answered, l.journal, now), l, quotes)
  {
    assert ActOk(id, c.rows, c.acts[act], l.journal, quotes);
    var rows := Complete(id, c.rows, p, now);
    CompleteIsOk(id, c.rows, p, now);
    PutRows(id, c, rows, l, quotes);
    PutAct(id, c.(rows := rows), act, Replied(ResultFor(id, rows.transfer)), l, quotes);
  }

  lemma PrepareKeeps(id: nat, c: Cell, act: nat, l: Ledger.Ledger, quotes: Fx.Quotes, now: int)
    requires CellOk(id, c, l, quotes) && Fx.QuotesOk(quotes) && act in c.acts && c.acts[act].Preparing?
    ensures CellOk(id, ActStep(id, c, act, Answered, l.journal, now), l, quotes)
  {
    assert ActOk(id, c.rows, c.acts[act], l.journal, quotes);
    var snap, terms := c.acts[act].snap, c.acts[act].terms;
    var rows := Prepare(c.rows, snap, terms, now);
    assert Fx.QuoteOk(quotes[snap.quote.value]);
    PrepareIsOk(id, c.rows, snap, terms, now);
    PutRows(id, c, rows, l, quotes);
    PutAct(id, c.(rows := rows), act, if Preparable(c.rows.transfer) then Reading else Rereading, l, quotes);
  }

  lemma TransitionKeeps(id: nat, c: Cell, act: nat, l: Ledger.Ledger, quotes: Fx.Quotes, now: int)
    requires CellOk(id, c, l, quotes) && act in c.acts && c.acts[act].Transitioning?
    ensures CellOk(id, ActStep(id, c, act, Answered, l.journal, now), l, quotes)
  {
    assert ActOk(id, c.rows, c.acts[act], l.journal, quotes);
    var rows := Transition(c.rows, now);
    TransitionIsOk(id, c.rows, now);
    PutRows(id, c, rows, l, quotes);
    PutAct(id, c.(rows := rows), act, Reading, l, quotes);
  }

  lemma RetryKeeps(id: nat, c: Cell, act: nat, l: Ledger.Ledger, quotes: Fx.Quotes, now: int)
    requires CellOk(id, c, l, quotes) && act in c.acts && c.acts[act].Retrying?
    ensures CellOk(id, ActStep(id, c, act, Answered, l.journal, now), l, quotes)
  {
    assert ActOk(id, c.rows, c.acts[act], l.journal, quotes);
    var snap, stale := c.acts[act].snap, c.acts[act].staleBefore;
    var rows := ClaimRetry(c.rows, snap, stale, now);
    ClaimRetryIsOk(id, c.rows, snap, stale, now);
    PutRows(id, c, rows, l, quotes);
    PutAct(id, c.(rows := rows), act, if Retryable(c.rows.transfer, snap, stale) then Reading else Rereading, l, quotes);
  }

  lemma SendKeeps(id: nat, c: Cell, act: nat, answer: AccountAnswer, msg: nat, l: Ledger.Ledger, quotes: Fx.Quotes)
    requires CellOk(id, c, l, quotes) && act in c.acts && c.acts[act].AskingAccount?
    ensures CellOk(id, AfterAccount(id, c, act, c.acts[act].snap, answer, msg), l, quotes)
  {
    assert ActOk(id, c.rows, c.acts[act], l.journal, quotes);
    var snap := c.acts[act].snap;
    if answer.Wallets? && ValidateWallets(snap, answer.sender, answer.recipient).None? {
      PutAct(id, c, act, AwaitingLedger(snap, msg), l, quotes);
    } else {
      var c' := AfterAccount(id, c, act, snap, answer, msg);
      PutAct(id, c, act, c'.acts[act], l, quotes);
    }
  }

  lemma {:induction false} LedgerAnswerOk(id: nat, c: Cell, a: Activation, choice: Choice, l: Ledger.Ledger, quotes: Fx.Quotes, now: int)
    requires CellOk(id, c, l, quotes) && ActOk(id, c.rows, a, l.journal, quotes) && a.AwaitingLedger?
    ensures ActOk(id, c.rows, LocalStep(id, c, a, choice, l.journal, now), l.journal, quotes)
  {
    hide ActsOk, PostingsMatch, TermsHeld, CompletionOk, FailureOk, PostingCommand, QuoteClaim;
    if a.post in c.posts { assert PostOk(id, c.rows.transfer, c.posts[a.post], l.journal); }
  }

  lemma {:induction false} FxAnswerOk(id: nat, c: Cell, a: Activation, choice: Choice, l: Ledger.Ledger, quotes: Fx.Quotes, now: int)
    requires CellOk(id, c, l, quotes) && ActOk(id, c.rows, a, l.journal, quotes) && a.AwaitingFx?
    ensures ActOk(id, c.rows, LocalStep(id, c, a, choice, l.journal, now), l.journal, quotes)
  {
    hide ActsOk, PostingsMatch, TermsHeld, CompletionOk, FailureOk, PostingCommand, QuoteClaim;
    if a.call in c.fxCalls { assert FxOk(id, c.rows.transfer, c.fxCalls[a.call], quotes); }
  }

  lemma {:induction false} ReconcileOk(id: nat, c: Cell, a: Activation, choice: Choice, l: Ledger.Ledger, quotes: Fx.Quotes, now: int)
    requires CellOk(id, c, l, quotes) && ActOk(id, c.rows, a, l.journal, quotes) && (a.Reconciling? || a.AskingReference? || a.PreparingRead?)
    ensures ActOk(id, c.rows, LocalStep(id, c, a, choice, l.journal, now), l.journal, quotes)
  {
    hide ActsOk, PostingsMatch, TermsHeld, CompletionOk, FailureOk, PostingCommand, QuoteClaim;
  }

  lemma {:induction false} ReadingOk(id: nat, c: Cell, a: Activation, choice: Choice, l: Ledger.Ledger, quotes: Fx.Quotes, now: int)
    requires CellOk(id, c, l, quotes) && ActOk(id, c.rows, a, l.journal, quotes) && (a.Handling? || a.Reading? || a.Rereading?)
    ensures ActOk(id, c.rows, LocalStep(id, c, a, choice, l.journal, now), l.journal, quotes)
  {
    hide ActsOk, PostingsMatch, TermsHeld, CompletionOk, FailureOk, PostingCommand, QuoteClaim;
  }

  lemma {:induction false} LocalActOk(id: nat, c: Cell, a: Activation, choice: Choice, l: Ledger.Ledger, quotes: Fx.Quotes, now: int)
    requires CellOk(id, c, l, quotes) && ActOk(id, c.rows, a, l.journal, quotes) && IsLocal(a)
    ensures ActOk(id, c.rows, LocalStep(id, c, a, choice, l.journal, now), l.journal, quotes)
  {
    hide CellOk, ActOk;
    if a.AwaitingLedger? { LedgerAnswerOk(id, c, a, choice, l, quotes, now); }
    else if a.AwaitingFx? { FxAnswerOk(id, c, a, choice, l, quotes, now); }
    else if a.Reconciling? || a.AskingReference? || a.PreparingRead? { ReconcileOk(id, c, a, choice, l, quotes, now); }
    else if !a.Replied? && !a.Rejected? { ReadingOk(id, c, a, choice, l, quotes, now); }
  }

  lemma LocalKeeps(id: nat, c: Cell, act: nat, choice: Choice, l: Ledger.Ledger, quotes: Fx.Quotes, now: int)
    requires CellOk(id, c, l, quotes) && act in c.acts && IsLocal(c.acts[act])
    ensures CellOk(id, ActStep(id, c, act, choice, l.journal, now), l, quotes)
  {
    LocalActOk(id, c, c.acts[act], choice, l, quotes, now);
    PutAct(id, c, act, LocalStep(id, c, c.acts[act], choice, l.journal, now), l, quotes);
  }

  lemma ConsumeSendKeeps(id: nat, c: Cell, act: nat, choice: Choice, l: Ledger.Ledger, quotes: Fx.Quotes, now: int)
    requires CellOk(id, c, l, quotes) && act in c.acts && c.acts[act].FxReady?
    ensures CellOk(id, ActStep(id, c, act, choice, l.journal, now), l, quotes)
  {
    assert ActOk(id, c.rows, c.acts[act], l.journal, quotes);
    var snap := c.acts[act].snap;
    if snap.status != Pending || snap.kind != International || snap.quote.None? {
      PutAct(id, c, act, Replied(ResultFor(id, snap)), l, quotes);
    } else if choice.Proceed? {
      PutAct(id, c, act, AwaitingFx(snap, choice.msg), l, quotes);
    }
  }

  lemma ActKeeps(id: nat, c: Cell, act: nat, choice: Choice, l: Ledger.Ledger, quotes: Fx.Quotes, now: int)
    requires CellOk(id, c, l, quotes) && Fx.QuotesOk(quotes) && act in c.acts
    ensures CellOk(id, ActStep(id, c, act, choice, l.journal, now), l, quotes)
  {
    match c.acts[act]
    case Transitioning => TransitionKeeps(id, c, act, l, quotes, now);
    case AskingAccount(_) =>
      if choice.AccountSays? { SendKeeps(id, c, act, choice.answer, choice.msg, l, quotes); }
    case Completing(p) => CompleteKeeps(id, c, act, p, l, quotes, now);
    case Failing(http, reason) => FailKeeps(id, c, act, http, reason, l, quotes, now);
    case FxFailing(http, reason) => FailKeeps(id, c, act, http, reason, l, quotes, now);
    case Retrying(_, _) => RetryKeeps(id, c, act, l, quotes, now);
    case Preparing(_, _) => PrepareKeeps(id, c, act, l, quotes, now);
    case FxReady(_) => ConsumeSendKeeps(id, c, act, choice, l, quotes, now);
    case _ => LocalKeeps(id, c, act, choice, l, quotes, now);
  }
}
