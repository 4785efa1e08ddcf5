/**
 * When a FAILED transfer has no posting.  A run is disciplined when a retry is claimed, or a transfer failed for its
 * quote, only while no process() activation, no Ledger post and no posting of that transfer exists.  In a disciplined
 * run FAILED means that no posting exists or ever will.
 */
module Quiet {
  import opened Common
  import opened Transfers
  import opened World
  import opened WorldInvariant
  import opened WorldRuns
  import Ledger
  import Fx

  /** process() between its claim and its verdict. */
  predicate Active(a: Activation) { a.Reading? || a.AskingAccount? || a.AwaitingLedger? || a.Failing? }

  predicate Outstanding(p: Post) { p.state.Sent? || p.state.LookedUp? }

  predicate NoneActive(c: Cell) { forall a :: a in c.acts ==> !Active(c.acts[a]) }

  predicate NoneOutstanding(c: Cell) { forall p :: p in c.posts ==> !Outstanding(c.posts[p]) }

  predicate Posted(w: World, id: nat) { Ledger.FindReference(w.ledger.journal, id).Some? }

  /** Nothing of the transfer runs, is in flight or has been posted. */
  predicate Idle(c: Cell, posted: bool) { NoneActive(c) && NoneOutstanding(c) && !posted }

  /** The hypothesis: a retry is claimed, or an open transfer failed for its quote, only while the transfer is idle. */
  predicate QuietEvent(w: World, e: Event) {
    e.Step? && e.id in w.cells && e.act in w.cells[e.id].acts ==> QuietClaim(w.cells[e.id], e.act, Posted(w, e.id))
  }

  predicate QuietClaim(c: Cell, a: nat, posted: bool)
    requires a in c.acts
  {
    || (c.acts[a].Retrying? && Retryable(c.rows.transfer, c.acts[a].snap, c.acts[a].staleBefore))
    || (c.acts[a].FxFailing? && Open(c.rows.transfer.status))
    ==> Idle(c, posted)
  }

  ghost predicate Disciplined(events: seq<Event>) {
    forall n :: 0 <= n < |events| ==> QuietEvent(Run(events[..n]), events[n])
  }

  // ----- the invariant of one cell; `posted` says whether its posting exists -----

  predicate OneActive(c: Cell) {
    forall a, b :: a in c.acts && b in c.acts && Active(c.acts[a]) && Active(c.acts[b]) ==> a == b
  }

  predicate OneOutstanding(c: Cell) {
    forall p, q :: p in c.posts && q in c.posts && Outstanding(c.posts[p]) && Outstanding(c.posts[q]) ==> p == q
  }

  predicate ActiveOwnsPost(c: Cell) {
    forall a, p :: a in c.acts && p in c.posts && Active(c.acts[a]) && Outstanding(c.posts[p]) ==>
      c.acts[a].AwaitingLedger? && c.acts[a].post == p
  }

  /** Nothing that may still post or fail is left once the posting exists. */
  predicate PostedIsKnown(c: Cell, posted: bool) {
    posted ==>
      && NoneOutstanding(c)
      && (forall a :: a in c.acts && Active(c.acts[a]) ==>
            c.acts[a].AwaitingLedger? && c.acts[a].post in c.posts && c.posts[c.acts[a].post].state.Accepted?)
  }

  predicate ClosedIdle(c: Cell, posted: bool) {
    c.rows.transfer.status == Pending || c.rows.transfer.status == Failed ==> Idle(c, posted)
  }

  predicate TransitionFirst(c: Cell) {
    && (forall a :: a in c.acts && c.acts[a].Transitioning? ==> c.rows.transfer.status == Pending)
    && (forall a, b :: a in c.acts && b in c.acts && c.acts[a].Transitioning? && c.acts[b].Transitioning? ==> a == b)
  }

  predicate Calm(c: Cell, posted: bool) {
    && OneActive(c) && OneOutstanding(c) && ActiveOwnsPost(c) && PostedIsKnown(c, posted)
    && ClosedIdle(c, posted) && TransitionFirst(c)
  }

  predicate AllCalm(w: World) { forall id :: id in w.cells ==> Calm(w.cells[id], Posted(w, id)) }

  // ----- steps that only give something up -----

  /** `a` moves to an activation that owns nothing. */
  predicate Passive(a: Activation) { !Active(a) && !a.Transitioning? }

  lemma PutPassive(c: Cell, a: nat, act: Activation, posted: bool)
    requires Calm(c, posted) && Passive(act)
    ensures Calm(c.(acts := c.acts[a := act]), posted)
  {
  }

  lemma DropKeepsCalm(c: Cell, c': Cell, posted: bool)
    requires Calm(c, posted) && c'.rows == c.rows
    requires c'.acts.Keys <= c.acts.Keys && (forall a :: a in c'.acts ==> c'.acts[a] == c.acts[a])
    requires c'.fxCalls.Keys <= c.fxCalls.Keys && (forall f :: f in c'.fxCalls ==> c'.fxCalls[f] == c.fxCalls[f])
    requires c'.posts == c.posts
    ensures Calm(c', posted)
  {
  }

  /** An active activation moves on inside process() without sending anything. */
  lemma StayActive(c: Cell, a: nat, act: Activation, posted: bool)
    requires Calm(c, posted) && a in c.acts && Active(c.acts[a]) && !posted
    requires act.AskingAccount? || act.Failing?
    requires c.acts[a].AwaitingLedger? ==> c.acts[a].post !in c.posts || !Outstanding(c.posts[c.acts[a].post])
    ensures Calm(c.(acts := c.acts[a := act]), posted)
  {
    var c' := c.(acts := c.acts[a := act]);
    assert NoneOutstanding(c);
  }

  // ----- the activations that write rows -----

  /** Leaving PENDING by transition or preparation: `a` becomes the one active activation. */
  lemma BecomeActive(c: Cell, a: nat, rows: Rows, posted: bool)
    requires Calm(c, posted) && Idle(c, posted)
    requires rows.transfer.status == Processing
    requires SameCommand(c.rows.transfer, rows.transfer)
    requires forall b :: b in c.acts && b != a ==> !c.acts[b].Transitioning?
    ensures Calm(c.(rows := rows, acts := c.acts[a := Reading]), posted)
  {
  }

  lemma CompleteKeepsCalm(c: Cell, a: nat, rows: Rows, act: Activation, posted: bool)
    requires Calm(c, posted) && Passive(act) && SameCommand(c.rows.transfer, rows.transfer)
    requires rows == c.rows || (c.rows.transfer.status == Processing && rows.transfer.status == Completed)
    ensures Calm(c.(rows := rows, acts := c.acts[a := act]), posted)
  {
  }

  lemma FailKeepsCalm(c: Cell, a: nat, rows: Rows, act: Activation, posted: bool)
    requires Calm(c, posted) && Passive(act) && SameCommand(c.rows.transfer, rows.transfer) && a in c.acts
    requires rows == c.rows || (rows.transfer.status == Failed && Idle(c.(acts := c.acts[a := act]), posted))
    requires rows != c.rows ==> forall b :: b in c.acts ==> !c.acts[b].Transitioning?
    ensures Calm(c.(rows := rows, acts := c.acts[a := act]), posted)
  {
  }

  lemma SendKeepsCalm(c: Cell, a: nat, snap: Transfer, msg: nat, command: Ledger.Command, posted: bool)
    requires Calm(c, posted) && a in c.acts && c.acts[a].AskingAccount? && msg !in c.posts
    ensures Calm(c.(acts := c.acts[a := AwaitingLedger(snap, msg)], posts := c.posts[msg := Post(command, Sent)]), posted)
  {
    assert NoneOutstanding(c);
  }

  // ----- one activation step -----

  lemma {:induction false} LocalKeepsCalm(id: nat, c: Cell, a: nat, choice: Choice, l: Ledger.Ledger, quotes: Fx.Quotes, now: int)
    requires CellOk(id, c, l, quotes) && a in c.acts && IsLocal(c.acts[a])
    requires Calm(c, Ledger.FindReference(l.journal, id).Some?)
    ensures Calm(ActStep(id, c, a, choice, l.journal, now), Ledger.FindReference(l.journal, id).Some?)
  {
    var posted := Ledger.FindReference(l.journal, id).Some?;
    var act := LocalStep(id, c, c.acts[a], choice, l.journal, now);
    assert ActOk(id, c.rows, c.acts[a], l.journal, quotes);
    if act == c.acts[a] {
      assert c.acts[a := act] == c.acts;
    } else if Passive(act) {
      PutPassive(c, a, act, posted);
    } else {
      if c.acts[a].AwaitingLedger? { assert PostOk(id, c.rows.transfer, c.posts[c.acts[a].post], l.journal); }
      StayActive(c, a, act, posted);
    }
  }

  lemma {:induction false} RowsStepKeepsCalm(id: nat, c: Cell, a: nat, choice: Choice, l: Ledger.Ledger, quotes: Fx.Quotes, now: int)
    requires CellOk(id, c, l, quotes) && a in c.acts
    requires c.acts[a].Transitioning? || c.acts[a].Preparing? || c.acts[a].Retrying?
    requires QuietClaim(c, a, Ledger.FindReference(l.journal, id).Some?)
    requires Calm(c, Ledger.FindReference(l.journal, id).Some?)
    ensures Calm(ActStep(id, c, a, choice, l.journal, now), Ledger.FindReference(l.journal, id).Some?)
  {
    hide PostsOk, FxCallsOk, PostingsMatch, TermsHeld, CompletionOk, RowsOk;
    var posted := Ledger.FindReference(l.journal, id).Some?;
    assert ActOk(id, c.rows, c.acts[a], l.journal, quotes);
    forall b | b in c.acts && c.acts[b].Transitioning? ensures c.rows.transfer.kind == Domestic {
      assert ActOk(id, c.rows, c.acts[b], l.journal, quotes);
    }
    match c.acts[a]
    case Transitioning => BecomeActive(c, a, Transition(c.rows, now), posted);
    case Preparing(snap, terms) =>
      if Preparable(c.rows.transfer) { BecomeActive(c, a, Prepare(c.rows, snap, terms, now), posted); }
      else { PutPassive(c, a, Rereading, posted); }
    case Retrying(snap, stale) =>
      if Retryable(c.rows.transfer, snap, stale) { BecomeActive(c, a, ClaimRetry(c.rows, snap, stale, now), posted); }
      else { PutPassive(c, a, Rereading, posted); }
  }

  /** The one activation that may fail a transfer owns it: nothing else is active, in flight or posted. */
  lemma FailingOwns(c: Cell, a: nat, act: Activation, posted: bool)
    requires Calm(c, posted) && a in c.acts && c.acts[a].Failing? && !Active(act)
    ensures Idle(c.(acts := c.acts[a := act]), posted)
  {
  }

  lemma NoTransitioning(id: nat, c: Cell, l: Ledger.Ledger, quotes: Fx.Quotes)
    requires ActsOk(id, c, l.journal, quotes) && TransitionFirst(c)
    requires c.rows.transfer.status != Pending || c.rows.transfer.kind == International
    ensures forall b :: b in c.acts ==> !c.acts[b].Transitioning?
  {
    forall b | b in c.acts ensures !c.acts[b].Transitioning? { assert ActOk(id, c.rows, c.acts[b], l.journal, quotes); }
  }

  lemma FailStepKeepsCalm(id: nat, c: Cell, a: nat, http: nat, reason: Reason, posted: bool, now: int)
    requires Calm(c, posted) && a in c.acts
    requires forall b :: b in c.acts ==> !c.acts[b].Transitioning?
    requires forall act: Activation :: !Active(act) ==> Idle(c.(acts := c.acts[a := act]), posted)
    ensures Calm(FailStep(id, c, a, http, reason, now), posted)
  {
    var c' := FailStep(id, c, a, http, reason, now);
    FailKeepsCalm(c, a, c'.rows, c'.acts[a], posted);
  }

  lemma CompletingKeepsCalm(id: nat, c: Cell, a: nat, p: nat, posted: bool, now: int)
    requires Calm(c, posted) && a in c.acts && c.acts[a] == Completing(p)
    ensures var rows := Complete(id, c.rows, p, now);
      Calm(c.(rows := rows, acts := c.acts[a := Replied(ResultFor(id, rows.transfer))]), posted)
  {
    var rows := Complete(id, c.rows, p, now);
    CompleteKeepsCalm(c, a, rows, Replied(ResultFor(id, rows.transfer)), posted);
  }

  lemma FailingKeepsCalm(id: nat, c: Cell, a: nat, l: Ledger.Ledger, quotes: Fx.Quotes, now: int, posted: bool)
    requires CellOk(id, c, l, quotes) && a in c.acts && c.acts[a].Failing?
    requires Calm(c, posted)
    ensures Calm(FailStep(id, c, a, c.acts[a].http, c.acts[a].reason, now), posted)
  {
    assert ActOk(id, c.rows, c.acts[a], l.journal, quotes);
    NoTransitioning(id, c, l, quotes);
    forall act: Activation | !Active(act) ensures Idle(c.(acts := c.acts[a := act]), posted) {
      FailingOwns(c, a, act, posted);
    }
    FailStepKeepsCalm(id, c, a, c.acts[a].http, c.acts[a].reason, posted, now);
  }

  lemma FxFailingKeepsCalm(id: nat, c: Cell, a: nat, l: Ledger.Ledger, quotes: Fx.Quotes, now: int, posted: bool)
    requires CellOk(id, c, l, quotes) && a in c.acts && c.acts[a].FxFailing? && QuietClaim(c, a, posted)
    requires Calm(c, posted)
    ensures Calm(FailStep(id, c, a, c.acts[a].http, c.acts[a].reason, now), posted)
  {
    assert ActOk(id, c.rows, c.acts[a], l.journal, quotes);
    NoTransitioning(id, c, l, quotes);
    var c' := FailStep(id, c, a, c.acts[a].http, c.acts[a].reason, now);
    FailKeepsCalm(c, a, c'.rows, c'.acts[a], posted);
  }

  lemma {:induction false} VerdictKeepsCalm(id: nat, c: Cell, a: nat, choice: Choice, l: Ledger.Ledger, quotes: Fx.Quotes, now: int)
    requires CellOk(id, c, l, quotes) && a in c.acts
    requires c.acts[a].Completing? || c.acts[a].Failing? || c.acts[a].FxFailing?
    requires QuietClaim(c, a, Ledger.FindReference(l.journal, id).Some?)
    requires Calm(c, Ledger.FindReference(l.journal, id).Some?)
    ensures Calm(ActStep(id, c, a, choice, l.journal, now), Ledger.FindReference(l.journal, id).Some?)
  {
    hide CellOk, Calm, Complete, ResultFor, FailStep;
    var posted := Ledger.FindReference(l.journal, id).Some?;
    match c.acts[a]
    case Completing(p) => CompletingKeepsCalm(id, c, a, p, posted, now);
    case Failing(_, _) => FailingKeepsCalm(id, c, a, l, quotes, now, posted);
    case FxFailing(_, _) => FxFailingKeepsCalm(id, c, a, l, quotes, now, posted);
  }

  lemma {:induction false} ActKeepsCalm(id: nat, c: Cell, a: nat, choice: Choice, l: Ledger.Ledger, quotes: Fx.Quotes, now: int)
    requires CellOk(id, c, l, quotes) && a in c.acts
    requires Calm(c, Ledger.FindReference(l.journal, id).Some?)
    requires QuietClaim(c, a, Ledger.FindReference(l.journal, id).Some?)
    ensures Calm(ActStep(id, c, a, choice, l.journal, now), Ledger.FindReference(l.journal, id).Some?)
  {
    hide Calm;
    var posted := Ledger.FindReference(l.journal, id).Some?;
    if IsLocal(c.acts[a]) {
      LocalKeepsCalm(id, c, a, choice, l, quotes, now);
    } else if c.acts[a].Transitioning? || c.acts[a].Preparing? || c.acts[a].Retrying? {
      RowsStepKeepsCalm(id, c, a, choice, l, quotes, now);
    } else if c.acts[a].Completing? || c.acts[a].Failing? || c.acts[a].FxFailing? {
      VerdictKeepsCalm(id, c, a, choice, l, quotes, now);
    } else if c.acts[a].AskingAccount? {
      if choice.AccountSays? { AccountKeepsCalm(id, c, a, choice.answer, choice.msg, posted); }
    } else {
      FxReadyKeepsCalm(id, c, a, choice, l.journal, posted, now);
    }
  }

  lemma AccountKeepsCalm(id: nat, c: Cell, a: nat, answer: AccountAnswer, msg: nat, posted: bool)
    requires Calm(c, posted) && a in c.acts && c.acts[a].AskingAccount?
    ensures Calm(AfterAccount(id, c, a, c.acts[a].snap, answer, msg), posted)
  {
    var snap := c.acts[a].snap;
    if answer.Wallets? && ValidateWallets(snap, answer.sender, answer.recipient).None? {
      if msg !in c.posts && snap.targetAmount.Some? {
        SendKeepsCalm(c, a, snap, msg, PostingCommand(id, snap), posted);
      }
    } else {
      StayActive(c, a, AfterAccount(id, c, a, snap, answer, msg).acts[a], posted);
    }
  }

  lemma {:induction false} FxReadyKeepsCalm(id: nat, c: Cell, a: nat, choice: Choice, journal: seq<Ledger.Posting>, posted: bool, now: int)
    requires Calm(c, posted) && a in c.acts && c.acts[a].FxReady?
    ensures Calm(ActStep(id, c, a, choice, journal, now), posted)
  {
    var c' := ActStep(id, c, a, choice, journal, now);
    PutPassive(c, a, c'.acts[a], posted);
  }
}
