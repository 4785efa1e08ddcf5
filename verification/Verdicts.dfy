/** What each answer of the services a transfer depends on leads to, and what callers are told. */
module Verdicts {
  import opened Common
  import opened Transfers
  import opened World
  import opened WorldInvariant
  import opened WorldRuns
  import opened WalletChecks
  import LedgerInvariant

  lemma Stepped(w: World, id: nat, a: nat, choice: Choice)
    requires |w.ledger.balances| == |w.ledger.accounts| && id in w.cells && a in w.cells[id].acts
    ensures Next(w, Step(id, a, choice)) == WithCell(w, id, ActStep(id, w.cells[id], a, choice, w.ledger.journal, w.now))
  {
    hide ActStep;
  }

  /** The row read before is still the command of this transfer. */
  lemma KnowsItsRow(w: World, id: nat, a: nat)
    requires Inv(w) && id in w.cells && a in w.cells[id].acts
    ensures |w.ledger.balances| == |w.ledger.accounts|
    ensures var act, t := w.cells[id].acts[a], w.cells[id].rows.transfer;
      && (act.AskingAccount? || act.AwaitingLedger? || act.AwaitingFx? ==> SameCommand(act.snap, t) && Open(act.snap.status))
      && (act.AskingAccount? ==> act.snap.targetAmount.Some?)
  {
    hide LedgerInvariant.Inv, KeysUnique, QuotesUnique, PostsOk, FxCallsOk, RowsOk;
    assert CellOk(id, w.cells[id], w.ledger, w.quotes);
    assert ActOk(id, w.cells[id].rows, w.cells[id].acts[a], w.ledger.journal, w.quotes);
  }

  /** What an answer of the Account service that does not approve is turned into. */
  predicate Refuses(t: Transfer, answer: AccountAnswer, http: nat, reason: Reason) {
    match answer
    case AccountDown => http == 503 && reason == AccountServiceUnavailable
    case AccountHttp(s, code) =>
      if s in {401, 403} || s >= 500 then http == 503 && reason == AccountServiceUnavailable
      else http == s && reason == AccountRefused(code)
    case Wallets(s, r) =>
      if s.owner != t.client then http == 403 && reason == WalletAccessDenied
      else if !(s.active && r.active && s.provisioned && r.provisioned) then http == 409 && reason == WalletUnavailable
      else !(s.currency == t.sourceCurrency && r.currency == t.targetCurrency) && http == 409 && reason == CurrencyMismatch
  }

  /** Ownership before usability before currency: each refusal sends nothing and goes on to fail the transfer. */
  lemma {:induction false} UnapprovedSendsNothing(w: World, id: nat, a: nat, answer: AccountAnswer, msg: nat)
    requires Inv(w) && id in w.cells && a in w.cells[id].acts && w.cells[id].acts[a].AskingAccount?
    requires answer.Wallets? ==> !MayPay(w.cells[id].rows.transfer, answer.sender, answer.recipient)
    ensures var w' := Next(w, Step(id, a, AccountSays(answer, msg)));
      && id in w'.cells && a in w'.cells[id].acts && w'.cells[id] == w.cells[id].(acts := w'.cells[id].acts)
      && w'.cells[id].acts[a].Failing? && w'.ledger == w.ledger
      && Refuses(w.cells[id].rows.transfer, answer, w'.cells[id].acts[a].http, w'.cells[id].acts[a].reason)
  {
    hide Inv, Next;
    KnowsItsRow(w, id, a);
    Stepped(w, id, a, AccountSays(answer, msg));
  }

  /** Failing an open transfer records the reason, answers with its status and stores that answer. */
  lemma {:induction false} FailingReplies(w: World, id: nat, a: nat, choice: Choice)
    requires |w.ledger.balances| == |w.ledger.accounts| && id in w.cells && a in w.cells[id].acts
    requires w.cells[id].acts[a].Failing? || w.cells[id].acts[a].FxFailing?
    requires Open(w.cells[id].rows.transfer.status) && w.cells[id].rows.record.state == RecordProcessing
    ensures var act := w.cells[id].acts[a];
      var w' := Next(w, Step(id, a, choice));
      && id in w'.cells && a in w'.cells[id].acts && w'.cells[id].acts[a].Replied?
      && var r, reply := w'.cells[id].rows, w'.cells[id].acts[a].reply;
         && r.transfer.status == Failed && r.transfer.failure == Some(act.reason)
         && reply.http == act.http && reply.body.status == Failed && reply.body.failure == Some(act.reason)
         && r.record.state == RecordFailed && r.record.stored == Some(reply)
  {
  }

  /** Completing a PROCESSING transfer records the posting and the time, answers 201 with both and stores that answer. */
  lemma {:induction false} CompletingReplies(w: World, id: nat, a: nat, choice: Choice)
    requires |w.ledger.balances| == |w.ledger.accounts| && id in w.cells && a in w.cells[id].acts && w.cells[id].acts[a].Completing?
    requires w.cells[id].rows.transfer.status == Processing
    ensures var p := w.cells[id].acts[a].posting;
      var w' := Next(w, Step(id, a, choice));
      && id in w'.cells && a in w'.cells[id].acts && w'.cells[id].acts[a].Replied?
      && var r, reply := w'.cells[id].rows, w'.cells[id].acts[a].reply;
         && r.transfer.status == Completed && r.transfer.posting == Some(p) && r.transfer.completedAt == Some(w.now)
         && reply.http == 201 && reply.body.status == Completed && reply.body.posting == Some(p) && reply.body.completedAt == Some(w.now)
         && r.record.state == RecordCompleted && r.record.stored == Some(reply)
  {
  }

  /** A FAILED transfer of any reachable system has one of the causes a transfer may fail for, answered with its status. */
  lemma {:induction false} FailedHasCause(events: seq<Event>, id: nat)
    requires id in Run(events).cells && Run(events).cells[id].rows.transfer.status == Failed
    ensures FailureOk(Run(events).cells[id].rows)
  {
    ReachableInv(events);
    assert CellOk(id, Run(events).cells[id], Run(events).ledger, Run(events).quotes);
  }

  // ----- the Ledger and the FX service -----

  /** The caller is told 202 and the transfer is left as it is. */
  predicate StillProcessing(id: nat, act: Activation) {
    act.Replied? && act.reply.http == 202 && act.reply.body.transfer == id && act.reply.body.statusUrl
  }

  /**
   * An answered post completes the transfer with the posting named, or fails it with the Ledger's own status; a server
   * error of the Ledger, like no answer, leaves it PROCESSING.
   */
  lemma {:induction false} LedgerAnswerDecides(w: World, id: nat, a: nat, p: nat)
    requires Inv(w) && id in w.cells && a in w.cells[id].acts && w.cells[id].acts[a].AwaitingLedger? && w.cells[id].acts[a].post == p
    requires p in w.cells[id].posts && (w.cells[id].posts[p].state.Accepted? || w.cells[id].posts[p].state.Refused?)
    ensures var w', none := Next(w, Step(id, a, Answered)), Next(w, Step(id, a, NoAnswer));
      && id in w'.cells && a in w'.cells[id].acts && w'.cells[id].rows == w.cells[id].rows
      && id in none.cells && a in none.cells[id].acts && StillProcessing(id, none.cells[id].acts[a])
      && var act := w'.cells[id].acts[a];
         match w.cells[id].posts[p].state
         case Accepted(k) => act == Completing(k)
         case Refused(f) =>
           (match f
            case DatabaseError | UniqueViolation => StillProcessing(id, act)
            case PostingNotFound | AccountNotFound => act == Failing(404, LedgerRefused(f))
            case ReferenceReused | AccountUnavailable | PostingConflict | ReversalOfReversal | AlreadyReversed =>
              act == Failing(409, LedgerRefused(f))
            case _ => act == Failing(422, LedgerRefused(f)))
         case _ => true
  {
    hide Inv, Next;
    KnowsItsRow(w, id, a);
    Stepped(w, id, a, Answered);
    Stepped(w, id, a, NoAnswer);
  }

  /**
   * An answered consumption prepares the transfer with the terms granted, or fails it; a quote of another client, like a
   * server error or no answer, leaves it PENDING.
   */
  lemma {:induction false} FxAnswerDecides(w: World, id: nat, a: nat, f: nat)
    requires Inv(w) && id in w.cells && a in w.cells[id].acts && w.cells[id].acts[a].AwaitingFx? && w.cells[id].acts[a].call == f
    requires f in w.cells[id].fxCalls && !w.cells[id].fxCalls[f].state.FxSent?
    ensures var w', none := Next(w, Step(id, a, Answered)), Next(w, Step(id, a, NoAnswer));
      && id in w'.cells && a in w'.cells[id].acts && w'.cells[id].rows == w.cells[id].rows
      && id in none.cells && a in none.cells[id].acts && StillProcessing(id, none.cells[id].acts[a])
      && var act := w'.cells[id].acts[a];
         match w.cells[id].fxCalls[f].state
         case FxAnswered(terms) => act == Preparing(w.cells[id].acts[a].snap, terms)
         case FxDeclined(why) =>
           (match why
            case QuoteAccessDenied | FxDatabaseError => StillProcessing(id, act)
            case QuoteNotFound => act == FxFailing(404, FxRefused(why))
            case _ => act == FxFailing(409, FxRefused(why)))
         case _ => true
  {
    hide Inv, Next;
    KnowsItsRow(w, id, a);
    Stepped(w, id, a, Answered);
    Stepped(w, id, a, NoAnswer);
  }

  // ----- what callers are told -----

  /**
   * Every reply of every reachable system is about its transfer and its terms; 202 with a place to ask again for an open
   * one, 201 for a completed one, 422 or the stored status, with the recorded reason, for a failed one.
   */
  lemma {:induction false} RepliesAreTrue(events: seq<Event>, id: nat, a: nat)
    requires id in Run(events).cells && a in Run(events).cells[id].acts && Run(events).cells[id].acts[a].Replied?
    ensures var t, reply := Run(events).cells[id].rows.transfer, Run(events).cells[id].acts[a].reply;
      var b := reply.body;
      && b.transfer == id && b.sourceAmount == t.sourceAmount && b.sourceCurrency == t.sourceCurrency
      && b.targetCurrency == t.targetCurrency && b.quote == t.quote
      && (Open(b.status) ==> reply.http == 202 && b.statusUrl && b.posting.None?)
      && (b.status == Completed ==> reply.http == 201 && t.status == Completed && b.posting == t.posting && b.completedAt == t.completedAt)
      && (b.status == Failed ==>
            && t.status == Failed && b.failure == t.failure && b.failure.Some? && b.posting.None?
            && (reply.http == 422 || Run(events).cells[id].rows.record.stored == Some(reply)))
  {
    hide Run, LedgerInvariant.Inv, KeysUnique, QuotesUnique, PostsOk, FxCallsOk;
    ReachableInv(events);
    var w := Run(events);
    assert CellOk(id, w.cells[id], w.ledger, w.quotes);
    assert ActOk(id, w.cells[id].rows, w.cells[id].acts[a], w.ledger.journal, w.quotes);
  }

  /** A key is answered for twenty-four hours from its first request and refused from then on. */
  lemma {:induction false} KeyLivesADay(events: seq<Event>, id: nat)
    requires id in Run(events).cells
    ensures var r := Run(events).cells[id].rows; r.record.replayExpiresAt - r.transfer.createdAt == 86_400_000
  {
    ReachableInv(events);
    assert CellOk(id, Run(events).cells[id], Run(events).ledger, Run(events).quotes);
  }

  /**
   * A repeated request: another payload first, then an expired key, then the stored reply, and only a transfer that is
   * still open is reconciled, without force.
   */
  lemma {:induction false} RepeatedRequestDecides(w: World, id: nat, a: nat, choice: Choice)
    requires |w.ledger.balances| == |w.ledger.accounts| && id in w.cells && a in w.cells[id].acts && w.cells[id].acts[a].Handling?
    requires w.cells[id].acts[a].record == w.cells[id].rows.record && RowsOk(id, w.cells[id].rows)
    ensures var w' := Next(w, Step(id, a, choice));
      && id in w'.cells && a in w'.cells[id].acts && w'.cells[id].rows == w.cells[id].rows
      && var r, request, act := w.cells[id].rows, w.cells[id].acts[a].request, w'.cells[id].acts[a];
         if r.record.request != request then act == Rejected(PayloadMismatch)
         else if w.now >= r.record.replayExpiresAt then act == Rejected(KeyExpired)
         else if Open(r.transfer.status) then act == Reconciling(false)
         else act.Replied? && r.record.stored == Some(act.reply)
  {
  }
}
