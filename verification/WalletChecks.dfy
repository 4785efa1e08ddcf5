/**
 * Whose money may move.  No Ledger attempt is ever made for a transfer unless the Account service has said that the
 * client owns the sending wallet and that both wallets are usable in the transfer's currencies.
 */
module WalletChecks {
  import opened Common
  import opened Transfers
  import opened World
  import opened WorldInvariant
  import opened WorldRuns
  import opened WorldTheorems
  import Ledger
  import LedgerInvariant
  import LooseEnds
  import Quiet

  /** The client owns the sending wallet, and both wallets are usable in the currencies of the transfer. */
  predicate MayPay(t: Transfer, s: Wallet, r: Wallet) {
    && s.owner == t.client && s.active && s.provisioned && r.active && r.provisioned
    && s.currency == t.sourceCurrency && r.currency == t.targetCurrency
  }

  /** The event is the step of a process() of this transfer that takes such an answer. */
  predicate Approves(w: World, e: Event, id: nat) {
    && e.Step? && e.id == id && id in w.cells && e.act in w.cells[id].acts && w.cells[id].acts[e.act].AskingAccount?
    && e.choice.AccountSays? && e.choice.answer.Wallets?
    && MayPay(w.cells[id].rows.transfer, e.choice.answer.sender, e.choice.answer.recipient)
  }

  lemma {:induction false} ActSends(id: nat, c: Cell, a: nat, choice: Choice, journal: seq<Ledger.Posting>, now: int, p: nat)
    requires a in c.acts && p !in c.posts && p in ActStep(id, c, a, choice, journal, now).posts
    ensures c.acts[a].AskingAccount? && choice.AccountSays? && choice.answer.Wallets?
    ensures MayPay(c.acts[a].snap, choice.answer.sender, choice.answer.recipient)
  {
  }

  /** An event that adds an attempt to a transfer approves it. */
  lemma {:induction false} SendingApproves(w: World, e: Event, id: nat, p: nat)
    requires Inv(w) && id in Next(w, e).cells && p in Next(w, e).cells[id].posts
    requires id in w.cells ==> p !in w.cells[id].posts
    ensures Approves(w, e, id)
  {
    hide LedgerInvariant.Inv, Ledger.PostAfterLookup, Ledger.Next, KeysUnique, QuotesUnique, ActStep, PostsOk, FxCallsOk;
    if id in w.cells && e.Step? && e.id == id && e.act in w.cells[id].acts {
      var c := w.cells[id];
      ActSends(id, c, e.act, e.choice, w.ledger.journal, w.now, p);
      assert CellOk(id, c, w.ledger, w.quotes);
      assert ActOk(id, c.rows, c.acts[e.act], w.ledger.journal, w.quotes);
    } else {
      OthersSendNothing(w, e, id, p);
    }
  }

  lemma OthersSendNothing(w: World, e: Event, id: nat, p: nat)
    requires |w.ledger.balances| == |w.ledger.accounts| && !(id in w.cells && e.Step? && e.id == id && e.act in w.cells[id].acts)
    requires id in Next(w, e).cells && p in Next(w, e).cells[id].posts
    ensures id in w.cells && p in w.cells[id].posts
  {
    hide Ledger.PostAfterLookup, Ledger.Next, ActStep;
  }

  /** At some earlier moment of the run the transfer was approved. */
  ghost predicate Approved(events: seq<Event>, id: nat) {
    exists n :: 0 <= n < |events| && Approves(Run(events[..n]), events[n], id)
  }

  lemma {:induction false} ApprovedLater(events: seq<Event>, n: nat, id: nat)
    requires n <= |events| && Approved(events[..n], id)
    ensures Approved(events, id)
  {
    hide Run, Approves;
    var k :| 0 <= k < n && Approves(Run(events[..n][..k]), events[..n][k], id);
    assert events[..n][..k] == events[..k];
  }

  /** Every attempt in flight, in every reachable system, was approved before. */
  lemma {:induction false} AttemptsAreApproved(events: seq<Event>, id: nat, p: nat)
    requires id in Run(events).cells && p in Run(events).cells[id].posts
    ensures Approved(events, id)
  {
    hide Next, Approves, Inv;
    if events != [] {
      var n := |events| - 1;
      var w := Run(events[..n]);
      if id in w.cells && p in w.cells[id].posts {
        AttemptsAreApproved(events[..n], id, p);
        ApprovedLater(events, n, id);
      } else {
        ReachableInv(events[..n]);
        SendingApproves(w, events[n], id, p);
      }
    }
  }

  lemma PostingNeedsAttempt(w: World, e: Event, id: nat)
    requires Inv(w) && id in w.cells && !Quiet.Posted(w, id) && Quiet.Posted(Next(w, e), id)
    ensures exists p :: p in w.cells[id].posts
  {
    hide LedgerInvariant.Inv, Ledger.PostAfterLookup, Ledger.Next, KeysUnique, QuotesUnique, CellsOk, Quiet.Posted;
    if !(e.LedgerRun? && e.id == id) {
      LooseEnds.PostedKept(w, e, id);
    }
  }

  /** No money of a transfer moves in any run unless it was approved first. */
  lemma {:induction false} PostedIsApproved(events: seq<Event>, id: nat)
    requires id in Run(events).cells && Quiet.Posted(Run(events), id)
    ensures Approved(events, id)
  {
    hide Next, Approves, Approved, Inv, Quiet.Posted;
    if events != [] {
      var n := |events| - 1;
      var w := Run(events[..n]);
      ReachableInv(events[..n]);
      if id !in w.cells {
        NewIsUnposted(w, events[n], id);
      } else if Quiet.Posted(w, id) {
        PostedIsApproved(events[..n], id);
        ApprovedLater(events, n, id);
      } else {
        PostingNeedsAttempt(w, events[n], id);
        var p :| p in w.cells[id].posts;
        AttemptsAreApproved(events[..n], id, p);
        ApprovedLater(events, n, id);
      }
    }
  }

  lemma NewIsUnposted(w: World, e: Event, id: nat)
    requires |w.ledger.balances| == |w.ledger.accounts| && id !in w.cells && id in Next(w, e).cells
    ensures !Quiet.Posted(Next(w, e), id)
  {
    hide Ledger.PostAfterLookup, Ledger.Next, ActStep;
  }
}
