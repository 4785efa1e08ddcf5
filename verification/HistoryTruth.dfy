/**
 * The history that is shown to the two wallets of a transfer, held against what has happened rather than against the
 * definition of the projection: the posting in the journal once there is one, the terms of the quote before.
 */
module HistoryTruth {
  import opened Common
  import opened Transfers
  import opened World
  import opened WorldInvariant
  import opened WorldRuns
  import opened WorldTheorems
  import Ledger
  import LedgerInvariant

  /** One row for the sender and one for the recipient, each naming the other, in the status of the transfer. */
  predicate TwoSides(h: History, t: Transfer) {
    var s, r := HistoryKey(t.sender, Sender), HistoryKey(t.recipient, Recipient);
    && h.Keys == {s, r}
    && h[s].counterparty == t.recipient && h[r].counterparty == t.sender
    && h[s].status == t.status && h[r].status == t.status
    && h[s].quote == t.quote && h[r].quote == t.quote
    && h[s].occurredAt == t.createdAt && h[r].occurredAt == t.createdAt
  }

  /** What the rows show of the transfer itself. */
  lemma {:induction false} RowsShow(id: nat, r: Rows)
    requires RowsOk(id, r)
    ensures r.transfer.targetAmount.Some? ==>
      && TwoSides(r.history, r.transfer)
      && r.history[HistoryKey(r.transfer.sender, Sender)].amount == r.transfer.sourceAmount
      && r.history[HistoryKey(r.transfer.sender, Sender)].currency == r.transfer.sourceCurrency
      && r.history[HistoryKey(r.transfer.recipient, Recipient)].amount == r.transfer.targetAmount.value
      && r.history[HistoryKey(r.transfer.recipient, Recipient)].currency == r.transfer.targetCurrency
    ensures r.transfer.targetAmount.None? <==> r.history == map[]
  {
    var t := r.transfer;
    assert t.sender != t.recipient;
    if t.targetAmount.Some? {
      assert r.history == HistoryPair(t, t.status, t.targetAmount.value);
      assert HistoryKey(t.sender, Sender) in r.history;
    }
  }

  /** The row shows the amount and currency of this entry, which is on the account of this wallet. */
  predicate Shows(row: HistoryRow, accounts: seq<Ledger.Account>, e: Ledger.Entry, wallet: nat, side: Ledger.Side) {
    && e.account < |accounts| && accounts[e.account].wallet == Some(wallet) && e.side == side
    && row.amount == e.amount && row.currency == e.currency
  }

  /**
   * The history of a COMPLETED transfer is its posting: the sender sees what its account was debited and the recipient
   * what its account was credited, each in its own currency.
   */
  lemma {:induction false} CompletedHistoryIsJournal(events: seq<Event>, id: nat)
    requires id in Run(events).cells && Run(events).cells[id].rows.transfer.status == Completed
    ensures var w, r := Run(events), Run(events).cells[id].rows;
      var t, h := r.transfer, r.history;
      && TwoSides(h, t) && t.posting.Some? && t.posting.value < |w.ledger.journal|
      && var p := w.ledger.journal[t.posting.value].body;
         && p.reference == id && |p.entries| >= 2 && p.quote == t.quote
         && Shows(h[HistoryKey(t.sender, Sender)], w.ledger.accounts, p.entries[0], t.sender, Ledger.Debit)
         && Shows(h[HistoryKey(t.recipient, Recipient)], w.ledger.accounts, p.entries[1], t.recipient, Ledger.Credit)
  {
    hide Run, LedgerInvariant.Inv, KeysUnique, QuotesUnique, ActsOk, PostsOk, FxCallsOk, RowsOk, PostingCommand;
    ReachableInv(events);
    RowsShow(id, Run(events).cells[id].rows);
    CompletedIsPosted(events, id);
    CompletedHasAmount(id, Run(events).cells[id].rows);
    PostedTerms(Run(events), id);
    assert CellOk(id, Run(events).cells[id], Run(events).ledger, Run(events).quotes);
  }

  /** From preparation on, an international transfer shows exactly the amounts and currencies of its quote, whatever becomes of it. */
  lemma {:induction false} PreparedHistoryIsQuote(events: seq<Event>, id: nat)
    requires id in Run(events).cells && Run(events).cells[id].rows.transfer.kind == International
    requires Run(events).cells[id].rows.transfer.targetAmount.Some?
    ensures var w, r := Run(events), Run(events).cells[id].rows;
      var t, h := r.transfer, r.history;
      && TwoSides(h, t) && t.quote.Some? && t.quote.value in w.quotes
      && var q := w.quotes[t.quote.value];
         && q.consumedBy == Some(id)
         && h[HistoryKey(t.sender, Sender)].amount == q.sourceAmount && h[HistoryKey(t.sender, Sender)].currency == q.sourceCurrency
         && h[HistoryKey(t.recipient, Recipient)].amount == q.targetAmount
         && h[HistoryKey(t.recipient, Recipient)].currency == q.targetCurrency
  {
    hide Run, LedgerInvariant.Inv, KeysUnique, QuotesUnique, ActsOk, PostsOk, FxCallsOk, RowsOk;
    ReachableInv(events);
    var w := Run(events);
    assert CellOk(id, w.cells[id], w.ledger, w.quotes);
    RowsShow(id, w.cells[id].rows);
    assert ClaimsQuote(w.cells[id].rows.transfer, w.cells[id].rows.transfer.quote.value, w.quotes[w.cells[id].rows.transfer.quote.value]);
  }

  /** A domestic transfer shows the requested amount to both wallets from its claim on; an unprepared international one shows nothing. */
  lemma {:induction false} HistoryFromRequest(events: seq<Event>, id: nat)
    requires id in Run(events).cells
    ensures var r := Run(events).cells[id].rows;
      match r.record.request
      case DomesticRequest(s, d, amount, c) =>
        && TwoSides(r.history, r.transfer) && r.transfer.sender == s && r.transfer.recipient == d
        && r.history[HistoryKey(s, Sender)].amount == amount && r.history[HistoryKey(s, Sender)].currency == c
        && r.history[HistoryKey(d, Recipient)].amount == amount && r.history[HistoryKey(d, Recipient)].currency == c
      case InternationalRequest(_, _, _, _, _, _) => r.history == map[] <==> r.transfer.targetAmount.None?
  {
    hide Run, LedgerInvariant.Inv, KeysUnique, QuotesUnique, ActsOk, PostsOk, FxCallsOk, RowsOk;
    ReachableInv(events);
    assert CellOk(id, Run(events).cells[id], Run(events).ledger, Run(events).quotes);
    RowsShow(id, Run(events).cells[id].rows);
    RequestedTerms(id, Run(events).cells[id].rows);
  }

  lemma CompletedHasAmount(id: nat, r: Rows)
    requires RowsOk(id, r) && r.transfer.status == Completed
    ensures r.transfer.targetAmount.Some?
  {
  }

  lemma RequestedTerms(id: nat, r: Rows)
    requires RowsOk(id, r)
    ensures match r.record.request
      case DomesticRequest(s, d, amount, c) =>
        && r.transfer.sender == s && r.transfer.recipient == d && r.transfer.sourceAmount == amount
        && r.transfer.targetAmount == Some(amount) && r.transfer.sourceCurrency == c && r.transfer.targetCurrency == c
      case InternationalRequest(_, _, _, _, _, _) => true
  {
  }
}
