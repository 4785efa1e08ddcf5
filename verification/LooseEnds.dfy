/**
 * When exactly a FAILED transfer can still move its money.  No discipline is assumed here: in every reachable system a
 * continuation in which its posting exists can be found if and only if the posting is there, or an attempt was left
 * behind that the ledger can come to accept.
 */
module LooseEnds {
  import opened Common
  import opened Transfers
  import opened World
  import opened WorldInvariant
  import opened WorldRuns
  import opened LedgerGrowth
  import opened Quiet
  import Ledger
  import LedgerInvariant
  import Order
  import Payable
  import QuietRuns
  import WorldTheorems

  /** An attempt left behind: a post without an answer, or a process() that still waits for the Account service. */
  predicate LooseEnd(c: Cell) {
    || (exists p :: p in c.posts && Outstanding(c.posts[p]))
    || (exists a :: a in c.acts && c.acts[a].AskingAccount?)
  }

  // ----- without a loose end a FAILED transfer is never posted -----

  predicate Settled(w: World, id: nat) {
    id in w.cells && w.cells[id].rows.transfer.status == Failed && !LooseEnd(w.cells[id]) && !Posted(w, id)
  }

  lemma {:induction false} ActLeavesNoEnd(id: nat, c: Cell, a: nat, choice: Choice, journal: seq<Ledger.Posting>, now: int)
    requires a in c.acts && c.rows.transfer.status == Failed && !LooseEnd(c)
    ensures var c' := ActStep(id, c, a, choice, journal, now); c'.rows == c.rows && !LooseEnd(c')
  {
    var c' := ActStep(id, c, a, choice, journal, now);
    assert c'.posts == c.posts;
  }

  /** The events that leave the ledger alone. */
  lemma CellEventsSettled(w: World, e: Event, id: nat)
    requires |w.ledger.balances| == |w.ledger.accounts| && Settled(w, id) && !e.LedgerRun? && !e.Outside?
    ensures Settled(Next(w, e), id)
  {
    hide ActStep;
    var c := w.cells[id];
    if e.Step? && e.id == id && e.act in c.acts { ActLeavesNoEnd(id, c, e.act, e.choice, w.ledger.journal, w.now); }
  }

  lemma LedgerUntouched(w: World, e: Event)
    requires |w.ledger.balances| == |w.ledger.accounts| && !e.LedgerRun? && !e.Outside?
    ensures Next(w, e).ledger == w.ledger
  {
  }

  /** Only a post of its own brings about the posting of a transfer. */
  lemma {:induction false} PostedKept(w: World, e: Event, id: nat)
    requires Inv(w) && id in w.cells && (e.LedgerRun? ==> e.id != id)
    ensures Posted(Next(w, e), id) <==> Posted(w, id)
  {
    hide Ledger.PostAfterLookup, Ledger.Next, LedgerInvariant.Inv, CellOk, ActStep, KeysUnique, QuotesUnique, ConsumersOk;
    match e
    case LedgerRun(i, p) =>
      if PostIn(w, i, p, LookedUp) {
        var command := w.cells[i].posts[p].command;
        OwnCommand(i, w.cells[i], p, w.ledger, w.quotes);
        PostAfterLookupGrows(w.ledger, command);
        QuietRuns.PostedStable(w.ledger, Ledger.PostAfterLookup(w.ledger, command).0, id);
      }
    case Outside(le) =>
      if OutsideAllowed(w, le) {
        NextGrows(w.ledger, le);
        QuietRuns.PostedStable(w.ledger, Ledger.Next(w.ledger, le), id);
      }
    case _ => LedgerUntouched(w, e);
  }

  lemma {:induction false} OwnRunSettled(w: World, e: Event, id: nat)
    requires |w.ledger.balances| == |w.ledger.accounts| && Settled(w, id) && e.LedgerRun? && e.id == id
    ensures Next(w, e) == w
  {
  }

  lemma {:induction false} LedgerEventsSettled(w: World, e: Event, id: nat)
    requires |w.ledger.balances| == |w.ledger.accounts| && Settled(w, id) && (e.Outside? || (e.LedgerRun? && e.id != id))
    ensures id in Next(w, e).cells && Next(w, e).cells[id] == w.cells[id]
  {
    hide Ledger.PostAfterLookup, Ledger.Next;
  }

  lemma NextSettled(w: World, e: Event, id: nat)
    requires Inv(w) && Settled(w, id)
    ensures Settled(Next(w, e), id)
  {
    if !e.LedgerRun? && !e.Outside? {
      CellEventsSettled(w, e, id);
    } else if e.LedgerRun? && e.id == id {
      OwnRunSettled(w, e, id);
    } else {
      PostedKept(w, e, id);
      LedgerEventsSettled(w, e, id);
    }
  }

  lemma {:induction false} StaysSettled(events: seq<Event>, more: seq<Event>, id: nat)
    requires Settled(Run(events), id)
    ensures Settled(Run(events + more), id)
    decreases |more|
  {
    hide Settled, Next, Inv;
    if more == [] {
      assert events + more == events;
    } else {
      var before := more[..|more| - 1];
      StaysSettled(events, before, id);
      ReachableInv(events + before);
      NextSettled(Run(events + before), more[|more| - 1], id);
      RunStep(events + before, more[|more| - 1]);
      assert events + before + [more[|more| - 1]] == events + more;
    }
  }

  // ----- a posting needs wallets that fit -----

  /** Neither wallet of the transfer has an account in another currency. */
  predicate WalletsFit(accounts: seq<Ledger.Account>, t: Transfer) {
    Payable.WalletFits(accounts, t.sender, t.sourceCurrency) && Payable.WalletFits(accounts, t.recipient, t.targetCurrency)
  }

  lemma {:induction false} PostedFits(w: World, id: nat)
    requires Inv(w) && id in w.cells && Posted(w, id)
    ensures WalletsFit(w.ledger.accounts, w.cells[id].rows.transfer)
  {
    hide KeysUnique, QuotesUnique, FxPostingsOwned, ConsumersOk, Ledger.Validate, Ledger.RowCheck, Ledger.TriggerAccepts;
    var k := Ledger.FindReference(w.ledger.journal, id).value;
    var p := w.ledger.journal[k];
    assert CellOk(id, w.cells[id], w.ledger, w.quotes);
    assert PostedFor(w.ledger.accounts, p, id, w.cells[id].rows.transfer);
    assert LedgerInvariant.PostingOk(w.ledger.accounts, p);
    EntryFits(w.ledger, p.body.entries[0]);
    EntryFits(w.ledger, p.body.entries[1]);
  }

  lemma EntryFits(l: Ledger.Ledger, e: Ledger.Entry)
    requires LedgerInvariant.Inv(l) && e.account < |l.accounts| && l.accounts[e.account].wallet.Some?
    requires l.accounts[e.account].currency == e.currency
    ensures Payable.WalletFits(l.accounts, l.accounts[e.account].wallet.value, e.currency)
  {
    Payable.WalletIsCustomer(l, e.account);
    Payable.WalletOf(l, e.account);
  }

  lemma FitsBefore(l: Ledger.Ledger, l': Ledger.Ledger, wallet: nat, c: nat)
    requires LedgerInvariant.Inv(l) && LedgerInvariant.Inv(l') && Grows(l, l') && Payable.WalletFits(l'.accounts, wallet, c)
    ensures Payable.WalletFits(l.accounts, wallet, c)
  {
    var r := Ledger.FindWallet(l.accounts, wallet);
    if r.Some? { Payable.ReadyStays(l, l', wallet, l.accounts[r.value].currency); }
  }

  lemma NextLedgerGrows(w: World, e: Event)
    requires |w.ledger.balances| == |w.ledger.accounts|
    ensures Grows(w.ledger, Next(w, e).ledger)
  {
    hide Ledger.PostAfterLookup, Ledger.Next, ActStep;
    match e
    case LedgerRun(i, p) => if PostIn(w, i, p, LookedUp) { PostAfterLookupGrows(w.ledger, w.cells[i].posts[p].command); }
    case Outside(le) => NextGrows(w.ledger, le);
    case _ => LedgerUntouched(w, e);
  }

  lemma {:induction false} RunGrows(events: seq<Event>, more: seq<Event>)
    ensures Grows(Run(events).ledger, Run(events + more).ledger)
    decreases |more|
  {
    hide Next;
    if more == [] {
      assert events + more == events;
    } else {
      var before, last := more[..|more| - 1], more[|more| - 1];
      RunGrows(events, before);
      RunStep(events + before, last);
      NextLedgerGrows(Run(events + before), last);
      assert events + before + [last] == events + more;
      GrowsOn(Run(events).ledger, Run(events + before).ledger, Run(events + more).ledger);
    }
  }

  lemma GrowsOn(l: Ledger.Ledger, m: Ledger.Ledger, n: Ledger.Ledger)
    requires Grows(l, m) && Grows(m, n)
    ensures Grows(l, n)
  {
    assert n.journal[..|l.journal|] == n.journal[..|m.journal|][..|l.journal|];
  }

  // ----- a loose end can be followed to its posting -----

  /** Some continuation of the run has the posting. */
  ghost predicate MayPost(events: seq<Event>, id: nat) { exists more: seq<Event> :: Posted(Run(events + more), id) }

  lemma {:induction false} MayPostBefore(events: seq<Event>, first: seq<Event>, id: nat)
    requires MayPost(events + first, id)
    ensures MayPost(events, id)
  {
    hide Run, Posted;
    var more: seq<Event> :| Posted(Run(events + first + more), id);
    assert events + first + more == events + (first + more);
  }

  function Outsides(es: seq<Ledger.Event>): (r: seq<Event>)
    ensures |r| == |es| && forall i :: 0 <= i < |r| ==> r[i] == Outside(es[i])
  {
    seq(|es|, i requires 0 <= i < |es| => Outside(es[i]))
  }

  lemma OutsideStep(w: World, e: Ledger.Event)
    requires |w.ledger.balances| == |w.ledger.accounts| && Payable.Harmless(e, w.cells.Keys)
    ensures Next(w, Outside(e)) == w.(ledger := Ledger.Next(w.ledger, e))
  {
    hide Ledger.Next, ActStep;
  }

  /** Other callers act on the ledger and on nothing else. */
  lemma {:induction false} OutsideRun(events: seq<Event>, es: seq<Ledger.Event>)
    requires forall e :: e in es ==> Payable.Harmless(e, Run(events).cells.Keys)
    ensures Run(events + Outsides(es)) == Run(events).(ledger := Payable.After(Run(events).ledger, es))
    decreases |es|
  {
    hide Run, Next, Ledger.Next, Payable.Harmless;
    if es == [] {
      assert events + Outsides(es) == events;
    } else {
      var before, last := es[..|es| - 1], es[|es| - 1];
      OutsideRun(events, before);
      OutsideStep(Run(events + Outsides(before)), last);
      RunStep(events + Outsides(before), Outside(last));
      assert Payable.Harmless(last, Run(events).cells.Keys);
      assert events + Outsides(before) + [Outside(last)] == events + Outsides(es);
    }
  }

  lemma {:induction false} RunPosts(w: World, id: nat, p: nat)
    requires |w.ledger.balances| == |w.ledger.accounts| && PostIn(w, id, p, LookedUp)
    requires w.cells[id].posts[p].command.reference == id && Payable.Accepts(w.ledger, w.cells[id].posts[p].command)
    ensures Posted(Next(w, LedgerRun(id, p)), id)
  {
    hide Ledger.PostAfterLookup;
    PostAfterLookupGrows(w.ledger, w.cells[id].posts[p].command);
  }

  /** The world with this post past its lookup. */
  lemma LookupPasses(w: World, id: nat, p: nat)
    requires |w.ledger.balances| == |w.ledger.accounts| && PostIn(w, id, p, Sent)
    requires Payable.Accepts(w.ledger, w.cells[id].posts[p].command)
    ensures var w' := Next(w, LedgerLookup(id, p));
      && PostIn(w', id, p, LookedUp) && w'.cells[id].posts[p].command == w.cells[id].posts[p].command && w'.ledger == w.ledger
  {
    hide Ledger.PostAfterLookup;
  }

  lemma {:induction false} LookedUpPosts(events: seq<Event>, id: nat, p: nat)
    requires PostIn(Run(events), id, p, LookedUp) && Run(events).cells[id].posts[p].command.reference == id
    requires Payable.Accepts(Run(events).ledger, Run(events).cells[id].posts[p].command)
    ensures MayPost(events, id)
  {
    hide Run, Posted, Next, Payable.Accepts;
    RunStep(events, LedgerRun(id, p));
    RunPosts(Run(events), id, p);
    assert Posted(Run(events + [LedgerRun(id, p)]), id);
  }

  lemma {:induction false} OutstandingPosts(events: seq<Event>, id: nat, p: nat)
    requires id in Run(events).cells && p in Run(events).cells[id].posts && Outstanding(Run(events).cells[id].posts[p])
    requires Run(events).cells[id].posts[p].command.reference == id
    requires Payable.Accepts(Run(events).ledger, Run(events).cells[id].posts[p].command)
    ensures MayPost(events, id)
  {
    hide Run, Next, Payable.Accepts, MayPost;
    if Run(events).cells[id].posts[p].state.Sent? {
      var e := LedgerLookup(id, p);
      LookupPasses(Run(events), id, p);
      RunStep(events, e);
      LookedUpPosts(events + [e], id, p);
      MayPostBefore(events, [e], id);
    } else {
      LookedUpPosts(events, id, p);
    }
  }

  /** The Account service answers a waiting process() with the client's own wallet and one of somebody else. */
  function Validated(t: Transfer, msg: nat): Choice {
    AccountSays(Wallets(Wallet(t.client, t.sourceCurrency, true, true), Wallet(t.client + 1, t.targetCurrency, true, true)), msg)
  }

  lemma {:induction false} AskedSends(w: World, id: nat, a: nat, msg: nat)
    requires Inv(w) && id in w.cells && a in w.cells[id].acts && w.cells[id].acts[a].AskingAccount? && msg !in w.cells[id].posts
    requires w.cells[id].rows.transfer.targetAmount.Some?
    ensures var t := w.cells[id].rows.transfer;
      var w' := Next(w, Step(id, a, Validated(t, msg)));
      && PostIn(w', id, msg, Sent) && w'.cells[id].posts[msg].command == PostingCommand(id, t) && w'.ledger == w.ledger
  {
    hide LedgerInvariant.Inv, PostsOk, FxCallsOk, PostingsMatch, KeysUnique, QuotesUnique;
    var c := w.cells[id];
    assert CellOk(id, c, w.ledger, w.quotes);
    assert ActOk(id, c.rows, c.acts[a], w.ledger.journal, w.quotes);
  }

  // ----- the theorem -----

  /** The circulation of the target currency stays within the numeric columns; only an FX transfer adds to it. */
  predicate HasRoom(l: Ledger.Ledger, t: Transfer)
    requires |l.balances| == |l.accounts|
  {
    t.kind == International && t.targetAmount.Some? ==>
      Payable.Circulation(l, t.targetCurrency) + t.targetAmount.value < NUMERIC_LIMIT
  }

  /** A loose end belongs to a transfer whose amounts are known, and its command is that of the transfer. */
  lemma {:induction false} EndHasCommand(w: World, id: nat)
    requires Inv(w) && id in w.cells && LooseEnd(w.cells[id])
    ensures var t := w.cells[id].rows.transfer;
      && t.targetAmount.Some? && Payable.MoveCommand(PostingCommand(id, t))
      && (HasRoom(w.ledger, t) ==> Payable.HasRoom(w.ledger, PostingCommand(id, t)))
      && forall p :: p in w.cells[id].posts ==> w.cells[id].posts[p].command == PostingCommand(id, t)
  {
    hide LedgerInvariant.Inv, FxCallsOk, PostingsMatch, KeysUnique, QuotesUnique;
    var c := w.cells[id];
    assert CellOk(id, c, w.ledger, w.quotes);
    forall p | p in c.posts ensures c.rows.transfer.targetAmount.Some? && c.posts[p].command == PostingCommand(id, c.rows.transfer) {
      assert PostOk(id, c.rows.transfer, c.posts[p], w.ledger.journal);
    }
    if a :| a in c.acts && c.acts[a].AskingAccount? { assert ActOk(id, c.rows, c.acts[a], w.ledger.journal, w.quotes); }
  }

  /** On a ledger that accepts its command, any loose end leads to the posting. */
  lemma {:induction false} EndPosts(events: seq<Event>, id: nat)
    requires Inv(Run(events)) && id in Run(events).cells && LooseEnd(Run(events).cells[id])
    requires Run(events).cells[id].rows.transfer.targetAmount.Some?
    requires Payable.Accepts(Run(events).ledger, PostingCommand(id, Run(events).cells[id].rows.transfer))
    requires forall p :: p in Run(events).cells[id].posts ==>
      Run(events).cells[id].posts[p].command == PostingCommand(id, Run(events).cells[id].rows.transfer)
    ensures MayPost(events, id)
  {
    hide Run, Next, Payable.Accepts, MayPost, Inv;
    var w := Run(events);
    var c := w.cells[id];
    if p :| p in c.posts && Outstanding(c.posts[p]) {
      OutstandingPosts(events, id, p);
    } else {
      var a :| a in c.acts && c.acts[a].AskingAccount?;
      var msg := Order.FreshName(c.posts.Keys);
      var e := Step(id, a, Validated(c.rows.transfer, msg));
      AskedSends(w, id, a, msg);
      RunStep(events, e);
      OutstandingPosts(events + [e], id, msg);
      MayPostBefore(events, [e], id);
    }
  }

  lemma InvParts(w: World)
    requires Inv(w)
    ensures |w.ledger.balances| == |w.ledger.accounts| && LedgerInvariant.Inv(w.ledger)
  {
  }

  /** Other callers bring the ledger to accept the command, and then the loose end is followed. */
  lemma {:induction false} EndMayPost(events: seq<Event>, id: nat)
    requires id in Run(events).cells && LooseEnd(Run(events).cells[id]) && !Posted(Run(events), id)
    requires WalletsFit(Run(events).ledger.accounts, Run(events).cells[id].rows.transfer)
    requires HasRoom(Run(events).ledger, Run(events).cells[id].rows.transfer)
    ensures MayPost(events, id)
  {
    hide Run, Next, Payable.Accepts, Payable.MoveCommand, MayPost, Inv, LedgerInvariant.Inv, Payable.WalletFits, HasRoom, Payable.HasRoom,
         Payable.Spares, LooseEnd;
    var w := Run(events);
    ReachableInv(events);
    InvParts(w);
    EndHasCommand(w, id);
    var command := PostingCommand(id, w.cells[id].rows.transfer);
    var l' := Payable.ComesToAccept(w.ledger, command, w.cells.Keys);
    var es: seq<Ledger.Event> :| (forall e :: e in es ==> Payable.Harmless(e, w.cells.Keys)) && Payable.After(w.ledger, es) == l';
    OutsideRun(events, es);
    ReachableInv(events + Outsides(es));
    EndPosts(events + Outsides(es), id);
    MayPostBefore(events, Outsides(es), id);
  }

  lemma {:induction false} PostedLaterFits(events: seq<Event>, more: seq<Event>, id: nat)
    requires id in Run(events).cells && Posted(Run(events + more), id)
    ensures WalletsFit(Run(events).ledger.accounts, Run(events).cells[id].rows.transfer)
  {
    hide Run, Inv, LedgerInvariant.Inv, Grows, Payable.WalletFits;
    var w, w' := Run(events), Run(events + more);
    ReachableInv(events);
    ReachableInv(events + more);
    InvParts(w);
    InvParts(w');
    assert (events + more)[..|events|] == events;
    WorldTheorems.RowsPersist(events + more, |events|, id);
    PostedFits(w', id);
    RunGrows(events, more);
    var t := w.cells[id].rows.transfer;
    FitsBefore(w.ledger, w'.ledger, t.sender, t.sourceCurrency);
    FitsBefore(w.ledger, w'.ledger, t.recipient, t.targetCurrency);
  }

  /**
   * In any reachable system, a FAILED transfer is posted now or in some continuation only if its posting exists, or
   * it has a loose end and neither of its wallets has an account in another currency; and if it has room, exactly then.
   */
  lemma {:induction false} FailedMayPostIff(events: seq<Event>, id: nat)
    requires id in Run(events).cells && Run(events).cells[id].rows.transfer.status == Failed
    ensures var w := Run(events);
      var ready := LooseEnd(w.cells[id]) && WalletsFit(w.ledger.accounts, w.cells[id].rows.transfer);
      && (MayPost(events, id) ==> Posted(w, id) || ready)
      && (HasRoom(w.ledger, w.cells[id].rows.transfer) ==> (MayPost(events, id) <==> Posted(w, id) || ready))
  {
    hide Run, LooseEnd, WalletsFit, HasRoom;
    var w := Run(events);
    if MayPost(events, id) && !Posted(w, id) {
      var more: seq<Event> :| Posted(Run(events + more), id);
      PostedLaterFits(events, more, id);
      if !LooseEnd(w.cells[id]) {
        StaysSettled(events, more, id);
        assert false;
      }
    }
    if Posted(w, id) {
      assert events + [] == events;
      assert Posted(Run(events + []), id);
    } else {
      var t := w.cells[id].rows.transfer;
      if LooseEnd(w.cells[id]) && WalletsFit(w.ledger.accounts, t) && HasRoom(w.ledger, t) { EndMayPost(events, id); }
    }
  }
}
