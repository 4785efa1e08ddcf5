/** What one accepted command does to the balances: the wallets it names move by its amounts, and no other customer moves. */
module Effects {
  import opened Common
  import opened Ledger
  import opened LedgerGrowth
  import LedgerInvariant
  import Transfers

  lemma {:induction false} MovementPlus(es: seq<Entry>, e: Entry, a: nat, normal: Side)
    ensures Movement(es + [e], a, normal) == Movement(es, a, normal) + if e.account == a then Delta(normal, e) else 0
  {
    assert (es + [e])[..|es|] == es;
  }

  lemma {:induction false} MovementOfTwo(x: Entry, y: Entry, a: nat, normal: Side)
    ensures Movement([x, y], a, normal) ==
      (if x.account == a then Delta(normal, x) else 0) + if y.account == a then Delta(normal, y) else 0
  {
    MovementPlus([], x, a, normal);
    MovementPlus([x], y, a, normal);
    assert [] + [x] == [x] && [x] + [y] == [x, y];
  }

  lemma {:induction false} MovementElsewhere(es: seq<Entry>, more: seq<Entry>, a: nat, normal: Side)
    requires !Touches(more, a)
    ensures Movement(es + more, a, normal) == Movement(es, a, normal)
  {
    if more == [] {
      assert es + more == es;
    } else {
      var n := |more| - 1;
      assert es + more == es + more[..n] + [more[n]];
      assert more[n].account != a;
      assert !Touches(more[..n], a) by { forall i | 0 <= i < n ensures more[..n][i].account != a { assert more[..n][i] == more[i]; } }
      MovementElsewhere(es, more[..n], a, normal);
      MovementPlus(es + more[..n], more[n], a, normal);
    }
  }

  /** A committed posting moves every account by exactly its signed entries. */
  lemma {:induction false} CommitEffect(l: Ledger, r: Resolved, h: Hash, a: nat)
    requires |l.balances| == |l.accounts| && Commit(l, r, h).Ok? && a < |l.accounts|
    ensures |Commit(l, r, h).value.balances| == |l.balances|
    ensures Commit(l, r, h).value.balances[a].value == l.balances[a].value + Movement(r.entries, a, l.accounts[a].normal)
  {
    var l' := Commit(l, r, h).value;
    LedgerInvariant.NextValues(l.accounts, l.balances, r.entries);
    LedgerInvariant.ApplyIsMovement(l.accounts, Values(l.balances), r.entries, a);
    assert Values(l'.balances)[a] == l'.balances[a].value;
  }

  lemma {:induction false} GrownIsCommitted(l: Ledger, r: Resolved, h: Hash)
    requires |l.balances| == |l.accounts| && PostAndSettle(l, r, h).0.journal != l.journal
    ensures Commit(l, r, h).Ok? && PostAndSettle(l, r, h).0 == Commit(l, r, h).value
  {
    hide Validate, Commit;
  }

  lemma {:induction false} ClearingKeepsCustomers(l: Ledger, c: Command, a: nat)
    requires |l.balances| == |l.accounts| && a < |l.accounts|
    ensures a < |WithClearing(l, c).accounts|
    ensures WithClearing(l, c).accounts[a] == l.accounts[a] && WithClearing(l, c).balances[a] == l.balances[a]
  {
  }

  /** A new posting of a two-line command moves every customer account by its two lines; the clearing legs move no customer. */
  lemma {:induction false} PostEffect(l: Ledger, c: Command, a: nat)
    requires |l.balances| == |l.accounts| && |c.lines| == 2 && a < |l.accounts| && l.accounts[a].kind == Customer
    requires PostAfterLookup(l, c).0.journal != l.journal
    ensures WalletsKnown(l.accounts, c.lines) && a < |PostAfterLookup(l, c).0.balances|
    ensures var x, y := FindWallet(l.accounts, c.lines[0].wallet).value, FindWallet(l.accounts, c.lines[1].wallet).value;
      var es := CustomerEntries(l.accounts, c);
      PostAfterLookup(l, c).0.balances[a].value == l.balances[a].value
        + (if x == a then Delta(l.accounts[a].normal, es[0]) else 0) + if y == a then Delta(l.accounts[a].normal, es[1]) else 0
  {
    hide Validate, FindWallet, FindClearing, EnsureClearing, Commit;
    if WalletsKnown(l.accounts, c.lines) && LinesUsable(l.accounts, c.lines) {
      WithClearingFacts(l, c);
      ClearingKeepsCustomers(l, c, a);
      WithClearingGrows(l, c);
      var l1 := WithClearing(l, c);
      GrownIsCommitted(l1, Resolve(l1.accounts, c), CommandHash(c));
      SameCustomerEntries(l, c);
      var es := CustomerEntries(l1.accounts, c);
      var legs := if c.kind == FxTransfer then ClearingEntries(l1.accounts, c) else [];
      CommitEffect(l1, Resolve(l1.accounts, c), CommandHash(c), a);
      assert !Touches(legs, a);
      MovementElsewhere(es, legs, a, l.accounts[a].normal);
      assert es == [es[0], es[1]];
      MovementOfTwo(es[0], es[1], a, l.accounts[a].normal);
    }
  }

  lemma {:induction false} SameCustomerEntries(l: Ledger, c: Command)
    requires |l.balances| == |l.accounts| && WalletsKnown(l.accounts, c.lines) && WalletsKnown(WithClearing(l, c).accounts, c.lines)
    ensures CustomerEntries(WithClearing(l, c).accounts, c) == CustomerEntries(l.accounts, c)
  {
    if c.kind == FxTransfer {
      forall i | 0 <= i < |c.lines|
        ensures FindWallet(WithClearing(l, c).accounts, c.lines[i].wallet) == FindWallet(l.accounts, c.lines[i].wallet)
      {
        EnsureClearingWallets(l, c.sourceCurrency, c.lines[i].wallet);
        EnsureClearingWallets(EnsureClearing(l, c.sourceCurrency), c.targetCurrency, c.lines[i].wallet);
      }
    }
  }

  /**
   * When a transfer is posted, in one currency or through clearing, its sender loses the source amount, its recipient
   * gains the target amount, and every other customer keeps what it had.
   */
  lemma TransferEffect(l: Ledger, id: nat, t: Transfers.Transfer, a: nat)
    requires LedgerInvariant.Inv(l) && t.targetAmount.Some? && t.sender != t.recipient
    requires a < |l.accounts| && l.accounts[a].kind == Customer
    requires PostAfterLookup(l, Transfers.PostingCommand(id, t)).0.journal != l.journal
    ensures a < |PostAfterLookup(l, Transfers.PostingCommand(id, t)).0.balances|
    ensures PostAfterLookup(l, Transfers.PostingCommand(id, t)).0.balances[a].value ==
      if l.accounts[a].wallet == Some(t.sender) then l.balances[a].value - t.sourceAmount
      else if l.accounts[a].wallet == Some(t.recipient) then l.balances[a].value + t.targetAmount.value
      else l.balances[a].value
  {
    var c := Transfers.PostingCommand(id, t);
    PostEffect(l, c, a);
    WalletAccount(l.accounts, t.sender, a);
    WalletAccount(l.accounts, t.recipient, a);
    assert LedgerInvariant.AccountShape(l.accounts[a]);
  }

  /** A wallet has one account. */
  lemma {:induction false} WalletAccount(accounts: seq<Account>, wallet: nat, a: nat)
    requires LedgerInvariant.AccountsOk(accounts) && a < |accounts| && accounts[a].kind == Customer && FindWallet(accounts, wallet).Some?
    ensures accounts[a].wallet == Some(wallet) <==> FindWallet(accounts, wallet).value == a
  {
    var f := FindWallet(accounts, wallet).value;
    assert LedgerInvariant.AccountShape(accounts[f]);
  }

  /** Funding credits the wallet and grows the clearing account by the same amount. */
  lemma FundEffect(l: Ledger, reference: nat, wallet: nat, amount: int, c: Currency, a: nat)
    requires LedgerInvariant.Inv(l) && a < |l.accounts| && l.accounts[a].kind == Customer
    requires Fund(l, reference, wallet, amount, c).0.journal != l.journal
    ensures a < |Fund(l, reference, wallet, amount, c).0.balances|
    ensures Fund(l, reference, wallet, amount, c).0.balances[a].value
         == l.balances[a].value + if l.accounts[a].wallet == Some(wallet) then amount else 0
  {
    hide Validate, FindWallet, FindClearing, Commit;
    if FindWallet(l.accounts, wallet).Some? {
      var l1 := EnsureClearing(l, c);
      var r := FundingPosting(FindClearing(l1.accounts, c).value, FindWallet(l.accounts, wallet).value, reference, amount, c);
      CommitEffect(l1, r, FundingHash(reference, wallet, amount, c), a);
      MovementOfTwo(r.entries[0], r.entries[1], a, l.accounts[a].normal);
      assert r.entries == [r.entries[0], r.entries[1]];
      WalletAccount(l.accounts, wallet, a);
      assert LedgerInvariant.AccountShape(l.accounts[a]);
    }
  }
}
