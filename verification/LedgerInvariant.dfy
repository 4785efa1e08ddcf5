/** What every run of the ledger keeps: conservation, the balance projection and the journal guards. */
module LedgerInvariant {
  import opened Common
  import opened Ledger

  // ----- the invariant -----

  predicate AccountShape(a: Account) {
    || (a.kind == Customer && a.wallet.Some? && a.normal == Credit)
    || (a.kind == FxClearing && a.wallet.None? && a.normal == Debit)
  }

  predicate AccountsOk(accounts: seq<Account>) {
    && (forall i :: 0 <= i < |accounts| ==> AccountShape(accounts[i]))
    && (forall i, j :: 0 <= i < j < |accounts| && accounts[i].kind == Customer && accounts[j].kind == Customer ==>
          accounts[i].wallet != accounts[j].wallet)
    && (forall i, j :: 0 <= i < j < |accounts| && accounts[i].kind == FxClearing && accounts[j].kind == FxClearing ==>
          accounts[i].currency != accounts[j].currency)
  }

  /** An accepted posting: validated, guarded by the row checks and made of lines in their account's currency. */
  ghost predicate PostingOk(accounts: seq<Account>, p: Posting) {
    && Validate(p.body).None? && RowCheck(p.body) && TriggerAccepts(p.body.entries)
    && InRange(accounts, p.body.entries)
    && (forall i :: 0 <= i < |p.body.entries| ==>
          EntryCheck(p.body.entries[i]) && accounts[p.body.entries[i].account].currency == p.body.entries[i].currency)
  }

  ghost predicate PostingsOk(accounts: seq<Account>, journal: seq<Posting>) {
    forall i :: 0 <= i < |journal| ==> PostingOk(accounts, journal[i])
  }

  /** The unique keys of the journal: one posting per reference, one reversal per posting, none of a reversal. */
  predicate JournalKeys(journal: seq<Posting>) {
    && (forall i, j :: 0 <= i < j < |journal| ==> journal[i].body.reference != journal[j].body.reference)
    && (forall i, j :: 0 <= i < j < |journal| && journal[i].body.reverses.Some? ==>
          journal[i].body.reverses != journal[j].body.reverses)
    && (forall i :: 0 <= i < |journal| && journal[i].body.reverses.Some? ==>
          journal[i].body.reverses.value < i && journal[journal[i].body.reverses.value].body.kind != Reversal)
  }

  /** Each balance is the signed fold of the journal, each version the number of postings that touched it. */
  ghost predicate ProjectionOk(l: Ledger) {
    && |l.balances| == |l.accounts|
    && (forall a :: 0 <= a < |l.accounts| ==>
          l.balances[a] == Balance(JournalMovement(l.journal, a, l.accounts[a].normal), TouchCount(l.journal, a)))
  }

  ghost predicate SolventOk(l: Ledger)
    requires |l.balances| == |l.accounts|
  {
    forall a :: 0 <= a < |l.accounts| && l.accounts[a].kind == Customer ==> l.balances[a].value >= 0
  }

  /** What the customers of a currency own is exactly what its clearing account holds. */
  ghost predicate Conserved(accounts: seq<Account>, values: seq<int>)
    requires |values| == |accounts|
  {
    forall c: Currency :: KindTotal(accounts, values, Customer, c) == KindTotal(accounts, values, FxClearing, c)
  }

  ghost predicate Inv(l: Ledger) {
    && AccountsOk(l.accounts) && PostingsOk(l.accounts, l.journal) && JournalKeys(l.journal)
    && ProjectionOk(l) && SolventOk(l) && BalancesFit(Values(l.balances))
    && Conserved(l.accounts, Values(l.balances))
  }

  // ----- entries applied one by one are the signed movement -----

  lemma {:induction false} ApplyIsMovement(accounts: seq<Account>, values: seq<int>, es: seq<Entry>, a: nat)
    requires |values| == |accounts| && InRange(accounts, es) && a < |accounts|
    ensures ApplyEntries(accounts, values, es)[a] == values[a] + Movement(es, a, accounts[a].normal)
  {
    if es != [] { ApplyIsMovement(accounts, values, es[..|es| - 1], a); }
  }

  lemma {:induction false} UntouchedMovement(es: seq<Entry>, a: nat, normal: Side)
    requires !Touches(es, a)
    ensures Movement(es, a, normal) == 0
  {
    if es != [] {
      var prefix := es[..|es| - 1];
      assert !Touches(prefix, a) by {
        forall i | 0 <= i < |prefix| ensures prefix[i].account != a { assert prefix[i] == es[i]; }
      }
      assert es[|es| - 1].account != a;
      UntouchedMovement(prefix, a, normal);
    }
  }

  // ----- conservation -----

  lemma {:induction false} KindTotalUpdate(accounts: seq<Account>, values: seq<int>, i: nat, v: int, k: AccountKind, c: Currency)
    requires |values| == |accounts| && i < |accounts|
    ensures KindTotal(accounts, values[i := v], k, c) ==
            KindTotal(accounts, values, k, c)
            + if accounts[i].kind == k && accounts[i].currency == c then v - values[i] else 0
  {
    var n := |accounts| - 1;
    if i == n {
      assert values[i := v][..n] == values[..n];
    } else {
      assert values[i := v][..n] == values[..n][i := v];
      KindTotalUpdate(accounts[..n], values[..n], i, v, k, c);
    }
  }

  /** Customers minus clearing moves by credits minus debits, whatever the entries are. */
  lemma {:induction false} NetMovement(accounts: seq<Account>, values: seq<int>, es: seq<Entry>, c: Currency)
    requires |values| == |accounts| && InRange(accounts, es)
    requires forall i :: 0 <= i < |accounts| ==> AccountShape(accounts[i])
    requires forall i :: 0 <= i < |es| ==> accounts[es[i].account].currency == es[i].currency
    ensures var next := ApplyEntries(accounts, values, es);
            KindTotal(accounts, next, Customer, c) - KindTotal(accounts, next, FxClearing, c)
            == KindTotal(accounts, values, Customer, c) - KindTotal(accounts, values, FxClearing, c)
               + SideSum(es, c, Credit) - SideSum(es, c, Debit)
  {
    if es != [] {
      var prefix, e := es[..|es| - 1], es[|es| - 1];
      NetMovement(accounts, values, prefix, c);
      var prev := ApplyEntries(accounts, values, prefix);
      var v := prev[e.account] + Delta(accounts[e.account].normal, e);
      KindTotalUpdate(accounts, prev, e.account, v, Customer, c);
      KindTotalUpdate(accounts, prev, e.account, v, FxClearing, c);
      assert AccountShape(accounts[e.account]);
    }
  }

  lemma {:induction false} NextValues(accounts: seq<Account>, balances: seq<Balance>, es: seq<Entry>)
    requires |balances| == |accounts| && InRange(accounts, es)
    ensures Values(NextBalances(accounts, balances, es)) == ApplyEntries(accounts, Values(balances), es)
  {
    var values := ApplyEntries(accounts, Values(balances), es);
    forall a | 0 <= a < |accounts| ensures Values(NextBalances(accounts, balances, es))[a] == values[a] {
      ApplyIsMovement(accounts, Values(balances), es, a);
      if !Touches(es, a) { UntouchedMovement(es, a, accounts[a].normal); }
    }
  }

  // ----- each step keeps the invariant -----

  lemma CommitKeepsKeys(l: Ledger, r: Resolved, h: Hash)
    requires |l.balances| == |l.accounts| && JournalKeys(l.journal) && Commit(l, r, h).Ok?
    requires r.reverses.Some? && r.reverses.value < |l.journal| ==> l.journal[r.reverses.value].body.kind != Reversal
    ensures JournalKeys(Commit(l, r, h).value.journal)
  {
    assert r.reverses.Some? ==> !Reversed(l.journal, r.reverses.value);
  }

  lemma CommitKeepsPostings(l: Ledger, r: Resolved, h: Hash)
    requires |l.balances| == |l.accounts| && PostingsOk(l.accounts, l.journal)
    requires Validate(r).None? && Commit(l, r, h).Ok?
    ensures PostingsOk(l.accounts, Commit(l, r, h).value.journal)
  {
    forall i | 0 <= i < |r.entries| ensures EntryCheck(r.entries[i]) && l.accounts[r.entries[i].account].currency == r.entries[i].currency {
      assert EntryAllowed(l.accounts, r.kind, r.entries[i]);
    }
    assert PostingOk(l.accounts, Posting(h, r));
  }

  /** The balance of account `a` after one more posting, whatever the posting is. */
  lemma {:induction false} ProjectionStep(l: Ledger, p: Posting, a: nat)
    requires ProjectionOk(l) && InRange(l.accounts, p.body.entries) && a < |l.accounts|
    ensures NextBalances(l.accounts, l.balances, p.body.entries)[a] ==
            Balance(JournalMovement(l.journal + [p], a, l.accounts[a].normal), TouchCount(l.journal + [p], a))
  {
    assert (l.journal + [p])[..|l.journal|] == l.journal;
    ApplyIsMovement(l.accounts, Values(l.balances), p.body.entries, a);
    if !Touches(p.body.entries, a) { UntouchedMovement(p.body.entries, a, l.accounts[a].normal); }
  }

  lemma CommitKeepsSolvency(l: Ledger, r: Resolved, h: Hash)
    requires |l.balances| == |l.accounts| && SolventOk(l) && Commit(l, r, h).Ok?
    ensures SolventOk(Commit(l, r, h).value)
  {
    var next := ApplyEntries(l.accounts, Values(l.balances), r.entries);
    assert Solvent(l.accounts, next, r.entries);
  }

  lemma CommitConserves(l: Ledger, r: Resolved, h: Hash)
    requires |l.balances| == |l.accounts| && AccountsOk(l.accounts) && Commit(l, r, h).Ok?
    requires Conserved(l.accounts, Values(l.balances))
    ensures Conserved(l.accounts, Values(Commit(l, r, h).value.balances))
  {
    var next := ApplyEntries(l.accounts, Values(l.balances), r.entries);
    NextValues(l.accounts, l.balances, r.entries);
    forall c: Currency ensures KindTotal(l.accounts, next, Customer, c) == KindTotal(l.accounts, next, FxClearing, c) {
      forall i | 0 <= i < |r.entries| ensures l.accounts[r.entries[i].account].currency == r.entries[i].currency {
        assert EntryAllowed(l.accounts, r.kind, r.entries[i]);
      }
      NetMovement(l.accounts, Values(l.balances), r.entries, c);
      assert SideSum(r.entries, c, Debit) == SideSum(r.entries, c, Credit);
    }
  }

  /** One committed posting: journal, projection, solvency and conservation together. */
  lemma CommitKeepsInv(l: Ledger, r: Resolved, h: Hash)
    requires Inv(l) && Validate(r).None? && Commit(l, r, h).Ok?
    requires r.reverses.Some? && r.reverses.value < |l.journal| ==> l.journal[r.reverses.value].body.kind != Reversal
    ensures Inv(Commit(l, r, h).value)
  {
    CommitKeepsKeys(l, r, h);
    CommitKeepsPostings(l, r, h);
    CommitKeepsSolvency(l, r, h);
    CommitConserves(l, r, h);
    NextValues(l.accounts, l.balances, r.entries);
    forall a | 0 <= a < |l.accounts| { ProjectionStep(l, Posting(h, r), a); }
  }

  lemma PostAndSettleKeepsInv(l: Ledger, r: Resolved, h: Hash)
    requires Inv(l)
    requires r.reverses.Some? && r.reverses.value < |l.journal| ==> l.journal[r.reverses.value].body.kind != Reversal
    ensures Inv(PostAndSettle(l, r, h).0)
  {
    if PostResolved(l, r, h).Ok? { CommitKeepsInv(l, r, h); }
  }

  lemma {:induction false} FreshAccountUnused(journal: seq<Posting>, accounts: seq<Account>, normal: Side)
    requires forall i :: 0 <= i < |journal| ==> InRange(accounts, journal[i].body.entries)
    ensures JournalMovement(journal, |accounts|, normal) == 0 && TouchCount(journal, |accounts|) == 0
  {
    if journal != [] {
      var n := |journal| - 1;
      assert InRange(accounts, journal[n].body.entries);
      UntouchedMovement(journal[n].body.entries, |accounts|, normal);
      FreshAccountUnused(journal[..n], accounts, normal);
    }
  }

  /** Opening an account with a zero balance disturbs nothing. */
  lemma OpenKeepsInv(l: Ledger, a: Account)
    requires Inv(l) && AccountShape(a)
    requires a.kind == Customer ==> FindWallet(l.accounts, a.wallet.value).None?
    requires a.kind == FxClearing ==> FindClearing(l.accounts, a.currency).None?
    ensures Inv(Ledger(l.accounts + [a], l.balances + [Balance(0, 0)], l.journal))
  {
    var l' := Ledger(l.accounts + [a], l.balances + [Balance(0, 0)], l.journal);
    OpenKeepsPostings(l.accounts, a, l.journal);
    OpenKeepsAccounts(l.accounts, a);
    OpenKeepsProjection(l, a);
    OpenConserves(l.accounts, Values(l.balances), a);
    assert Values(l'.balances) == Values(l.balances) + [0];
  }

  lemma {:induction false} OpenKeepsAccounts(accounts: seq<Account>, a: Account)
    requires AccountsOk(accounts) && AccountShape(a)
    requires a.kind == Customer ==> FindWallet(accounts, a.wallet.value).None?
    requires a.kind == FxClearing ==> FindClearing(accounts, a.currency).None?
    ensures AccountsOk(accounts + [a])
  {
  }

  lemma OpenKeepsProjection(l: Ledger, a: Account)
    requires ProjectionOk(l) && SolventOk(l)
    requires forall i :: 0 <= i < |l.journal| ==> InRange(l.accounts, l.journal[i].body.entries)
    ensures var l' := Ledger(l.accounts + [a], l.balances + [Balance(0, 0)], l.journal); ProjectionOk(l') && SolventOk(l')
  {
    FreshAccountUnused(l.journal, l.accounts, a.normal);
  }

  lemma {:induction false} OpenKeepsPostings(accounts: seq<Account>, a: Account, journal: seq<Posting>)
    requires PostingsOk(accounts, journal)
    ensures PostingsOk(accounts + [a], journal)
    ensures forall i :: 0 <= i < |journal| ==> InRange(accounts, journal[i].body.entries)
  {
    forall i | 0 <= i < |journal| ensures PostingOk(accounts + [a], journal[i]) && InRange(accounts, journal[i].body.entries) {
      assert PostingOk(accounts, journal[i]);
    }
  }

  lemma {:induction false} OpenConserves(accounts: seq<Account>, values: seq<int>, a: Account)
    requires |values| == |accounts| && Conserved(accounts, values)
    ensures Conserved(accounts + [a], values + [0])
  {
    assert (accounts + [a])[..|accounts|] == accounts && (values + [0])[..|accounts|] == values;
    forall c: Currency
      ensures KindTotal(accounts + [a], values + [0], Customer, c) == KindTotal(accounts + [a], values + [0], FxClearing, c)
    {
      assert KindTotal(accounts, values, Customer, c) == KindTotal(accounts, values, FxClearing, c);
    }
  }

  lemma EnsureClearingKeepsInv(l: Ledger, c: Currency)
    requires Inv(l)
    ensures Inv(EnsureClearing(l, c))
  {
    if FindClearing(l.accounts, c).None? { OpenKeepsInv(l, Account(None, FxClearing, c, Debit, Active)); }
  }

  lemma {:induction false} StatusIrrelevant(xs: seq<Account>, ys: seq<Account>, values: seq<int>, k: AccountKind, c: Currency)
    requires |xs| == |ys| == |values|
    requires forall i :: 0 <= i < |xs| ==> xs[i].kind == ys[i].kind && xs[i].currency == ys[i].currency
    ensures KindTotal(xs, values, k, c) == KindTotal(ys, values, k, c)
  {
    if xs != [] { StatusIrrelevant(xs[..|xs| - 1], ys[..|ys| - 1], values[..|xs| - 1], k, c); }
  }

  lemma SetStatusKeepsInv(l: Ledger, a: nat, s: AccountStatus)
    requires Inv(l)
    ensures Inv(Next(l, DoSetStatus(a, s)))
  {
    hide Validate, RowCheck, TriggerAccepts;
    var l' := Next(l, DoSetStatus(a, s));
    forall i | 0 <= i < |l.journal| ensures PostingOk(l'.accounts, l'.journal[i]) {
      assert PostingOk(l.accounts, l.journal[i]);
    }
    forall c: Currency
      ensures KindTotal(l'.accounts, Values(l'.balances), Customer, c) == KindTotal(l'.accounts, Values(l'.balances), FxClearing, c)
    {
      StatusIrrelevant(l.accounts, l'.accounts, Values(l.balances), Customer, c);
      StatusIrrelevant(l.accounts, l'.accounts, Values(l.balances), FxClearing, c);
      assert KindTotal(l.accounts, Values(l.balances), Customer, c) == KindTotal(l.accounts, Values(l.balances), FxClearing, c);
    }
  }

  lemma PostAfterLookupKeepsInv(l: Ledger, c: Command)
    requires Inv(l)
    ensures Inv(PostAfterLookup(l, c).0)
  {
    if WalletsKnown(l.accounts, c.lines) && LinesUsable(l.accounts, c.lines) {
      if c.kind == FxTransfer {
        EnsureClearingKeepsInv(l, c.sourceCurrency);
        EnsureClearingKeepsInv(EnsureClearing(l, c.sourceCurrency), c.targetCurrency);
      }
      WithClearingFacts(l, c);
      var l1 := WithClearing(l, c);
      PostAndSettleKeepsInv(l1, Resolve(l1.accounts, c), CommandHash(c));
    }
  }

  lemma FundKeepsInv(l: Ledger, reference: nat, wallet: nat, amount: int, c: Currency)
    requires Inv(l)
    ensures Inv(Fund(l, reference, wallet, amount, c).0)
  {
    hide Inv, PostAndSettle;
    var a := FindWallet(l.accounts, wallet);
    if a.Some? {
      EnsureClearingKeepsInv(l, c);
      var l1 := EnsureClearing(l, c);
      var r := FundingPosting(FindClearing(l1.accounts, c).value, a.value, reference, amount, c);
      PostAndSettleKeepsInv(l1, r, FundingHash(reference, wallet, amount, c));
    }
  }

  /** Every ledger event, late commits and reversals included, keeps the invariant. */
  lemma NextKeepsInv(l: Ledger, e: Event)
    requires Inv(l)
    ensures Inv(Next(l, e))
  {
    match e
    case DoProvision(w, c) =>
      if FindWallet(l.accounts, w).None? { OpenKeepsInv(l, Account(Some(w), Customer, c, Credit, Active)); }
    case DoSetStatus(a, s) => SetStatusKeepsInv(l, a, s);
    case DoFund(r, w, amount, c) => FundKeepsInv(l, r, w, amount, c);
    case DoPost(c) => PostAfterLookupKeepsInv(l, c);
    case DoLatePost(c) => PostAfterLookupKeepsInv(l, c);
    case DoReverse(id, r) =>
      if id < |l.journal| && l.journal[id].body.kind != Reversal {
        PostAndSettleKeepsInv(l, ReversalOf(l.journal[id], id, r), ReversalHash(id, r));
      }
  }

  lemma NextSizes(l: Ledger, e: Event)
    requires |l.balances| == |l.accounts|
    ensures |Next(l, e).balances| == |Next(l, e).accounts|
  {
    match e
    case DoReverse(id, r) =>
    case DoFund(r, w, amount, c) =>
    case DoPost(c) => WithClearingSizes(l, c);
    case DoLatePost(c) => WithClearingSizes(l, c);
    case _ =>
  }

  lemma WithClearingSizes(l: Ledger, c: Command)
    requires |l.balances| == |l.accounts|
    ensures |PostAfterLookup(l, c).0.balances| == |PostAfterLookup(l, c).0.accounts|
  {
    if WalletsKnown(l.accounts, c.lines) { WithClearingFacts(l, c); }
  }

  ghost function Run(events: seq<Event>): (l: Ledger)
    ensures |l.balances| == |l.accounts|
  {
    if events == [] then EMPTY else
      var l := Run(events[..|events| - 1]);
      NextSizes(l, events[|events| - 1]);
      Next(l, events[|events| - 1])
  }

  /** Conservation, solvency and the exact projection hold in every state the ledger can reach. */
  lemma {:induction false} ReachableInv(events: seq<Event>)
    ensures Inv(Run(events))
  {
    if events != [] {
      ReachableInv(events[..|events| - 1]);
      NextKeepsInv(Run(events[..|events| - 1]), events[|events| - 1]);
    }
  }

  // ----- the invariant monitor -----

  /** The groups the monitor's query reports for one posting; a posting without lines forms one group. */
  ghost predicate Violates(p: Posting, c: Currency) {
    if p.body.entries == [] then c == p.body.sourceCurrency
    else MentionsCurrency(p.body.entries, c) && SideSum(p.body.entries, c, Debit) != SideSum(p.body.entries, c, Credit)
  }

  lemma {:induction false} UnmentionedSum(es: seq<Entry>, c: Currency, s: Side)
    requires !MentionsCurrency(es, c)
    ensures SideSum(es, c, s) == 0
  {
    if es != [] {
      var prefix := es[..|es| - 1];
      forall i | 0 <= i < |prefix| ensures prefix[i].currency != c { assert prefix[i] == es[i]; }
      assert es[|es| - 1].currency != c;
      UnmentionedSum(prefix, c, s);
    }
  }

  lemma {:induction false} SingleLineUnbalanced(es: seq<Entry>)
    requires |es| == 1 ==> es[0].amount > 0
    ensures |es| == 1 ==> !Balanced(es)
  {
    if |es| == 1 {
      assert es[..0] == [];
      assert SideSum(es, es[0].currency, Debit) != SideSum(es, es[0].currency, Credit);
    }
  }

  /** With positive amounts the monitor's grouped test and the deferred trigger accept the same postings. */
  lemma MonitorAgreesWithTrigger(p: Posting)
    requires forall i :: 0 <= i < |p.body.entries| ==> p.body.entries[i].amount > 0
    ensures (forall c: Currency :: !Violates(p, c)) <==> TriggerAccepts(p.body.entries)
  {
    var es := p.body.entries;
    if forall c: Currency :: !Violates(p, c) {
      assert es != [] by { assert !Violates(p, p.body.sourceCurrency); }
      forall c: Currency ensures SideSum(es, c, Debit) == SideSum(es, c, Credit) {
        assert !Violates(p, c);
        if !MentionsCurrency(es, c) { UnmentionedSum(es, c, Debit); UnmentionedSum(es, c, Credit); }
      }
      SingleLineUnbalanced(es);
    }
  }

  /** verify() finds nothing in any reachable ledger. */
  lemma {:induction false} ReachableHasNoViolation(events: seq<Event>, i: nat, c: Currency)
    requires i < |Run(events).journal|
    ensures !Violates(Run(events).journal[i], c)
  {
    ReachableInv(events);
    assert PostingOk(Run(events).accounts, Run(events).journal[i]);
    MonitorAgreesWithTrigger(Run(events).journal[i]);
  }

  // ----- reversals -----

  lemma {:induction false} SwapSums(es: seq<Entry>, c: Currency, s: Side)
    ensures SideSum(SwapAll(es), c, s) == SideSum(es, c, Opposite(s))
  {
    if es != [] {
      assert SwapAll(es)[..|es| - 1] == SwapAll(es[..|es| - 1]);
      SwapSums(es[..|es| - 1], c, s);
    }
  }

  lemma {:induction false} SwapCancels(es: seq<Entry>, a: nat, normal: Side)
    ensures Movement(es, a, normal) + Movement(SwapAll(es), a, normal) == 0
  {
    if es != [] {
      assert SwapAll(es)[..|es| - 1] == SwapAll(es[..|es| - 1]);
      SwapCancels(es[..|es| - 1], a, normal);
    }
  }

  /** The direction-swapped reversal of any posting in the journal passes validation and every database check. */
  lemma {:induction false} ReversalAlwaysValid(accounts: seq<Account>, p: Posting, id: nat, reference: nat)
    requires PostingOk(accounts, p) && p.body.kind != Reversal
    ensures Validate(ReversalOf(p, id, reference)).None?
    ensures RowCheck(ReversalOf(p, id, reference)) && PostingOk(accounts, Posting(ReversalHash(id, reference), ReversalOf(p, id, reference)))
    ensures forall a: nat, s: Side :: Movement(p.body.entries, a, s) + Movement(ReversalOf(p, id, reference).entries, a, s) == 0
  {
    var r := ReversalOf(p, id, reference);
    var es := p.body.entries;
    forall c: Currency ensures SideSum(r.entries, c, Debit) == SideSum(r.entries, c, Credit) {
      SwapSums(es, c, Debit);
      SwapSums(es, c, Credit);
      assert SideSum(es, c, Debit) == SideSum(es, c, Credit);
    }
    SwapSums(es, r.sourceCurrency, Debit);
    SwapSums(es, r.targetCurrency, Credit);
    assert TotalsMatch(r) by {
      var i :| 0 <= i < |es| && es[i].currency == r.sourceCurrency;
      var j :| 0 <= j < |es| && es[j].currency == r.targetCurrency;
      assert r.entries[i].currency == r.sourceCurrency && r.entries[j].currency == r.targetCurrency;
      assert SideSum(es, r.sourceCurrency, Debit) == SideSum(es, r.sourceCurrency, Credit);
      assert SideSum(es, r.targetCurrency, Debit) == SideSum(es, r.targetCurrency, Credit);
    }
    forall a: nat, s: Side ensures Movement(es, a, s) + Movement(r.entries, a, s) == 0 { SwapCancels(es, a, s); }
  }

  /** A posting has at most one reversal, the reversal cancels it everywhere, and a reversal is never reversed. */
  lemma {:induction false} ReversalsInReachable(events: seq<Event>, i: nat, j: nat)
    requires i < |Run(events).journal| && Run(events).journal[i].body.reverses == Some(j)
    ensures j < i && Run(events).journal[j].body.kind != Reversal
    ensures forall k :: 0 <= k < |Run(events).journal| && Run(events).journal[k].body.reverses == Some(j) ==> k == i
    ensures forall k :: 0 <= k < |Run(events).journal| ==> Run(events).journal[k].body.reverses != Some(i)
  {
    ReachableInv(events);
    var journal := Run(events).journal;
    assert PostingOk(Run(events).accounts, journal[i]);
    assert RowCheck(journal[i].body);
  }

  // ----- the shape of FX and same-currency postings -----

  lemma {:induction false} SumOfConcat(xs: seq<Entry>, ys: seq<Entry>, c: Currency, s: Side)
    ensures SideSum(xs + ys, c, s) == SideSum(xs, c, s) + SideSum(ys, c, s)
  {
    if ys == [] {
      assert xs + ys == xs;
    } else {
      assert (xs + ys)[..|xs + ys| - 1] == xs + ys[..|ys| - 1];
      SumOfConcat(xs, ys[..|ys| - 1], c, s);
    }
  }

  lemma {:induction false} PositiveSumZero(es: seq<Entry>, c: Currency, s: Side)
    requires forall i :: 0 <= i < |es| ==> es[i].amount > 0
    ensures SideSum(es, c, s) >= 0
    ensures SideSum(es, c, s) == 0 ==> forall i :: 0 <= i < |es| ==> !(es[i].currency == c && es[i].side == s)
  {
    if es != [] {
      var prefix := es[..|es| - 1];
      PositiveSumZero(prefix, c, s);
      if SideSum(es, c, s) == 0 {
        forall i | 0 <= i < |es| ensures !(es[i].currency == c && es[i].side == s) {
          if i < |prefix| { assert prefix[i] == es[i]; }
        }
      }
    }
  }

  lemma {:induction false} ClearingSums(accounts: seq<Account>, c: Command)
    requires FindClearing(accounts, c.sourceCurrency).Some? && FindClearing(accounts, c.targetCurrency).Some?
    requires c.sourceCurrency != c.targetCurrency
    ensures var legs := ClearingEntries(accounts, c);
      && SideSum(legs, c.sourceCurrency, Credit) == c.sourceAmount && SideSum(legs, c.sourceCurrency, Debit) == 0
      && SideSum(legs, c.targetCurrency, Debit) == c.targetAmount && SideSum(legs, c.targetCurrency, Credit) == 0
  {
    var legs := ClearingEntries(accounts, c);
    assert legs == [legs[0]] + [legs[1]];
    forall d: Currency, s: Side ensures SideSum(legs, d, s) == SideSum([legs[0]], d, s) + SideSum([legs[1]], d, s) {
      SumOfConcat([legs[0]], [legs[1]], d, s);
    }
  }

  /**
   * However many customer lines an accepted FX transfer has, those in the source currency are debits that
   * total the source amount and those in the target currency are credits that total the target amount.
   */
  lemma {:induction false} FxCustomerShape(accounts: seq<Account>, c: Command)
    requires c.kind == FxTransfer && FxShape(c) && WalletsKnown(accounts, c.lines)
    requires FindClearing(accounts, c.sourceCurrency).Some? && FindClearing(accounts, c.targetCurrency).Some?
    requires Validate(Resolve(accounts, c)).None?
    requires forall i :: 0 <= i < |c.lines| ==> c.lines[i].amount > 0
    ensures forall i :: 0 <= i < |c.lines| && c.lines[i].currency == c.sourceCurrency ==> c.lines[i].side == Debit
    ensures forall i :: 0 <= i < |c.lines| && c.lines[i].currency == c.targetCurrency ==> c.lines[i].side == Credit
    ensures SideSum(CustomerEntries(accounts, c), c.sourceCurrency, Debit) == c.sourceAmount
    ensures SideSum(CustomerEntries(accounts, c), c.targetCurrency, Credit) == c.targetAmount
  {
    var xs, ys := CustomerEntries(accounts, c), ClearingEntries(accounts, c);
    ClearingSums(accounts, c);
    var es := Resolve(accounts, c).entries;
    assert es == xs + ys;
    assert SideSum(es, c.sourceCurrency, Debit) == SideSum(es, c.sourceCurrency, Credit);
    assert SideSum(es, c.targetCurrency, Debit) == SideSum(es, c.targetCurrency, Credit);
    SumOfConcat(xs, ys, c.sourceCurrency, Debit);
    SumOfConcat(xs, ys, c.sourceCurrency, Credit);
    SumOfConcat(xs, ys, c.targetCurrency, Debit);
    SumOfConcat(xs, ys, c.targetCurrency, Credit);
    PositiveSumZero(xs, c.sourceCurrency, Credit);
    PositiveSumZero(xs, c.targetCurrency, Debit);
    forall i | 0 <= i < |c.lines| && c.lines[i].currency == c.sourceCurrency ensures c.lines[i].side == Debit {
      assert xs[i].side == c.lines[i].side;
    }
    forall i | 0 <= i < |c.lines| && c.lines[i].currency == c.targetCurrency ensures c.lines[i].side == Credit {
      assert xs[i].side == c.lines[i].side;
    }
  }

  /** In one currency the two metadata amounts of an accepted posting are the same amount. */
  lemma SameCurrencyAmountsAgree(r: Resolved)
    requires Validate(r).None? && r.sourceCurrency == r.targetCurrency
    ensures r.sourceAmount == r.targetAmount
  {
    assert SideSum(r.entries, r.sourceCurrency, Debit) == SideSum(r.entries, r.sourceCurrency, Credit);
  }
}
