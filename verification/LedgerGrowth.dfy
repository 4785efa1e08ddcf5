/** How the ledger may grow: the journal and the owners of accounts are append-only. */
module LedgerGrowth {
  import opened Common
  import opened Ledger

  predicate SameOwner(a: Account, b: Account) {
    a.wallet == b.wallet && a.kind == b.kind && a.currency == b.currency && a.normal == b.normal
  }

  predicate Grows(l: Ledger, l': Ledger) {
    && |l'.balances| == |l'.accounts|
    && |l.accounts| <= |l'.accounts|
    && (forall i :: 0 <= i < |l.accounts| ==> SameOwner(l.accounts[i], l'.accounts[i]))
    && |l.journal| <= |l'.journal| && l'.journal[..|l.journal|] == l.journal
  }

  /** Everything new in the journal carries this reference. */
  predicate NewUnder(l: Ledger, l': Ledger, reference: nat) {
    forall i :: |l.journal| <= i < |l'.journal| ==> l'.journal[i].body.reference == reference
  }

  lemma EnsureClearingGrows(l: Ledger, c: Currency)
    requires |l.balances| == |l.accounts|
    ensures Grows(l, EnsureClearing(l, c)) && EnsureClearing(l, c).journal == l.journal
  {
  }

  lemma PostAndSettleGrows(l: Ledger, r: Resolved, h: Hash)
    requires |l.balances| == |l.accounts|
    ensures var (l', answer) := PostAndSettle(l, r, h);
      && Grows(l, l')
      && (l'.journal == l.journal || (l'.journal == l.journal + [Posting(h, r)] && answer == Ok(|l.journal|)
                                      && FindReference(l.journal, r.reference).None?))
      && (answer.Ok? ==> answer.value < |l'.journal| && l'.journal[answer.value].body.reference == r.reference
                         && l'.journal[answer.value].hash == h)
  {
  }

  lemma WithClearingGrows(l: Ledger, c: Command)
    requires |l.balances| == |l.accounts|
    ensures Grows(l, WithClearing(l, c)) && WithClearing(l, c).journal == l.journal
  {
    if c.kind == FxTransfer {
      EnsureClearingGrows(l, c.sourceCurrency);
      EnsureClearingGrows(EnsureClearing(l, c.sourceCurrency), c.targetCurrency);
    }
  }

  /** What one commit of a post adds to the journal. */
  ghost predicate Added(l: Ledger, l': Ledger, c: Command, answer: Result<nat, Failure>) {
    && WalletsKnown(l'.accounts, c.lines)
    && (c.kind == FxTransfer ==> FindClearing(l'.accounts, c.sourceCurrency).Some? && FindClearing(l'.accounts, c.targetCurrency).Some?)
    && l'.journal == l.journal + [Posting(CommandHash(c), Resolve(l'.accounts, c))]
    && answer == Ok(|l.journal|) && FindReference(l.journal, c.reference).None?
    && Validate(Resolve(l'.accounts, c)).None?
  }

  predicate AnswersOwn(l: Ledger, c: Command, answer: Result<nat, Failure>) {
    answer.Ok? ==>
      && answer.value < |l.journal| && l.journal[answer.value].body.reference == c.reference
      && l.journal[answer.value].hash == CommandHash(c)
  }

  /** A post adds at most one posting, only under a reference not used before, and answers with a posting of its own hash. */
  lemma PostAfterLookupGrows(l: Ledger, c: Command)
    requires |l.balances| == |l.accounts|
    ensures var (l', answer) := PostAfterLookup(l, c);
      Grows(l, l') && (l'.journal == l.journal || Added(l, l', c, answer)) && AnswersOwn(l', c, answer)
  {
    if WalletsKnown(l.accounts, c.lines) && LinesUsable(l.accounts, c.lines) {
      WithClearingFacts(l, c);
      WithClearingGrows(l, c);
      ResolvedGrows(l, WithClearing(l, c), c);
    }
  }

  lemma ResolvedGrows(l: Ledger, l1: Ledger, c: Command)
    requires |l1.balances| == |l1.accounts| && Grows(l, l1) && l1.journal == l.journal && WalletsKnown(l1.accounts, c.lines)
    requires c.kind == FxTransfer ==> FindClearing(l1.accounts, c.sourceCurrency).Some? && FindClearing(l1.accounts, c.targetCurrency).Some?
    ensures var (l', answer) := PostAndSettle(l1, Resolve(l1.accounts, c), CommandHash(c));
      Grows(l, l') && (l'.journal == l.journal || Added(l, l', c, answer)) && AnswersOwn(l', c, answer)
  {
    var r, h := Resolve(l1.accounts, c), CommandHash(c);
    PostAndSettleGrows(l1, r, h);
    PostAndSettleAccounts(l1, r, h);
  }

  lemma PostAndSettleAccounts(l: Ledger, r: Resolved, h: Hash)
    requires |l.balances| == |l.accounts|
    ensures PostAndSettle(l, r, h).0.accounts == l.accounts
    ensures PostAndSettle(l, r, h).0.journal != l.journal ==> Validate(r).None?
  {
  }

  function ReferenceOf(e: Event): Option<nat> {
    match e
    case DoFund(r, _, _, _) => Some(r)
    case DoPost(c) => Some(c.reference)
    case DoLatePost(c) => Some(c.reference)
    case DoReverse(_, r) => Some(r)
    case _ => None
  }

  predicate IsFxPost(e: Event) { (e.DoPost? || e.DoLatePost?) && e.command.kind == FxTransfer }

  lemma NextGrows(l: Ledger, e: Event)
    requires |l.balances| == |l.accounts|
    ensures var l' := Next(l, e);
      && Grows(l, l')
      && (forall i :: |l.journal| <= i < |l'.journal| ==> Some(l'.journal[i].body.reference) == ReferenceOf(e))
      && (!IsFxPost(e) ==> forall i :: |l.journal| <= i < |l'.journal| ==> l'.journal[i].body.kind != FxTransfer)
  {
    hide PostAfterLookup, PostAndSettle, EnsureClearing;
    match e
    case DoPost(c) => PostAfterLookupGrows(l, c);
    case DoLatePost(c) => PostAfterLookupGrows(l, c);
    case DoFund(r, w, amount, c) =>
      var a := FindWallet(l.accounts, w);
      if a.Some? {
        EnsureClearingGrows(l, c);
        var l1 := EnsureClearing(l, c);
        PostAndSettleGrows(l1, FundingPosting(FindClearing(l1.accounts, c).value, a.value, r, amount, c), FundingHash(r, w, amount, c));
      }
    case DoReverse(id, r) =>
      if id < |l.journal| { PostAndSettleGrows(l, ReversalOf(l.journal[id], id, r), ReversalHash(id, r)); }
    case _ =>
  }

  lemma {:induction false} FindReferenceStable(journal: seq<Posting>, journal': seq<Posting>, reference: nat)
    requires |journal| <= |journal'| && journal'[..|journal|] == journal
    requires FindReference(journal, reference).Some?
    ensures FindReference(journal', reference) == FindReference(journal, reference)
    decreases |journal'|
  {
    if |journal'| > |journal| {
      var prefix := journal'[..|journal'| - 1];
      assert prefix[..|journal|] == journal;
      FindReferenceStable(journal, prefix, reference);
    } else {
      assert journal' == journal;
    }
  }
}
