/**
 * What an answer of the Ledger means.  A successful answer names a posting that carries the reference and the hash of
 * the command, and in any reachable ledger this posting is what the command asks for; a reference used by another
 * command is refused; and no posting touches an account that may not be posted to.
 */
module LedgerAnswers {
  import opened Common
  import opened Ledger
  import opened LedgerGrowth
  import I = LedgerInvariant
  import Payable

  // ----- hashes -----

  /** Commands hash alike exactly when they agree in every field and in their lines as a multiset. */
  lemma HashesAgreeIff(c: Command, d: Command)
    ensures CommandHash(c) == CommandHash(d) <==>
      && c.reference == d.reference && c.kind == d.kind && c.sourceCurrency == d.sourceCurrency && c.targetCurrency == d.targetCurrency
      && c.sourceAmount == d.sourceAmount && c.targetAmount == d.targetAmount && c.quote == d.quote && c.rate == d.rate
      && multiset(c.lines) == multiset(d.lines)
  {
  }

  /** The answer names a posting under this reference and hash in the resulting journal, and what was there is still there. */
  predicate AnswersFor(l: Ledger, l': Ledger, answer: Result<nat, Failure>, reference: nat, h: Hash) {
    && l.journal <= l'.journal
    && (answer.Ok? ==>
          answer.value < |l'.journal| && l'.journal[answer.value].body.reference == reference && l'.journal[answer.value].hash == h)
    && (answer.Err? ==> l'.journal == l.journal)
  }

  /** The posting that has taken a reference. */
  predicate Takes(l: Ledger, k: nat, reference: nat) {
    && k < |l.journal| && l.journal[k].body.reference == reference
    && forall m :: 0 <= m < |l.journal| && l.journal[m].body.reference == reference ==> m == k
  }

  lemma {:induction false} TakenIsFound(l: Ledger, k: nat, reference: nat)
    requires Takes(l, k, reference)
    ensures FindReference(l.journal, reference) == Some(k)
  {
  }

  /** post answers only with a posting of the command's own reference and hash. */
  lemma {:induction false} PostAnswers(l: Ledger, c: Command)
    requires |l.balances| == |l.accounts|
    ensures AnswersFor(l, Post(l, c).0, Post(l, c).1, c.reference, CommandHash(c))
  {
    hide PostAfterLookup;
    PostAfterLookupGrows(l, c);
    PostFailsCleanly(l, c);
  }

  lemma {:induction false} PostFailsCleanly(l: Ledger, c: Command)
    requires |l.balances| == |l.accounts|
    ensures PostAfterLookup(l, c).1.Err? ==> PostAfterLookup(l, c).0.journal == l.journal
  {
    hide Validate, Commit, FindClearing, FindWallet;
    if WalletsKnown(l.accounts, c.lines) && LinesUsable(l.accounts, c.lines) {
      WithClearingFacts(l, c);
      WithClearingGrows(l, c);
    }
  }

  /** Under a reference that is taken, post changes nothing: the same hash is answered with the posting, any other refused. */
  lemma {:induction false} PostUnderTaken(l: Ledger, c: Command, k: nat)
    requires |l.balances| == |l.accounts| && FxShape(c) && Takes(l, k, c.reference)
    ensures Post(l, c) == (l, if l.journal[k].hash == CommandHash(c) then Ok(k) else Err(ReferenceReused))
  {
    TakenIsFound(l, k, c.reference);
  }

  lemma {:induction false} ReverseAnswers(l: Ledger, id: nat, reference: nat)
    requires |l.balances| == |l.accounts|
    ensures AnswersFor(l, Reverse(l, id, reference).0, Reverse(l, id, reference).1, reference, ReversalHash(id, reference))
  {
    hide Validate, Commit;
    if id < |l.journal| { PostAndSettleGrows(l, ReversalOf(l.journal[id], id, reference), ReversalHash(id, reference)); }
  }

  lemma {:induction false} ReverseUnderTaken(l: Ledger, id: nat, reference: nat, k: nat)
    requires |l.balances| == |l.accounts| && id < |l.journal| && l.journal[id].body.kind != Reversal && Takes(l, k, reference)
    ensures Reverse(l, id, reference) == (l, if l.journal[k].hash == ReversalHash(id, reference) then Ok(k) else Err(ReferenceReused))
  {
    TakenIsFound(l, k, reference);
  }

  lemma {:induction false} FundAnswers(l: Ledger, reference: nat, wallet: nat, amount: int, c: Currency)
    requires |l.balances| == |l.accounts|
    ensures AnswersFor(l, Fund(l, reference, wallet, amount, c).0, Fund(l, reference, wallet, amount, c).1, reference,
                       FundingHash(reference, wallet, amount, c))
  {
    hide Validate, Commit, FindClearing;
    var a := FindWallet(l.accounts, wallet);
    if a.Some? {
      EnsureClearingGrows(l, c);
      var l1 := EnsureClearing(l, c);
      PostAndSettleGrows(l1, FundingPosting(FindClearing(l1.accounts, c).value, a.value, reference, amount, c),
                         FundingHash(reference, wallet, amount, c));
    }
  }

  /** Only the clearing account that funding ensures first may be new. */
  lemma {:induction false} FundUnderTaken(l: Ledger, reference: nat, wallet: nat, amount: int, c: Currency, k: nat)
    requires |l.balances| == |l.accounts| && Takes(l, k, reference) && FindWallet(l.accounts, wallet).Some?
    requires var a := l.accounts[FindWallet(l.accounts, wallet).value]; a.currency == c && a.status == Active
    ensures Fund(l, reference, wallet, amount, c) ==
      (EnsureClearing(l, c), if l.journal[k].hash == FundingHash(reference, wallet, amount, c) then Ok(k) else Err(ReferenceReused))
    ensures EnsureClearing(l, c).journal == l.journal && l.balances <= EnsureClearing(l, c).balances
  {
    TakenIsFound(l, k, reference);
  }

  // ----- a hash in the journal stands for what it was computed from -----

  /** The entry books this line on the account of its wallet. */
  predicate Books(accounts: seq<Account>, e: Entry, line: Line) {
    && e.account < |accounts| && accounts[e.account].wallet == Some(line.wallet)
    && e.side == line.side && e.amount == line.amount && e.currency == line.currency
  }

  /** The first entries book these lines in order, and all others are on accounts without a wallet. */
  predicate BooksAll(accounts: seq<Account>, es: seq<Entry>, listed: seq<Line>) {
    && |listed| <= |es| && (forall i :: 0 <= i < |listed| ==> Books(accounts, es[i], listed[i]))
    && (forall i :: |listed| <= i < |es| ==> es[i].account < |accounts| && accounts[es[i].account].wallet.None?)
  }

  /** The posting is what was hashed: the command with its lines in some order, the reversal, or the funding. */
  ghost predicate HashTrue(accounts: seq<Account>, p: Posting) {
    var b := p.body;
    match p.hash
    case PostingHash(reference, kind, sc, tc, sa, ta, quote, rate, lines) =>
      && b.reference == reference && b.kind == kind && b.sourceCurrency == sc && b.targetCurrency == tc
      && b.sourceAmount == sa && b.targetAmount == ta && b.quote == quote && b.rate == rate && b.reverses.None?
      && exists listed: seq<Line> :: multiset(listed) == lines && BooksAll(accounts, b.entries, listed)
    case ReversalHash(original, reference) => b.kind == Reversal && b.reference == reference && b.reverses == Some(original)
    case FundingHash(reference, wallet, amount, c) =>
      && b.kind == Funding && b.reference == reference && |b.entries| == 2
      && Books(accounts, b.entries[1], Line(wallet, Credit, amount, c))
      && b.entries[0].account < |accounts| && accounts[b.entries[0].account].wallet.None?
      && b.entries[0].side == Debit && b.entries[0].amount == amount && b.entries[0].currency == c
  }

  ghost predicate JournalTrue(l: Ledger) { forall i :: 0 <= i < |l.journal| ==> HashTrue(l.accounts, l.journal[i]) }

  lemma {:induction false} BooksLater(xs: seq<Account>, ys: seq<Account>, es: seq<Entry>, listed: seq<Line>)
    requires BooksAll(xs, es, listed) && |xs| <= |ys| && forall i :: 0 <= i < |xs| ==> SameOwner(xs[i], ys[i])
    ensures BooksAll(ys, es, listed)
  {
  }

  lemma {:induction false} TrueLater(xs: seq<Account>, ys: seq<Account>, p: Posting)
    requires HashTrue(xs, p) && |xs| <= |ys| && forall i :: 0 <= i < |xs| ==> SameOwner(xs[i], ys[i])
    ensures HashTrue(ys, p)
  {
    if p.hash.PostingHash? {
      var listed: seq<Line> :| multiset(listed) == p.hash.lines && BooksAll(xs, p.body.entries, listed);
      BooksLater(xs, ys, p.body.entries, listed);
    }
  }

  lemma {:induction false} GrownTrue(l: Ledger, l': Ledger)
    requires JournalTrue(l) && Grows(l, l')
    requires l'.journal == l.journal || (|l'.journal| == |l.journal| + 1 && HashTrue(l'.accounts, l'.journal[|l.journal|]))
    ensures JournalTrue(l')
  {
    hide HashTrue;
    forall i | 0 <= i < |l.journal| ensures HashTrue(l'.accounts, l'.journal[i]) {
      assert l'.journal[..|l.journal|][i] == l.journal[i];
      TrueLater(l.accounts, l'.accounts, l.journal[i]);
    }
  }

  lemma ClearingHasNoWallet(l: Ledger, c: Currency)
    requires I.Inv(l) && FindClearing(l.accounts, c).Some?
    ensures l.accounts[FindClearing(l.accounts, c).value].wallet.None?
  {
    assert I.AccountShape(l.accounts[FindClearing(l.accounts, c).value]);
  }

  lemma {:induction false} AddedIsTrue(l: Ledger, l': Ledger, c: Command, answer: Result<nat, Failure>)
    requires I.Inv(l') && Added(l, l', c, answer)
    ensures HashTrue(l'.accounts, l'.journal[|l.journal|])
  {
    hide I.Inv, Validate;
    if c.kind == FxTransfer {
      ClearingHasNoWallet(l', c.sourceCurrency);
      ClearingHasNoWallet(l', c.targetCurrency);
    }
    assert BooksAll(l'.accounts, Resolve(l'.accounts, c).entries, c.lines);
  }

  lemma {:induction false} PostKeepsTrue(l: Ledger, c: Command)
    requires I.Inv(l) && JournalTrue(l)
    ensures JournalTrue(PostAfterLookup(l, c).0)
  {
    hide PostAfterLookup, I.Inv, HashTrue, Grows, Added, JournalTrue;
    Payable.InvSizes(l);
    var (l', answer) := PostAfterLookup(l, c);
    PostAfterLookupGrows(l, c);
    I.PostAfterLookupKeepsInv(l, c);
    if l'.journal != l.journal {
      AddedIsTrue(l, l', c, answer);
      AddedOne(l, l', c, answer);
    }
    GrownTrue(l, l');
  }

  lemma AddedOne(l: Ledger, l': Ledger, c: Command, answer: Result<nat, Failure>)
    requires Added(l, l', c, answer)
    ensures |l'.journal| == |l.journal| + 1
  {
  }

  lemma {:induction false} SettleKeepsTrue(l: Ledger, r: Resolved, h: Hash)
    requires |l.balances| == |l.accounts| && JournalTrue(l) && HashTrue(l.accounts, Posting(h, r))
    ensures JournalTrue(PostAndSettle(l, r, h).0)
  {
    hide HashTrue, Validate, Commit;
    PostAndSettleGrows(l, r, h);
    PostAndSettleAccounts(l, r, h);
    GrownTrue(l, PostAndSettle(l, r, h).0);
  }

  lemma {:induction false} FundKeepsTrue(l: Ledger, reference: nat, wallet: nat, amount: int, c: Currency)
    requires I.Inv(l) && JournalTrue(l)
    ensures JournalTrue(Fund(l, reference, wallet, amount, c).0)
  {
    hide PostAndSettle, JournalTrue, I.Inv, EnsureClearing;
    Payable.InvSizes(l);
    var a := FindWallet(l.accounts, wallet);
    if a.Some? && l.accounts[a.value].currency == c && l.accounts[a.value].status == Active {
      var l1 := EnsureClearing(l, c);
      EnsureClearingGrows(l, c);
      I.EnsureClearingKeepsInv(l, c);
      Payable.InvSizes(l1);
      GrownTrue(l, l1);
      ClearingHasNoWallet(l1, c);
      SettleKeepsTrue(l1, FundingPosting(FindClearing(l1.accounts, c).value, a.value, reference, amount, c),
                      FundingHash(reference, wallet, amount, c));
    }
  }

  lemma {:induction false} NextKeepsTrue(l: Ledger, e: Event)
    requires I.Inv(l) && JournalTrue(l)
    ensures |l.balances| == |l.accounts| && JournalTrue(Next(l, e))
  {
    hide PostAfterLookup, PostAndSettle, JournalTrue, I.Inv, Fund;
    Payable.InvSizes(l);
    NextGrows(l, e);
    match e
    case DoPost(c) => PostKeepsTrue(l, c);
    case DoLatePost(c) => PostKeepsTrue(l, c);
    case DoFund(r, w, amount, c) => FundKeepsTrue(l, r, w, amount, c);
    case DoReverse(id, r) =>
      if id < |l.journal| { SettleKeepsTrue(l, ReversalOf(l.journal[id], id, r), ReversalHash(id, r)); }
    case _ => GrownTrue(l, Next(l, e));
  }

  lemma {:induction false} ReachableIsTrue(events: seq<Event>)
    ensures JournalTrue(I.Run(events))
  {
    hide JournalTrue, I.Inv, Next;
    if events == [] {
      NothingIsTrue();
    } else {
      var n := |events| - 1;
      ReachableIsTrue(events[..n]);
      I.ReachableInv(events[..n]);
      NextKeepsTrue(I.Run(events[..n]), events[n]);
    }
  }

  lemma NothingIsTrue()
    ensures JournalTrue(EMPTY)
  {
  }

  /**
   * In any ledger that any run reaches, a successful answer to a command names a posting that is this command: the same
   * kind, currencies, amounts and quote, its lines booked on the accounts of their wallets in some order, and besides
   * them only accounts that belong to no one.
   */
  lemma {:induction false} PostedIsAsked(events: seq<Event>, c: Command)
    requires Post(I.Run(events), c).1.Ok?
    ensures var (l', answer) := Post(I.Run(events), c);
      && answer.value < |l'.journal|
      && var b := l'.journal[answer.value].body;
         && b.reference == c.reference && b.kind == c.kind && b.sourceCurrency == c.sourceCurrency && b.targetCurrency == c.targetCurrency
         && b.sourceAmount == c.sourceAmount && b.targetAmount == c.targetAmount && b.quote == c.quote && b.rate == c.rate
         && exists listed: seq<Line> :: multiset(listed) == multiset(c.lines) && BooksAll(l'.accounts, b.entries, listed)
  {
    hide PostAfterLookup, I.Inv, I.Run;
    var l := I.Run(events);
    ReachableIsTrue(events);
    I.ReachableInv(events);
    NextKeepsTrue(l, DoPost(c));
    PostAnswers(l, c);
    var (l', answer) := Post(l, c);
    assert HashTrue(l'.accounts, l'.journal[answer.value]);
  }

  // ----- accounts that may not be posted to -----

  /** The account may take an entry of a posting of this kind. */
  predicate MayTouch(a: Account, kind: PostingKind) { a.status == Active || (a.status == Frozen && kind == Reversal) }

  lemma {:induction false} SettleTouches(l: Ledger, r: Resolved, h: Hash, a: nat)
    requires |l.balances| == |l.accounts| && a < |l.accounts| && !MayTouch(l.accounts[a], r.kind)
    ensures a < |PostAndSettle(l, r, h).0.balances| && PostAndSettle(l, r, h).0.balances[a] == l.balances[a]
  {
    hide Validate, BalancesFit, TriggerAccepts;
    if Commit(l, r, h).Ok? {
      forall i | 0 <= i < |r.entries| ensures r.entries[i].account != a { assert EntryAllowed(l.accounts, r.kind, r.entries[i]); }
      assert !Touches(r.entries, a);
    }
  }

  lemma {:induction false} PostTouches(l: Ledger, c: Command, a: nat)
    requires |l.balances| == |l.accounts| && a < |l.accounts| && l.accounts[a].status != Active
    ensures a < |PostAfterLookup(l, c).0.balances| && PostAfterLookup(l, c).0.balances[a] == l.balances[a]
  {
    hide PostAndSettle, Validate, FindWallet, FindClearing;
    if WalletsKnown(l.accounts, c.lines) && LinesUsable(l.accounts, c.lines) {
      WithClearingFacts(l, c);
      var l1 := WithClearing(l, c);
      var r := Resolve(l1.accounts, c);
      assert l1.accounts[a] == l.accounts[a] && l1.balances[a] == l.balances[a];
      if c.kind == Reversal { NoReversalByPost(l1, r, CommandHash(c)); } else { SettleTouches(l1, r, CommandHash(c), a); }
    }
  }

  /** A posting that reverses nothing cannot be of kind REVERSAL. */
  lemma {:induction false} NoReversalByPost(l: Ledger, r: Resolved, h: Hash)
    requires |l.balances| == |l.accounts| && r.kind == Reversal && r.reverses.None?
    ensures PostAndSettle(l, r, h).0 == l
  {
    hide Validate, BalancesFit, TriggerAccepts, Solvent;
  }

  /** A CLOSED account keeps its balance and version under every event, a FROZEN one under all but reversals. */
  lemma {:induction false} ClosedIsUntouched(l: Ledger, e: Event, a: nat)
    requires |l.balances| == |l.accounts| && a < |l.accounts|
    requires l.accounts[a].status == Closed || (l.accounts[a].status == Frozen && !e.DoReverse?)
    ensures a < |Next(l, e).balances| && Next(l, e).balances[a] == l.balances[a]
  {
    hide PostAndSettle, PostAfterLookup, FindWallet, FindClearing;
    match e
    case DoPost(c) => PostTouches(l, c, a);
    case DoLatePost(c) => PostTouches(l, c, a);
    case DoFund(r, w, amount, c) =>
      if FindWallet(l.accounts, w).Some? {
        var l1 := EnsureClearing(l, c);
        assert l1.accounts[a] == l.accounts[a] && l1.balances[a] == l.balances[a];
        SettleTouches(l1, FundingPosting(FindClearing(l1.accounts, c).value, FindWallet(l.accounts, w).value, r, amount, c),
                      FundingHash(r, w, amount, c), a);
      }
    case DoReverse(id, r) =>
      if id < |l.journal| { SettleTouches(l, ReversalOf(l.journal[id], id, r), ReversalHash(id, r), a); }
    case _ =>
  }

  // ----- refusals -----

  /** An FX transfer has two currencies, a quote and a rate; anything else has one currency and neither. */
  predicate Shaped(c: Command) {
    if c.kind == FxTransfer then c.sourceCurrency != c.targetCurrency && c.quote.Some? && c.rate.Some?
    else c.sourceCurrency == c.targetCurrency && c.quote.None? && c.rate.None?
  }

  /** The wallet has an account that is ACTIVE and in this currency. */
  predicate Usable(accounts: seq<Account>, wallet: nat, c: Currency) {
    exists a :: 0 <= a < |accounts| && accounts[a].wallet == Some(wallet) && accounts[a].currency == c && accounts[a].status == Active
  }

  predicate Known(accounts: seq<Account>, wallet: nat) { exists a :: 0 <= a < |accounts| && accounts[a].wallet == Some(wallet) }

  lemma {:induction false} UsableIff(accounts: seq<Account>, wallet: nat, c: Currency)
    requires I.AccountsOk(accounts)
    ensures Known(accounts, wallet) <==> FindWallet(accounts, wallet).Some?
    ensures Usable(accounts, wallet, c) <==>
      FindWallet(accounts, wallet).Some? && var a := accounts[FindWallet(accounts, wallet).value]; a.currency == c && a.status == Active
  {
    forall a | 0 <= a < |accounts| && accounts[a].wallet == Some(wallet) ensures FindWallet(accounts, wallet) == Some(a) {
      assert I.AccountShape(accounts[a]);
      Payable.OwnWallet(accounts, a);
    }
  }

  /**
   * A command of the wrong shape, and under a free reference one with a wallet that is unknown or not usable in the
   * currency of its line, is refused for that reason, in this order, and changes nothing at all.
   */
  lemma {:induction false} PostRefuses(l: Ledger, c: Command)
    requires I.Inv(l)
    ensures |l.balances| == |l.accounts|
    ensures !Shaped(c) ==> Post(l, c) == (l, Err(InvalidFxPosting))
    ensures Shaped(c) && FindReference(l.journal, c.reference).None? ==>
      && ((exists i :: 0 <= i < |c.lines| && !Known(l.accounts, c.lines[i].wallet)) ==> Post(l, c) == (l, Err(AccountNotFound)))
      && ((forall i :: 0 <= i < |c.lines| ==> Known(l.accounts, c.lines[i].wallet))
          && (exists i :: 0 <= i < |c.lines| && !Usable(l.accounts, c.lines[i].wallet, c.lines[i].currency)) ==>
            Post(l, c) == (l, Err(AccountUnavailable)))
  {
    hide PostAndSettle, Known, Usable, FindWallet;
    forall i | 0 <= i < |c.lines| { UsableIff(l.accounts, c.lines[i].wallet, c.lines[i].currency); }
  }

  /** Funding a wallet that is unknown or not usable in the currency is refused and changes nothing at all. */
  lemma {:induction false} FundRefuses(l: Ledger, reference: nat, wallet: nat, amount: int, c: Currency)
    requires I.Inv(l) && !Usable(l.accounts, wallet, c)
    ensures |l.balances| == |l.accounts| && Fund(l, reference, wallet, amount, c) == (l, Err(AccountNotFound))
  {
    hide PostAndSettle, Usable, FindWallet;
    UsableIff(l.accounts, wallet, c);
  }

  /** An unknown posting, a reversal, and under a free reference a posting reversed before, are not reversed. */
  lemma {:induction false} ReverseRefuses(l: Ledger, id: nat, reference: nat)
    requires |l.balances| == |l.accounts|
    ensures id >= |l.journal| ==> Reverse(l, id, reference) == (l, Err(PostingNotFound))
    ensures id < |l.journal| && l.journal[id].body.kind == Reversal ==> Reverse(l, id, reference) == (l, Err(ReversalOfReversal))
    ensures id < |l.journal| && l.journal[id].body.kind != Reversal && FindReference(l.journal, reference).None? ==>
      ((exists k :: 0 <= k < |l.journal| && l.journal[k].body.reverses == Some(id)) ==>
         Reverse(l, id, reference) == (l, Err(AlreadyReversed)))
  {
  }

  /** Every posting of a reachable ledger: positive amounts that fit, one currency or a priced exchange, and at least two lines. */
  lemma {:induction false} PostingShape(events: seq<Event>, i: nat)
    requires i < |I.Run(events).journal|
    ensures var b := I.Run(events).journal[i].body;
      && 0 < b.sourceAmount < NUMERIC_LIMIT && 0 < b.targetAmount < NUMERIC_LIMIT && |b.entries| >= 2
      && (forall k :: 0 <= k < |b.entries| ==> 0 < b.entries[k].amount < NUMERIC_LIMIT)
      && (b.sourceCurrency == b.targetCurrency ==> b.sourceAmount == b.targetAmount && b.quote.None? && b.rate.None? && b.kind != FxTransfer)
      && (b.sourceCurrency != b.targetCurrency ==>
            (b.kind == FxTransfer || b.kind == Reversal) && b.quote.Some? && b.rate.Some? && 0 < b.rate.value < NUMERIC_LIMIT)
      && (b.kind == Reversal <==> b.reverses.Some?)
  {
    hide I.ProjectionOk, I.SolventOk, I.Conserved, I.Run, Validate;
    I.ReachableInv(events);
    var p := I.Run(events).journal[i];
    assert I.PostingOk(I.Run(events).accounts, p);
    if p.body.sourceCurrency == p.body.targetCurrency { I.SameCurrencyAmountsAgree(p.body); }
  }

  function LineSum(lines: seq<Line>, d: Currency, s: Side): int {
    if lines == [] then 0 else
      var line := lines[|lines| - 1];
      LineSum(lines[..|lines| - 1], d, s) + if line.currency == d && line.side == s then line.amount else 0
  }

  /** What a command books on one side of a currency: its lines, and the clearing accounts of an exchange opposite to them. */
  function Booked(c: Command, d: Currency, s: Side): int {
    LineSum(c.lines, d, s)
    + (if c.kind == FxTransfer && d == c.sourceCurrency && s == Credit then c.sourceAmount else 0)
    + (if c.kind == FxTransfer && d == c.targetCurrency && s == Debit then c.targetAmount else 0)
  }

  predicate HasLineIn(c: Command, d: Currency) { exists i :: 0 <= i < |c.lines| && c.lines[i].currency == d }

  lemma {:induction false} LinesSum(es: seq<Entry>, lines: seq<Line>, d: Currency, s: Side)
    requires |es| == |lines|
    requires forall i :: 0 <= i < |es| ==>
      es[i].side == lines[i].side && es[i].amount == lines[i].amount && es[i].currency == lines[i].currency
    ensures SideSum(es, d, s) == LineSum(lines, d, s)
  {
    if es != [] { LinesSum(es[..|es| - 1], lines[..|lines| - 1], d, s); }
  }

  lemma {:induction false} BooksItsSums(accounts: seq<Account>, c: Command, d: Currency, s: Side)
    requires WalletsKnown(accounts, c.lines) && Shaped(c)
    requires c.kind == FxTransfer ==> FindClearing(accounts, c.sourceCurrency).Some? && FindClearing(accounts, c.targetCurrency).Some?
    ensures SideSum(Resolve(accounts, c).entries, d, s) == Booked(c, d, s)
  {
    hide WalletsKnown, FindWallet, FindClearing;
    var es := CustomerEntries(accounts, c);
    LinesSum(es, c.lines, d, s);
    if c.kind == FxTransfer {
      var legs := ClearingEntries(accounts, c);
      I.SumOfConcat(es, legs, d, s);
      assert legs == [legs[0]] + [legs[1]];
      I.SumOfConcat([legs[0]], [legs[1]], d, s);
    } else {
      assert es + [] == es;
    }
  }

  lemma {:induction false} MentionsItsLines(accounts: seq<Account>, c: Command)
    requires WalletsKnown(accounts, c.lines) && Shaped(c)
    requires c.kind == FxTransfer ==> FindClearing(accounts, c.sourceCurrency).Some? && FindClearing(accounts, c.targetCurrency).Some?
    ensures var es := Resolve(accounts, c).entries;
      && (MentionsCurrency(es, c.sourceCurrency) <==> c.kind == FxTransfer || HasLineIn(c, c.sourceCurrency))
      && (MentionsCurrency(es, c.targetCurrency) <==> c.kind == FxTransfer || HasLineIn(c, c.targetCurrency))
      && ((exists i :: 0 <= i < |es| && es[i].amount < 0) <==>
            (exists i :: 0 <= i < |c.lines| && c.lines[i].amount < 0)
            || (c.kind == FxTransfer && (c.sourceAmount < 0 || c.targetAmount < 0)))
  {
    hide WalletsKnown, FindWallet, FindClearing;
    var es, n := Resolve(accounts, c).entries, |c.lines|;
    assert forall i :: 0 <= i < n ==> es[i].currency == c.lines[i].currency && es[i].amount == c.lines[i].amount;
    if c.kind == FxTransfer {
      assert es[n].currency == c.sourceCurrency && es[n + 1].currency == c.targetCurrency;
      assert es[n].amount == c.sourceAmount && es[n + 1].amount == c.targetAmount;
    } else {
      assert |es| == n;
    }
  }

  /**
   * A well-shaped command on usable wallets under a free reference is refused for a negative amount, then a negative
   * rate, then a currency in which its two sides differ, then sums that are not its amounts; only clearing accounts may
   * be new after that.
   */
  lemma {:induction false} PaperRefuses(l: Ledger, c: Command)
    requires |l.balances| == |l.accounts| && Shaped(c) && FindReference(l.journal, c.reference).None?
    requires WalletsKnown(l.accounts, c.lines) && LinesUsable(l.accounts, c.lines)
    ensures var r := Post(l, c);
      if c.sourceAmount < 0 || c.targetAmount < 0 then r == (WithClearing(l, c), Err(InvalidAmount))
      else if c.kind == FxTransfer && c.rate.value < 0 then r == (WithClearing(l, c), Err(InvalidRate))
      else if exists i :: 0 <= i < |c.lines| && c.lines[i].amount < 0 then r == (WithClearing(l, c), Err(InvalidAmount))
      else if exists d: Currency :: Booked(c, d, Debit) != Booked(c, d, Credit) then r == (WithClearing(l, c), Err(Unbalanced))
      else if !(Booked(c, c.sourceCurrency, Debit) == c.sourceAmount && Booked(c, c.targetCurrency, Credit) == c.targetAmount
                && (c.kind == FxTransfer || HasLineIn(c, c.sourceCurrency)))
      then r == (WithClearing(l, c), Err(TotalMismatch))
      else r.1 !in {Err(InvalidAmount), Err(InvalidRate), Err(Unbalanced), Err(TotalMismatch)}
  {
    hide WalletsKnown, LinesUsable, FindClearing, Booked, HasLineIn, Commit, WithClearing, Resolve, SideSum, MentionsCurrency;
    WithClearingFacts(l, c);
    var accounts := WithClearing(l, c).accounts;
    var r := Resolve(accounts, c);
    MentionsItsLines(accounts, c);
    forall d: Currency, s: Side { BooksItsSums(accounts, c, d, s); }
    CopiesFields(accounts, c);
    CommitFailures(WithClearing(l, c), r, CommandHash(c));
  }

  lemma CopiesFields(accounts: seq<Account>, c: Command)
    requires WalletsKnown(accounts, c.lines)
    requires c.kind == FxTransfer ==> FindClearing(accounts, c.sourceCurrency).Some? && FindClearing(accounts, c.targetCurrency).Some?
    ensures var r := Resolve(accounts, c);
      && r.sourceAmount == c.sourceAmount && r.targetAmount == c.targetAmount && r.rate == c.rate
      && r.sourceCurrency == c.sourceCurrency && r.targetCurrency == c.targetCurrency
  {
  }

  lemma CommitFailures(l: Ledger, r: Resolved, h: Hash)
    requires |l.balances| == |l.accounts|
    ensures Commit(l, r, h).Err? ==>
      Commit(l, r, h).error in {AccountNotFound, AccountUnavailable, InsufficientFunds, DatabaseError, UniqueViolation}
  {
  }

  /** A transfer in one currency of more than its sender owns is refused for its funds and changes nothing. */
  lemma {:induction false} OverdraftRefused(l: Ledger, c: Command, x: nat, y: nat)
    requires |l.balances| == |l.accounts| && Payable.PairCommand(c) && x != y
    requires FindWallet(l.accounts, c.lines[0].wallet) == Some(x) && FindWallet(l.accounts, c.lines[1].wallet) == Some(y)
    requires l.accounts[x].currency == c.sourceCurrency && l.accounts[y].currency == c.sourceCurrency
    requires l.accounts[x].status == Active && l.accounts[y].status == Active
    requires l.accounts[x].kind == Customer && l.accounts[x].normal == Credit && l.balances[x].value < c.sourceAmount
    ensures PostAfterLookup(l, c) == (l, Err(InsufficientFunds))
  {
    hide ApplyEntries, Validate, TriggerAccepts, BalancesFit;
    assert WalletsKnown(l.accounts, c.lines) && LinesUsable(l.accounts, c.lines);
    var r := Resolve(l.accounts, c);
    assert r.entries == [ Entry(x, Debit, c.sourceAmount, c.sourceCurrency, None, None),
                          Entry(y, Credit, c.sourceAmount, c.sourceCurrency, None, None) ];
    Payable.TwoLegsValid(r, x, y, c.sourceAmount, c.sourceCurrency);
    Payable.ApplyTwo(l.accounts, Values(l.balances), r.entries[0], r.entries[1]);
    assert !Solvent(l.accounts, ApplyEntries(l.accounts, Values(l.balances), r.entries), r.entries) by {
      assert ApplyEntries(l.accounts, Values(l.balances), r.entries)[r.entries[0].account] < 0;
    }
  }
}
