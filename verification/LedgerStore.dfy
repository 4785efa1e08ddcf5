/**
 * The posting engine as it is written: loops over the entries of a command, the `totals` and
 * `next` maps they fill, tables that are updated in place and a transaction retried at most
 * three times.  Every method is proved against the functions of module Ledger.
 */
module LedgerStore {
  import opened Common
  import opened Ledger
  import L = Ledger
  import LedgerInvariant
  import Order

  const MAX_ATTEMPTS := 3

  datatype Totals = Totals(debit: int, credit: int)

  /** The running totals of the first entries, one pair for each currency met. */
  ghost predicate TotalsOf(es: seq<Entry>, totals: map<Currency, Totals>) {
    && (forall c :: c in totals <==> MentionsCurrency(es, c))
    && (forall c :: c in totals ==> totals[c] == Totals(SideSum(es, c, Debit), SideSum(es, c, Credit)))
  }

  lemma {:induction false} TotalsStep(es: seq<Entry>, n: nat, totals: map<Currency, Totals>)
    requires n < |es| && TotalsOf(es[..n], totals)
    ensures var e := es[n];
      var t := if e.currency in totals then totals[e.currency] else Totals(0, 0);
      var t' := if e.side == Debit then t.(debit := t.debit + e.amount) else t.(credit := t.credit + e.amount);
      TotalsOf(es[..n + 1], totals[e.currency := t'])
  {
    var e := es[n];
    assert es[..n + 1][..n] == es[..n];
    assert es[..n + 1][n] == e;
    assert forall k :: 0 <= k < n ==> es[..n + 1][k] == es[..n][k];
    forall c: Currency ensures MentionsCurrency(es[..n + 1], c) <==> MentionsCurrency(es[..n], c) || c == e.currency {
      if MentionsCurrency(es[..n], c) {
        var k :| 0 <= k < n && es[..n][k].currency == c;
        assert es[..n + 1][k].currency == c;
      }
    }
    if !MentionsCurrency(es[..n], e.currency) {
      LedgerInvariant.UnmentionedSum(es[..n], e.currency, Debit);
      LedgerInvariant.UnmentionedSum(es[..n], e.currency, Credit);
    }
  }

  lemma {:induction false} BalancedByTotals(es: seq<Entry>, totals: map<Currency, Totals>)
    requires TotalsOf(es, totals)
    ensures Balanced(es) <==> forall c :: c in totals ==> totals[c].debit == totals[c].credit
  {
    if forall c :: c in totals ==> totals[c].debit == totals[c].credit {
      forall c: Currency ensures SideSum(es, c, Debit) == SideSum(es, c, Credit) {
        if c !in totals {
          LedgerInvariant.UnmentionedSum(es, c, Debit);
          LedgerInvariant.UnmentionedSum(es, c, Credit);
        }
      }
    }
  }

  /** validateResolved: one pass that fills `totals`, one over the totals, then the metadata. */
  method ValidateResolved(r: Resolved) returns (failure: Option<Failure>)
    ensures failure == Validate(r)
  {
    hide SideSum, Balanced;
    assert TotalsOf([], map[]);
    if r.sourceAmount < 0 || r.targetAmount < 0 { return Some(InvalidAmount); }
    if r.rate.Some? && r.rate.value < 0 { return Some(InvalidRate); }
    var totals: map<Currency, Totals> := map[];
    var n := 0;
    while n < |r.entries|
      invariant 0 <= n <= |r.entries|
      invariant forall i :: 0 <= i < n ==> r.entries[i].amount >= 0
      invariant TotalsOf(r.entries[..n], totals)
    {
      var e := r.entries[n];
      if e.amount < 0 { return Some(InvalidAmount); }
      TotalsStep(r.entries, n, totals);
      var total := if e.currency in totals then totals[e.currency] else Totals(0, 0);
      total := if e.side == Debit then total.(debit := total.debit + e.amount) else total.(credit := total.credit + e.amount);
      totals := totals[e.currency := total];
      n := n + 1;
    }
    assert r.entries[..n] == r.entries;
    BalancedByTotals(r.entries, totals);
    var left := totals.Keys;
    while left != {}
      invariant left <= totals.Keys
      invariant forall c :: c in totals && c !in left ==> totals[c].debit == totals[c].credit
      decreases |left|
    {
      var c :| c in left;
      if totals[c].debit != totals[c].credit { return Some(Unbalanced); }
      left := left - {c};
    }
    if r.sourceCurrency !in totals || totals[r.sourceCurrency].debit != r.sourceAmount
       || r.targetCurrency !in totals || totals[r.targetCurrency].credit != r.targetAmount {
      return Some(TotalMismatch);
    }
    failure := None;
  }

  /** `next` holds the touched accounts with the entries so far applied. */
  ghost predicate NextOf(accounts: seq<Account>, values: seq<int>, all: seq<Entry>, es: seq<Entry>, next: map<nat, int>)
    requires |values| == |accounts| && InRange(accounts, es)
  {
    && (forall a :: a in next <==> Touches(all, a))
    && (forall a :: a in next ==> a < |accounts| && next[a] == ApplyEntries(accounts, values, es)[a])
  }

  lemma {:induction false} UntouchedApply(accounts: seq<Account>, values: seq<int>, es: seq<Entry>, a: nat)
    requires |values| == |accounts| && InRange(accounts, es) && a < |accounts| && !Touches(es, a)
    ensures ApplyEntries(accounts, values, es)[a] == values[a]
  {
    LedgerInvariant.ApplyIsMovement(accounts, values, es, a);
    LedgerInvariant.UntouchedMovement(es, a, accounts[a].normal);
  }

  // ----- what is left of a call whose three attempts all end in a serialization failure -----

  ghost function Exhausted(r: Resolved): Result<nat, Failure> {
    if Validate(r).Some? then Err(Validate(r).value) else Err(DatabaseError)
  }

  /** The clearing accounts ensured before the transaction stay. */
  ghost function PostExhausted(l: Ledger, c: Command): (Ledger, Result<nat, Failure>)
    requires |l.balances| == |l.accounts|
  {
    match Lookup(l, c)
    case Some(answer) => (l, answer)
    case None =>
      if !WalletsKnown(l.accounts, c.lines) then (l, Err(AccountNotFound))
      else if !LinesUsable(l.accounts, c.lines) then (l, Err(AccountUnavailable))
      else
        var l1 := WithClearing(l, c);
        WithClearingFacts(l, c);
        (l1, Exhausted(Resolve(l1.accounts, c)))
  }

  ghost function ReverseExhausted(l: Ledger, id: nat, reference: nat): (Ledger, Result<nat, Failure>) {
    if id >= |l.journal| then (l, Err(PostingNotFound))
    else if l.journal[id].body.kind == Reversal then (l, Err(ReversalOfReversal))
    else
      match FindReference(l.journal, reference)
      case Some(i) => (l, if l.journal[i].hash == ReversalHash(id, reference) then Ok(i) else Err(ReferenceReused))
      case None => (l, if Reversed(l.journal, id) then Err(AlreadyReversed) else Exhausted(ReversalOf(l.journal[id], id, reference)))
  }

  ghost function FundExhausted(l: Ledger, reference: nat, wallet: nat, amount: int, c: Currency): (Ledger, Result<nat, Failure>) {
    match FindWallet(l.accounts, wallet)
    case None => (l, Err(AccountNotFound))
    case Some(a) =>
      if l.accounts[a].currency != c || l.accounts[a].status != Active then (l, Err(AccountNotFound)) else
        var l1 := EnsureClearing(l, c);
        match FindReference(l1.journal, reference)
        case Some(i) => (l1, if l1.journal[i].hash == FundingHash(reference, wallet, amount, c) then Ok(i) else Err(ReferenceReused))
        case None => (l1, Exhausted(FundingPosting(FindClearing(l1.accounts, c).value, a, reference, amount, c)))
  }

  class LedgerTables {
    var accounts: seq<Account>
    var balances: seq<Balance>
    var journal: seq<Posting>

    constructor ()
      ensures Valid() && State() == EMPTY
    {
      accounts, balances, journal := [], [], [];
    }

    ghost function State(): Ledger reads this { Ledger(accounts, balances, journal) }

    /** Every stored balance fits its column. */
    ghost predicate Valid() reads this { |balances| == |accounts| && BalancesFit(Values(balances)) }

    /** Locks the balances of the distinct accounts in ascending order; the `next` map starts from what they hold. */
    method LockBalances(es: seq<Entry>) returns (next: map<nat, int>, locked: seq<nat>)
      requires Valid() && InRange(accounts, es)
      ensures NextOf(accounts, Values(balances), es, [], next)
      ensures locked == Order.Sorted(AccountsOf(es))
    {
      hide Order.Sorted, BalancesFit;
      next, locked := map[], [];
      var ids := Order.Sorted(AccountsOf(es));
      while |locked| < |ids|
        invariant |locked| <= |ids| && locked == ids[..|locked|]
        invariant forall a :: a in next <==> a in locked
        invariant forall a :: a in next ==> a < |accounts| && next[a] == balances[a].value
      {
        var a := ids[|locked|];
        assert a in AccountsOf(es);
        next := next[a := balances[a].value];
        locked := locked + [a];
      }
    }

    /** The entries applied one by one to the locked balances. */
    method ApplyAll(es: seq<Entry>) returns (next: map<nat, int>)
      requires Valid() && InRange(accounts, es)
      ensures NextOf(accounts, Values(balances), es, es, next)
    {
      hide Order.Sorted, AccountsOf, BalancesFit;
      var locked: seq<nat>;
      next, locked := LockBalances(es);
      var n := 0;
      while n < |es|
        invariant 0 <= n <= |es|
        invariant NextOf(accounts, Values(balances), es, es[..n], next)
      {
        var e := es[n];
        assert es[..n + 1][..n] == es[..n] && es[..n + 1][n] == e;
        assert Touches(es, e.account);
        var value := next[e.account];
        next := next[e.account := if e.side == accounts[e.account].normal then value + e.amount else value - e.amount];
        n := n + 1;
      }
      assert es[..n] == es;
    }

    /** Writes the new balances and bumps the version of every touched account. */
    method WriteBalances(es: seq<Entry>, next: map<nat, int>)
      requires Valid() && InRange(accounts, es) && NextOf(accounts, Values(balances), es, es, next)
      modifies this`balances
      ensures balances == NextBalances(accounts, old(balances), es)
    {
      ghost var before := balances;
      var left := next.Keys;
      while left != {}
        invariant left <= next.Keys && |balances| == |before|
        invariant forall a :: 0 <= a < |balances| ==>
          balances[a] == if a in next && a !in left then Balance(next[a], before[a].version + 1) else before[a]
        decreases |left|
      {
        var a :| a in left;
        balances := balances[a := Balance(next[a], balances[a].version + 1)];
        left := left - {a};
      }
    }

    /** The accounts of every entry exist, use its currency and may be posted to. */
    method CheckAccounts(r: Resolved) returns (failure: Option<Failure>)
      ensures failure == if !InRange(accounts, r.entries) then Some(AccountNotFound)
                         else if !EntriesAllowed(accounts, r.kind, r.entries) then Some(AccountUnavailable) else None
    {
      var n := 0;
      while n < |r.entries|
        invariant 0 <= n <= |r.entries| && forall i :: 0 <= i < n ==> r.entries[i].account < |accounts|
      {
        if r.entries[n].account >= |accounts| { return Some(AccountNotFound); }
        n := n + 1;
      }
      n := 0;
      while n < |r.entries|
        invariant 0 <= n <= |r.entries| && forall i :: 0 <= i < n ==> EntryAllowed(accounts, r.kind, r.entries[i])
      {
        if !EntryAllowed(accounts, r.kind, r.entries[n]) { return Some(AccountUnavailable); }
        n := n + 1;
      }
      failure := None;
    }

    /** What the constraints of the tables refuse, once the balances are known. */
    method CheckConstraints(r: Resolved, next: map<nat, int>) returns (failure: Option<Failure>)
      requires Valid() && InRange(accounts, r.entries) && NextOf(accounts, Values(balances), r.entries, r.entries, next)
      requires Balanced(r.entries)
      ensures var values := ApplyEntries(accounts, Values(balances), r.entries);
        failure ==
          if !Solvent(accounts, values, r.entries) then Some(InsufficientFunds)
          else if !RowCheck(r) then Some(DatabaseError)
          else if FindReference(journal, r.reference).Some? then Some(UniqueViolation)
          else if r.reverses.Some? && Reversed(journal, r.reverses.value) then Some(UniqueViolation)
          else if r.reverses.Some? && r.reverses.value >= |journal| then Some(DatabaseError)
          else if exists i :: 0 <= i < |r.entries| && !EntryCheck(r.entries[i]) then Some(DatabaseError)
          else if !BalancesFit(values) || !TriggerAccepts(r.entries) then Some(DatabaseError)
          else None
    {
      hide ApplyEntries, RowCheck, FindReference, Reversed, EntryCheck, Balanced, Solvent, BalancesFit;
      SolventByNext(accounts, Values(balances), r.entries, next);
      FitsByNext(accounts, Values(balances), r.entries, next);
      if exists a :: a in next && accounts[a].kind == Customer && next[a] < 0 { return Some(InsufficientFunds); }
      if !RowCheck(r) { return Some(DatabaseError); }
      if FindReference(journal, r.reference).Some? { return Some(UniqueViolation); }
      if r.reverses.Some? && Reversed(journal, r.reverses.value) { return Some(UniqueViolation); }
      if r.reverses.Some? && r.reverses.value >= |journal| { return Some(DatabaseError); }
      if exists i :: 0 <= i < |r.entries| && !EntryCheck(r.entries[i]) { return Some(DatabaseError); }
      if exists a :: a in next && !(-NUMERIC_LIMIT < next[a] < NUMERIC_LIMIT) { return Some(DatabaseError); }
      failure := if |r.entries| < 2 then Some(DatabaseError) else None;
    }

    /** One attempt of the serializable transaction; a throw leaves every table as it was. */
    method Attempt(r: Resolved, h: Hash) returns (failure: Option<Failure>)
      requires Valid() && Validate(r).None?
      modifies this`balances, this`journal
      ensures match Commit(old(State()), r, h)
        case Ok(l) => failure == None && State() == l && Valid()
        case Err(f) => failure == Some(f) && State() == old(State()) && Valid()
    {
      hide ApplyEntries, RowCheck, FindReference, Reversed, EntryCheck, NextOf, Solvent, BalancesFit, NextBalances, EntriesAllowed;
      ValidatedIsBalanced(r);
      failure := CheckAccounts(r);
      if failure.Some? { return; }
      var next := ApplyAll(r.entries);
      failure := CheckConstraints(r, next);
      if failure.Some? { return; }
      LedgerInvariant.NextValues(accounts, balances, r.entries);
      WriteBalances(r.entries, next);
      journal := journal + [Posting(h, r)];
    }

    /** postResolved: validation, then at most three attempts; only a serialization failure is retried. */
    method PostResolved(r: Resolved, h: Hash, conflict: nat -> bool) returns (answer: Result<nat, Failure>)
      requires Valid()
      modifies this`balances, this`journal
      ensures Valid()
      ensures (forall k :: 1 <= k <= MAX_ATTEMPTS ==> conflict(k)) && Validate(r).None? ==>
        answer == Err(DatabaseError) && State() == old(State())
      ensures (exists k :: 1 <= k <= MAX_ATTEMPTS && !conflict(k)) || Validate(r).Some? ==>
        match L.PostResolved(old(State()), r, h)
        case Ok(l) => answer == Ok(|old(journal)|) && State() == l
        case Err(f) => answer == Err(f) && State() == old(State())
    {
      var invalid := ValidateResolved(r);
      if invalid.Some? { return Err(invalid.value); }
      answer := Err(DatabaseError);
      var attempt := 1;
      while attempt <= MAX_ATTEMPTS
        invariant 1 <= attempt <= MAX_ATTEMPTS + 1 && Valid() && State() == old(State())
        invariant forall k :: 1 <= k < attempt ==> conflict(k)
        invariant answer == Err(DatabaseError)
      {
        if conflict(attempt) {
          attempt := attempt + 1;
        } else {
          var failure := Attempt(r, h);
          assert !conflict(attempt);
          return if failure.Some? then Err(failure.value) else Ok(|journal| - 1);
        }
      }
    }

    method EnsureClearingAccount(c: Currency) returns (a: nat)
      requires Valid()
      modifies this`accounts, this`balances
      ensures Valid() && State() == EnsureClearing(old(State()), c)
      ensures FindClearing(accounts, c) == Some(a)
    {
      var existing := FindClearing(accounts, c);
      if existing.Some? { return existing.value; }
      accounts := accounts + [Account(None, FxClearing, c, Debit, Active)];
      balances := balances + [Balance(0, 0)];
      a := |accounts| - 1;
      assert accounts[..a] == old(accounts);
    }

    /** A unique violation is answered from the posting that won, by a second lookup. */
    method HandleFailure(answer: Result<nat, Failure>, reference: nat, h: Hash) returns (r: Result<nat, Failure>)
      requires Valid()
      ensures r == if answer == Err(UniqueViolation) then SettleUnique(State(), reference, h) else answer
    {
      if answer != Err(UniqueViolation) { return answer; }
      var found := FindReference(journal, reference);
      if found.None? { return Err(PostingConflict); }
      r := if journal[found.value].hash == h then Ok(found.value) else Err(ReferenceReused);
    }

    /** The customer lines resolved to accounts, or the first reason they cannot be. */
    method ResolveLines(c: Command) returns (r: Result<seq<Entry>, Failure>)
      ensures r == if !WalletsKnown(accounts, c.lines) then Err(AccountNotFound)
                   else if !LinesUsable(accounts, c.lines) then Err(AccountUnavailable)
                   else Ok(CustomerEntries(accounts, c))
    {
      var n := 0;
      while n < |c.lines|
        invariant 0 <= n <= |c.lines| && forall i :: 0 <= i < n ==> FindWallet(accounts, c.lines[i].wallet).Some?
      {
        if FindWallet(accounts, c.lines[n].wallet).None? { return Err(AccountNotFound); }
        n := n + 1;
      }
      var es := [];
      n := 0;
      while n < |c.lines|
        invariant 0 <= n <= |c.lines| && es == CustomerEntries(accounts, c)[..n]
        invariant forall i :: 0 <= i < n ==>
          var a := accounts[FindWallet(accounts, c.lines[i].wallet).value];
          a.currency == c.lines[i].currency && a.status == Active
      {
        var line := c.lines[n];
        var a := FindWallet(accounts, line.wallet).value;
        if accounts[a].currency != line.currency || accounts[a].status != Active {
          assert !LinesUsable(accounts, c.lines);
          return Err(AccountUnavailable);
        }
        es := es + [Entry(a, line.side, line.amount, line.currency, c.quote, c.rate)];
        n := n + 1;
      }
      assert es == CustomerEntries(accounts, c);
      r := Ok(es);
    }

    /** postResolved with handlePostingFailure around it. */
    method PostAndSettle(r: Resolved, h: Hash, conflict: nat -> bool) returns (answer: Result<nat, Failure>)
      requires Valid()
      modifies this`balances, this`journal
      ensures Valid()
      ensures (forall k :: 1 <= k <= MAX_ATTEMPTS ==> conflict(k)) ==> State() == old(State()) && answer == Exhausted(r)
      ensures (exists k :: 1 <= k <= MAX_ATTEMPTS && !conflict(k)) ==>
        (State(), answer) == L.PostAndSettle(old(State()), r, h)
    {
      hide Validate, Commit, FindReference, BalancesFit;
      ValidationIsNotConflict(r);
      answer := PostResolved(r, h, conflict);
      answer := HandleFailure(answer, r.reference, h);
    }

    /** The entries of the command, customer lines first, then the two clearing legs of an FX transfer. */
    method ResolveEntries(c: Command) returns (r: Result<seq<Entry>, Failure>)
      requires Valid()
      modifies this`accounts, this`balances
      ensures Valid()
      ensures if !WalletsKnown(old(accounts), c.lines) then r == Err(AccountNotFound) && State() == old(State())
              else if !LinesUsable(old(accounts), c.lines) then r == Err(AccountUnavailable) && State() == old(State())
              else
                && State() == WithClearing(old(State()), c) && WalletsKnown(accounts, c.lines)
                && (c.kind == FxTransfer ==> FindClearing(accounts, c.sourceCurrency).Some? && FindClearing(accounts, c.targetCurrency).Some?)
                && r == Ok(Resolve(accounts, c).entries)
    {
      hide CustomerEntries, BalancesFit, LinesUsable, WalletsKnown, EnsureClearing, FindClearing;
      r := ResolveLines(c);
      if r.Err? { return; }
      WithClearingFacts(State(), c);
      if c.kind == FxTransfer {
        var source := EnsureClearingAccount(c.sourceCurrency);
        ghost var middle := State();
        var target := EnsureClearingAccount(c.targetCurrency);
        ClearingStable(middle, c.sourceCurrency, c.targetCurrency);
        r := Ok(r.value + [ Entry(source, Credit, c.sourceAmount, c.sourceCurrency, c.quote, c.rate),
                            Entry(target, Debit, c.targetAmount, c.targetCurrency, c.quote, c.rate) ]);
      }
      ResolvedLines(old(State()), c, r.value);
    }

    /** post: shape, idempotent lookup, resolution, clearing legs, and the retried transaction. */
    method Post(c: Command, conflict: nat -> bool) returns (answer: Result<nat, Failure>)
      requires Valid()
      modifies this
      ensures Valid()
      ensures (forall k :: 1 <= k <= MAX_ATTEMPTS ==> conflict(k)) ==> (State(), answer) == PostExhausted(old(State()), c)
      ensures (exists k :: 1 <= k <= MAX_ATTEMPTS && !conflict(k)) ==>
        (State(), answer) == L.Post(old(State()), c)
    {
      hide CustomerEntries, FindReference, BalancesFit, LinesUsable, WalletsKnown, EnsureClearing, FindClearing, L.PostAndSettle,
           ClearingEntries;
      if !FxShape(c) { return Err(InvalidFxPosting); }
      var h := CommandHash(c);
      var prior := FindReference(journal, c.reference);
      if prior.Some? {
        return if journal[prior.value].hash == h then Ok(prior.value) else Err(ReferenceReused);
      }
      var entries := ResolveEntries(c);
      if entries.Err? { return Err(entries.error); }
      answer := PostAndSettle(WithEntries(c, entries.value), h, conflict);
    }

    /** reverse: only a posting that is no reversal, once, under its own reference. */
    method Reverse(id: nat, reference: nat, conflict: nat -> bool) returns (answer: Result<nat, Failure>)
      requires Valid()
      modifies this
      ensures Valid()
      ensures (forall k :: 1 <= k <= MAX_ATTEMPTS ==> conflict(k)) ==> (State(), answer) == ReverseExhausted(old(State()), id, reference)
      ensures (exists k :: 1 <= k <= MAX_ATTEMPTS && !conflict(k)) ==>
        (State(), answer) == L.Reverse(old(State()), id, reference)
    {
      hide FindReference, BalancesFit, L.PostAndSettle, L.Reversed;
      if id >= |journal| { return Err(PostingNotFound); }
      var original := journal[id];
      if original.body.kind == Reversal { return Err(ReversalOfReversal); }
      var h := ReversalHash(id, reference);
      var prior := FindReference(journal, reference);
      if prior.Some? {
        return if journal[prior.value].hash == h then Ok(prior.value) else Err(ReferenceReused);
      }
      if L.Reversed(journal, id) { return Err(AlreadyReversed); }
      answer := PostAndSettle(ReversalOf(original, id, reference), h, conflict);
    }

    /** fund: the clearing account is ensured before the lookup, so it stays even when the lookup answers. */
    method Fund(reference: nat, wallet: nat, amount: int, c: Currency, conflict: nat -> bool) returns (answer: Result<nat, Failure>)
      requires Valid()
      modifies this
      ensures Valid()
      ensures (forall k :: 1 <= k <= MAX_ATTEMPTS ==> conflict(k)) ==> (State(), answer) == FundExhausted(old(State()), reference, wallet, amount, c)
      ensures (exists k :: 1 <= k <= MAX_ATTEMPTS && !conflict(k)) ==>
        (State(), answer) == L.Fund(old(State()), reference, wallet, amount, c)
    {
      hide FindReference, BalancesFit, L.PostAndSettle, FindWallet, EnsureClearing, FindClearing;
      var customer := FindWallet(accounts, wallet);
      if customer.None? || accounts[customer.value].currency != c || accounts[customer.value].status != Active {
        return Err(AccountNotFound);
      }
      var clearing := EnsureClearingAccount(c);
      var h := FundingHash(reference, wallet, amount, c);
      var prior := FindReference(journal, reference);
      if prior.Some? {
        return if journal[prior.value].hash == h then Ok(prior.value) else Err(ReferenceReused);
      }
      answer := PostAndSettle(FundingPosting(clearing, customer.value, reference, amount, c), h, conflict);
    }
  }

  lemma ValidationIsNotConflict(r: Resolved)
    ensures Validate(r) != Some(UniqueViolation)
  {
  }

  lemma ValidatedIsBalanced(r: Resolved)
    requires Validate(r).None?
    ensures Balanced(r.entries)
  {
  }

  /** Resolving before or after the clearing accounts are ensured gives the same customer entries. */
  lemma {:induction false} ResolvedLines(l: Ledger, c: Command, es: seq<Entry>)
    requires |l.balances| == |l.accounts| && WalletsKnown(l.accounts, c.lines)
    requires WalletsKnown(WithClearing(l, c).accounts, c.lines)
    requires c.kind == FxTransfer ==> FindClearing(WithClearing(l, c).accounts, c.sourceCurrency).Some?
                                      && FindClearing(WithClearing(l, c).accounts, c.targetCurrency).Some?
    requires es == CustomerEntries(l.accounts, c) + if c.kind == FxTransfer then ClearingEntries(WithClearing(l, c).accounts, c) else []
    ensures WithEntries(c, es) == Resolve(WithClearing(l, c).accounts, c)
  {
    if c.kind == FxTransfer {
      forall i | 0 <= i < |c.lines|
        ensures FindWallet(WithClearing(l, c).accounts, c.lines[i].wallet) == FindWallet(l.accounts, c.lines[i].wallet)
      {
        EnsureClearingWallets(l, c.sourceCurrency, c.lines[i].wallet);
        EnsureClearingWallets(EnsureClearing(l, c.sourceCurrency), c.targetCurrency, c.lines[i].wallet);
      }
      assert CustomerEntries(WithClearing(l, c).accounts, c) == CustomerEntries(l.accounts, c);
    }
  }

  lemma {:induction false} SolventByNext(accounts: seq<Account>, values: seq<int>, es: seq<Entry>, next: map<nat, int>)
    requires |values| == |accounts| && InRange(accounts, es) && NextOf(accounts, values, es, es, next)
    ensures Solvent(accounts, ApplyEntries(accounts, values, es), es) <==>
      !exists a :: a in next && accounts[a].kind == Customer && next[a] < 0
  {
    forall i | 0 <= i < |es| ensures es[i].account in next { assert Touches(es, es[i].account); }
    forall a | a in next ensures exists i :: 0 <= i < |es| && es[i].account == a { assert Touches(es, a); }
  }

  lemma {:induction false} FitsByNext(accounts: seq<Account>, values: seq<int>, es: seq<Entry>, next: map<nat, int>)
    requires |values| == |accounts| && InRange(accounts, es) && NextOf(accounts, values, es, es, next) && BalancesFit(values)
    ensures BalancesFit(ApplyEntries(accounts, values, es)) <==>
      !exists a :: a in next && !(-NUMERIC_LIMIT < next[a] < NUMERIC_LIMIT)
  {
    forall a | 0 <= a < |accounts| && a !in next ensures ApplyEntries(accounts, values, es)[a] == values[a] {
      UntouchedApply(accounts, values, es, a);
    }
  }
}
