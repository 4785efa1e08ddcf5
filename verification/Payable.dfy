/**
 * Which commands of a transfer the ledger can come to accept.  Other callers may open accounts, change their
 * status, fund wallets and move money; what they can never change is the currency of a wallet's account.
 */
module Payable {
  import opened Common
  import opened Ledger
  import opened LedgerGrowth
  import opened LedgerInvariant
  import Order

  // ----- two-leg postings -----

  predicate TwoLegs(r: Resolved, x: nat, y: nat, amount: int, c: Currency) {
    && 0 < amount < NUMERIC_LIMIT && r.sourceAmount == amount && r.targetAmount == amount
    && r.sourceCurrency == c && r.targetCurrency == c
    && r.quote.None? && r.rate.None? && r.reverses.None? && (r.kind == Funding || r.kind == TransferPosting)
    && r.entries == [Entry(x, Debit, amount, c, None, None), Entry(y, Credit, amount, c, None, None)]
  }

  lemma TwoLegsValid(r: Resolved, x: nat, y: nat, amount: int, c: Currency)
    requires TwoLegs(r, x, y, amount, c)
    ensures Validate(r).None? && TriggerAccepts(r.entries)
  {
    forall d: nat, s: Side ensures SideSum(r.entries, d, s) == if d == c then amount else 0 {
      SumOfConcat([r.entries[0]], [r.entries[1]], d, s);
      assert r.entries == [r.entries[0]] + [r.entries[1]];
    }
  }

  /** The balances after a debit of `x` and a credit of `y`. */
  function Moved(accounts: seq<Account>, values: seq<int>, x: nat, y: nat, amount: int): (next: seq<int>)
    requires |values| == |accounts| && x < |accounts| && y < |accounts|
    ensures |next| == |values|
  {
    var mid := values[x := values[x] + if accounts[x].normal == Debit then amount else -amount];
    mid[y := mid[y] + if accounts[y].normal == Credit then amount else -amount]
  }

  lemma {:induction false} ApplyTwo(accounts: seq<Account>, values: seq<int>, e0: Entry, e1: Entry)
    requires |values| == |accounts| && e0.account < |accounts| && e1.account < |accounts|
    ensures var mid := values[e0.account := values[e0.account] + Delta(accounts[e0.account].normal, e0)];
      ApplyEntries(accounts, values, [e0, e1]) == mid[e1.account := mid[e1.account] + Delta(accounts[e1.account].normal, e1)]
  {
    assert [e0, e1][..1] == [e0] && [e0][..0] == [];
    assert ApplyEntries(accounts, values, [e0]) == values[e0.account := values[e0.account] + Delta(accounts[e0.account].normal, e0)];
  }

  /** The two accounts may be posted to, and the money and the room are there. */
  predicate CanMove(accounts: seq<Account>, values: seq<int>, x: nat, y: nat, amount: int, c: Currency) {
    && |values| == |accounts| && x < |accounts| && y < |accounts| && x != y
    && accounts[x].currency == c && accounts[y].currency == c && accounts[x].status == Active && accounts[y].status == Active
    && accounts[y].normal == Credit && values[y] >= 0 && values[y] + amount < NUMERIC_LIMIT
    && (if accounts[x].kind == Customer then accounts[x].normal == Credit && amount <= values[x]
        else accounts[x].normal == Debit && values[x] >= 0 && values[x] + amount < NUMERIC_LIMIT)
  }

  lemma TwoLegsCommit(l: Ledger, r: Resolved, h: Hash, x: nat, y: nat, amount: int, c: Currency)
    requires TwoLegs(r, x, y, amount, c) && |l.balances| == |l.accounts| && BalancesFit(Values(l.balances))
    requires CanMove(l.accounts, Values(l.balances), x, y, amount, c) && FindReference(l.journal, r.reference).None?
    ensures PostAndSettle(l, r, h) ==
      (Ledger(l.accounts, NextBalances(l.accounts, l.balances, r.entries), l.journal + [Posting(h, r)]), Ok(|l.journal|))
    ensures Values(NextBalances(l.accounts, l.balances, r.entries)) == Moved(l.accounts, Values(l.balances), x, y, amount)
  {
    hide ApplyEntries, Validate, TriggerAccepts;
    TwoLegsValid(r, x, y, amount, c);
    ApplyTwo(l.accounts, Values(l.balances), r.entries[0], r.entries[1]);
    assert r.entries == [r.entries[0], r.entries[1]];
    NextValues(l.accounts, l.balances, r.entries);
  }

  // ----- totals -----

  /** A total to which only account `i` contributes. */
  lemma {:induction false} OnlyContributor(accounts: seq<Account>, values: seq<int>, i: nat, k: AccountKind, c: Currency)
    requires |values| == |accounts| && i < |accounts| && accounts[i].kind == k && accounts[i].currency == c
    requires forall j :: 0 <= j < |accounts| && j != i && accounts[j].kind == k && accounts[j].currency == c ==> values[j] == 0
    ensures KindTotal(accounts, values, k, c) == values[i]
  {
    KindTotalUpdate(accounts, values, i, 0, k, c);
    NoContributor(accounts, values[i := 0], k, c);
  }

  lemma {:induction false} NoContributor(accounts: seq<Account>, values: seq<int>, k: AccountKind, c: Currency)
    requires |values| == |accounts|
    requires forall j :: 0 <= j < |accounts| && accounts[j].kind == k && accounts[j].currency == c ==> values[j] == 0
    ensures KindTotal(accounts, values, k, c) == 0
  {
    if accounts != [] { NoContributor(accounts[..|accounts| - 1], values[..|accounts| - 1], k, c); }
  }

  lemma {:induction false} TotalIsNotNegative(accounts: seq<Account>, values: seq<int>, k: AccountKind, c: Currency)
    requires |values| == |accounts|
    requires forall j :: 0 <= j < |accounts| && accounts[j].kind == k ==> values[j] >= 0
    ensures KindTotal(accounts, values, k, c) >= 0
  {
    if accounts != [] { TotalIsNotNegative(accounts[..|accounts| - 1], values[..|accounts| - 1], k, c); }
  }

  /** Two customers of a currency never own more than all of them. */
  lemma {:induction false} PairWithinTotal(accounts: seq<Account>, values: seq<int>, i: nat, j: nat, c: Currency)
    requires |values| == |accounts| && i < |accounts| && j < |accounts| && i != j
    requires accounts[i].kind == Customer && accounts[j].kind == Customer && accounts[i].currency == c && accounts[j].currency == c
    requires forall j :: 0 <= j < |accounts| && accounts[j].kind == Customer ==> values[j] >= 0
    ensures values[i] + values[j] <= KindTotal(accounts, values, Customer, c)
  {
    KindTotalUpdate(accounts, values, i, 0, Customer, c);
    KindTotalUpdate(accounts, values[i := 0], j, 0, Customer, c);
    TotalIsNotNegative(accounts, values[i := 0][j := 0], Customer, c);
  }

  /** All that the customers of a currency own. */
  function Circulation(l: Ledger, c: Currency): int
    requires |l.balances| == |l.accounts|
  {
    KindTotal(l.accounts, Values(l.balances), Customer, c)
  }

  /** It is what the clearing account holds, and nothing without one. */
  lemma ClearingHolds(l: Ledger, c: Currency)
    requires Inv(l)
    ensures match FindClearing(l.accounts, c)
      case Some(k) => Circulation(l, c) == l.balances[k].value
      case None => Circulation(l, c) == 0
    ensures 0 <= Circulation(l, c) < NUMERIC_LIMIT
  {
    hide PostingsOk, JournalKeys;
    assert KindTotal(l.accounts, Values(l.balances), Customer, c) == KindTotal(l.accounts, Values(l.balances), FxClearing, c);
    TotalIsNotNegative(l.accounts, Values(l.balances), Customer, c);
    match FindClearing(l.accounts, c)
    case Some(k) => OnlyContributor(l.accounts, Values(l.balances), k, FxClearing, c);
    case None => NoContributor(l.accounts, Values(l.balances), FxClearing, c);
  }

  // ----- what other callers can do -----

  /** A caller that stays away from the references in `avoid` and from FX postings. */
  predicate Harmless(e: Event, avoid: set<nat>) { !IsFxPost(e) && (ReferenceOf(e).Some? ==> ReferenceOf(e).value !in avoid) }

  ghost function After(l: Ledger, es: seq<Event>): (l': Ledger)
    requires |l.balances| == |l.accounts|
    ensures |l'.balances| == |l'.accounts|
  {
    if es == [] then l else
      var before := After(l, es[..|es| - 1]);
      NextSizes(before, es[|es| - 1]);
      Next(before, es[|es| - 1])
  }

  /** Other callers alone can bring the ledger from `l` to `l'`. */
  ghost predicate Brings(l: Ledger, l': Ledger, avoid: set<nat>)
    requires |l.balances| == |l.accounts|
  {
    exists es: seq<Event> :: (forall e :: e in es ==> Harmless(e, avoid)) && After(l, es) == l'
  }

  lemma {:induction false} BringsSelf(l: Ledger, avoid: set<nat>)
    requires |l.balances| == |l.accounts|
    ensures Brings(l, l, avoid)
  {
    var none: seq<Event> := [];
    assert After(l, none) == l;
  }

  lemma {:induction false} BringsNext(l: Ledger, l': Ledger, e: Event, avoid: set<nat>)
    requires |l.balances| == |l.accounts| && |l'.balances| == |l'.accounts| && Brings(l, l', avoid) && Harmless(e, avoid)
    ensures Brings(l, Next(l', e), avoid)
  {
    var es: seq<Event> :| (forall e :: e in es ==> Harmless(e, avoid)) && After(l, es) == l';
    var more := es + [e];
    assert more[..|more| - 1] == es;
    assert After(l, more) == Next(l', e);
  }

  /** The journal has nothing under the references in `avoid` that it did not have. */
  predicate Spares(l: Ledger, l': Ledger, avoid: set<nat>) {
    forall r :: r in avoid ==> (FindReference(l'.journal, r).None? <==> FindReference(l.journal, r).None?)
  }

  /** `l'` is a ledger that others can bring about: sound, and free of new postings under `avoid`. */
  ghost predicate Within(l: Ledger, l': Ledger, avoid: set<nat>)
    requires |l.balances| == |l.accounts|
  {
    Inv(l') && Brings(l, l', avoid) && Spares(l, l', avoid)
  }

  lemma {:induction false} SparesNext(l: Ledger, e: Event, avoid: set<nat>)
    requires |l.balances| == |l.accounts| && Harmless(e, avoid)
    ensures Spares(l, Next(l, e), avoid)
  {
    hide Next;
    var l' := Next(l, e);
    NextGrows(l, e);
    forall r | r in avoid ensures FindReference(l'.journal, r).None? <==> FindReference(l.journal, r).None? {
      var was, now := FindReference(l.journal, r), FindReference(l'.journal, r);
      if was.Some? { assert l'.journal[..|l.journal|][was.value].body.reference == r; }
      if now.Some? && now.value < |l.journal| { assert l'.journal[..|l.journal|][now.value].body.reference == r; }
    }
  }

  lemma {:induction false} WithinNext(l: Ledger, l': Ledger, e: Event, avoid: set<nat>)
    requires |l.balances| == |l.accounts| && Within(l, l', avoid) && Harmless(e, avoid)
    ensures Within(l, Next(l', e), avoid)
  {
    hide Next, Harmless, Brings, Inv;
    InvSizes(l');
    BringsNext(l, l', e, avoid);
    SparesNext(l', e, avoid);
    NextKeepsInv(l', e);
  }

  lemma InvSizes(l: Ledger)
    requires Inv(l)
    ensures |l.balances| == |l.accounts| && BalancesFit(Values(l.balances))
  {
  }

  /** A reference that no one uses. */
  lemma FreeReference(l: Ledger, avoid: set<nat>)
    returns (r: nat)
    ensures r !in avoid && FindReference(l.journal, r).None?
  {
    var used := set k | 0 <= k < |l.journal| :: l.journal[k].body.reference;
    r := Order.FreshName(avoid + used);
    forall k | 0 <= k < |l.journal| ensures l.journal[k].body.reference != r { assert l.journal[k].body.reference in used; }
  }

  // ----- every account can be made active -----

  predicate AllActive(accounts: seq<Account>) { forall i :: 0 <= i < |accounts| ==> accounts[i].status == Active }

  lemma {:induction false} Activate(l: Ledger, from: Ledger, n: nat, avoid: set<nat>)
    returns (l': Ledger)
    requires |l.balances| == |l.accounts| && Within(l, from, avoid) && n <= |from.accounts|
    requires forall i :: 0 <= i < n ==> from.accounts[i].status == Active
    ensures Within(l, l', avoid) && AllActive(l'.accounts)
    ensures l'.balances == from.balances && l'.journal == from.journal && |l'.accounts| == |from.accounts|
    ensures forall i :: 0 <= i < |l'.accounts| ==> SameOwner(from.accounts[i], l'.accounts[i])
    decreases |from.accounts| - n
  {
    hide Within;
    if n == |from.accounts| { return from; }
    WithinNext(l, from, DoSetStatus(n, Active), avoid);
    WithinSizes(l, from, avoid);
    l' := Activate(l, Next(from, DoSetStatus(n, Active)), n + 1, avoid);
  }

  lemma WithinSizes(l: Ledger, l': Ledger, avoid: set<nat>)
    requires |l.balances| == |l.accounts| && Within(l, l', avoid)
    ensures |l'.balances| == |l'.accounts|
  {
  }

  // ----- moving and adding money -----

  lemma {:induction false} OwnWallet(accounts: seq<Account>, k: nat)
    requires AccountsOk(accounts) && k < |accounts| && accounts[k].kind == Customer
    ensures accounts[k].wallet.Some? && FindWallet(accounts, accounts[k].wallet.value) == Some(k)
  {
    assert AccountShape(accounts[k]);
    var r := FindWallet(accounts, accounts[k].wallet.value);
    assert AccountShape(accounts[r.value]);
  }

  /** A transfer in one currency, from one wallet to another. */
  predicate PairCommand(c: Command) {
    && c.kind == TransferPosting && c.sourceCurrency == c.targetCurrency && c.quote.None? && c.rate.None?
    && 0 < c.sourceAmount < NUMERIC_LIMIT && c.targetAmount == c.sourceAmount && |c.lines| == 2
    && c.lines == [ Line(c.lines[0].wallet, Debit, c.sourceAmount, c.sourceCurrency),
                    Line(c.lines[1].wallet, Credit, c.sourceAmount, c.sourceCurrency) ]
  }

  lemma {:induction false} PairPosts(l: Ledger, c: Command, x: nat, y: nat)
    requires Inv(l) && PairCommand(c) && FindReference(l.journal, c.reference).None?
    requires FindWallet(l.accounts, c.lines[0].wallet) == Some(x) && FindWallet(l.accounts, c.lines[1].wallet) == Some(y)
    requires CanMove(l.accounts, Values(l.balances), x, y, c.sourceAmount, c.sourceCurrency)
    ensures FxShape(c) && Lookup(l, c) == None
    ensures var (l', answer) := PostAfterLookup(l, c);
      && l'.accounts == l.accounts && |l'.balances| == |l.balances| && answer.Ok? && |l'.journal| == |l.journal| + 1
      && Values(l'.balances) == Moved(l.accounts, Values(l.balances), x, y, c.sourceAmount)
  {
    hide ApplyEntries, Validate, TriggerAccepts, PostAndSettle, Inv, Moved, Values;
    InvSizes(l);
    assert WalletsKnown(l.accounts, c.lines) && LinesUsable(l.accounts, c.lines);
    var r := Resolve(l.accounts, c);
    assert r.entries == [ Entry(x, Debit, c.sourceAmount, c.sourceCurrency, None, None),
                          Entry(y, Credit, c.sourceAmount, c.sourceCurrency, None, None) ];
    TwoLegsCommit(l, r, CommandHash(c), x, y, c.sourceAmount, c.sourceCurrency);
  }

  /** A move between two accounts of one kind and currency leaves every total as it was. */
  lemma {:induction false} MoveKeepsTotal(accounts: seq<Account>, values: seq<int>, x: nat, y: nat, amount: int, d: Currency)
    requires |values| == |accounts| && x < |accounts| && y < |accounts| && x != y
    requires accounts[x].kind == Customer && accounts[y].kind == Customer && accounts[x].currency == accounts[y].currency
    requires accounts[x].normal == Credit && accounts[y].normal == Credit
    ensures KindTotal(accounts, Moved(accounts, values, x, y, amount), Customer, d) == KindTotal(accounts, values, Customer, d)
  {
    var mid := values[x := values[x] - amount];
    KindTotalUpdate(accounts, values, x, values[x] - amount, Customer, d);
    KindTotalUpdate(accounts, mid, y, mid[y] + amount, Customer, d);
  }

  /** Another caller moves all the money of customer `k` to customer `a`. */
  lemma {:induction false} MoveAll(l: Ledger, from: Ledger, k: nat, a: nat, c: Currency, d: Currency, avoid: set<nat>)
    returns (l': Ledger)
    requires |l.balances| == |l.accounts| && Within(l, from, avoid) && AllActive(from.accounts)
    requires k < |from.accounts| && a < |from.accounts| && k != a && from.balances[k].value > 0
    requires from.accounts[k].kind == Customer && from.accounts[k].currency == c
    requires from.accounts[a].kind == Customer && from.accounts[a].currency == c
    ensures Within(l, l', avoid) && l'.accounts == from.accounts && |l'.balances| == |from.balances|
    ensures Values(l'.balances) == Moved(from.accounts, Values(from.balances), k, a, from.balances[k].value)
    ensures Circulation(l', d) == Circulation(from, d)
  {
    hide Moved, ApplyEntries, Validate, TriggerAccepts, PostAndSettle, Brings, Spares, PostAfterLookup, PostingsOk, JournalKeys;
    InvSizes(from);
    OwnWallet(from.accounts, k);
    OwnWallet(from.accounts, a);
    var b := from.balances[k].value;
    ClearingHolds(from, c);
    PairWithinTotal(from.accounts, Values(from.balances), k, a, c);
    var r := FreeReference(from, avoid);
    var command := Command(r, TransferPosting, c, c, b, b, None, None,
                           [ Line(from.accounts[k].wallet.value, Debit, b, c), Line(from.accounts[a].wallet.value, Credit, b, c) ]);
    PairPosts(from, command, k, a);
    WithinNext(l, from, DoPost(command), avoid);
    MoveKeepsTotal(from.accounts, Values(from.balances), k, a, b, d);
    l' := Next(from, DoPost(command));
  }

  /** No customer of the currency but `a`, among the first `n` accounts, owns anything. */
  predicate Swept(l: Ledger, a: nat, c: Currency, n: nat)
    requires |l.balances| == |l.accounts|
  {
    forall i :: 0 <= i < n && i < |l.accounts| && i != a && l.accounts[i].kind == Customer && l.accounts[i].currency == c ==>
      l.balances[i].value == 0
  }

  lemma {:induction false} Sweep(l: Ledger, from: Ledger, a: nat, c: Currency, d: Currency, n: nat, avoid: set<nat>)
    returns (l': Ledger)
    requires |l.balances| == |l.accounts| && Within(l, from, avoid) && AllActive(from.accounts) && n <= |from.accounts|
    requires a < |from.accounts| && from.accounts[a].kind == Customer && from.accounts[a].currency == c && Swept(from, a, c, n)
    ensures Within(l, l', avoid) && l'.accounts == from.accounts && |l'.balances| == |from.balances|
    ensures Swept(l', a, c, |l'.accounts|) && Circulation(l', d) == Circulation(from, d)
    decreases |from.accounts| - n
  {
    hide Inv, Brings, Spares;
    InvSizes(from);
    if n == |from.accounts| { return from; }
    if n != a && from.accounts[n].kind == Customer && from.accounts[n].currency == c && from.balances[n].value != 0 {
      CustomersSolvent(from, n);
      var next := MoveAll(l, from, n, a, c, d, avoid);
      assert Swept(next, a, c, n + 1) by { MovedSweeps(from, next, n, a, c); }
      l' := Sweep(l, next, a, c, d, n + 1, avoid);
    } else {
      l' := Sweep(l, from, a, c, d, n + 1, avoid);
    }
  }

  lemma CustomersSolvent(l: Ledger, n: nat)
    requires Inv(l) && n < |l.accounts| && l.accounts[n].kind == Customer
    ensures |l.balances| == |l.accounts| && l.balances[n].value >= 0 && l.accounts[n].normal == Credit
  {
    assert AccountShape(l.accounts[n]);
  }

  lemma {:induction false} MovedSweeps(l: Ledger, l': Ledger, n: nat, a: nat, c: Currency)
    requires |l.balances| == |l.accounts| == |l'.balances| && l'.accounts == l.accounts && n < |l.accounts| && a < |l.accounts| && n != a
    requires l.accounts[n].normal == Credit && Swept(l, a, c, n)
    requires Values(l'.balances) == Moved(l.accounts, Values(l.balances), n, a, l.balances[n].value)
    ensures Swept(l', a, c, n + 1)
  {
    forall i | 0 <= i < |l.accounts| ensures l'.balances[i].value == Moved(l.accounts, Values(l.balances), n, a, l.balances[n].value)[i] {
      assert Values(l'.balances)[i] == l'.balances[i].value;
    }
  }

  /** With its clearing account in place, customer `a` can be funded. */
  lemma {:induction false} CanFund(l: Ledger, a: nat, amount: int, c: Currency)
    requires Inv(l) && AllActive(l.accounts) && a < |l.accounts| && |l.balances| == |l.accounts|
    requires l.accounts[a].kind == Customer && l.accounts[a].currency == c
    requires 0 < amount && Circulation(l, c) + amount < NUMERIC_LIMIT
    ensures var l1 := EnsureClearing(l, c);
      && Inv(l1) && AllActive(l1.accounts) && l.accounts <= l1.accounts && |l1.balances| == |l1.accounts|
      && l1.balances[a] == l.balances[a] && l1.journal == l.journal
      && CanMove(l1.accounts, Values(l1.balances), FindClearing(l1.accounts, c).value, a, amount, c)
  {
    hide PostingsOk, JournalKeys, ProjectionOk, Conserved, AccountsOk, BalancesFit;
    var l1 := EnsureClearing(l, c);
    EnsureClearingKeepsInv(l, c);
    EnsureClearingTotals(l, c, c);
    InvSizes(l1);
    ClearingHolds(l1, c);
    AtMostTotal(l, a, c);
    CustomersSolvent(l1, a);
    ClearingShape(l1, FindClearing(l1.accounts, c).value);
  }

  lemma ClearingShape(l: Ledger, k: nat)
    requires Inv(l) && k < |l.accounts| && l.accounts[k].kind == FxClearing
    ensures l.accounts[k].normal == Debit
  {
    assert AccountShape(l.accounts[k]);
  }

  /** Another caller funds customer `a`. */
  lemma {:induction false} FundOnce(l: Ledger, from: Ledger, a: nat, amount: int, c: Currency, d: Currency, avoid: set<nat>)
    returns (l': Ledger)
    requires |l.balances| == |l.accounts| && Within(l, from, avoid) && AllActive(from.accounts) && a < |from.accounts|
    requires |from.balances| == |from.accounts|
    requires from.accounts[a].kind == Customer && from.accounts[a].currency == c && c != d
    requires 0 < amount && Circulation(from, c) + amount < NUMERIC_LIMIT
    ensures Within(l, l', avoid) && AllActive(l'.accounts) && from.accounts <= l'.accounts
    ensures |l'.balances| == |l'.accounts| && l'.balances[a].value == from.balances[a].value + amount
    ensures Circulation(l', d) == Circulation(from, d)
  {
    hide Inv, Moved, ApplyEntries, Validate, TriggerAccepts, PostAndSettle, Brings, Spares, Next, EnsureClearing, BalancesFit, CanMove,
         Circulation, NextBalances;
    InvSizes(from);
    CustomersSolvent(from, a);
    WalletOf(from, a);
    var r := FreeReference(from, avoid);
    var wallet := from.accounts[a].wallet.value;
    var l1 := EnsureClearing(from, c);
    var k := FindClearing(l1.accounts, c).value;
    CanFund(from, a, amount, c);
    AtMostTotal(from, a, c);
    EnsureClearingTotals(from, c, d);
    InvSizes(l1);
    var body := FundingPosting(k, a, r, amount, c);
    TwoLegsCommit(l1, body, FundingHash(r, wallet, amount, c), k, a, amount, c);
    WithinNext(l, from, DoFund(r, wallet, amount, c), avoid);
    FundIs(from, r, wallet, a, amount, c);
    l' := Next(from, DoFund(r, wallet, amount, c));
    FundedTotals(l1, l', k, a, amount, c, d);
  }

  lemma WalletOf(l: Ledger, a: nat)
    requires Inv(l) && a < |l.accounts| && l.accounts[a].kind == Customer
    ensures l.accounts[a].wallet.Some? && FindWallet(l.accounts, l.accounts[a].wallet.value) == Some(a)
  {
    OwnWallet(l.accounts, a);
  }

  lemma AtMostTotal(l: Ledger, a: nat, c: Currency)
    requires Inv(l) && a < |l.accounts| && l.accounts[a].kind == Customer && l.accounts[a].currency == c
    ensures |l.balances| == |l.accounts| && 0 <= l.balances[a].value <= Circulation(l, c)
  {
    CustomersSolvent(l, a);
    KindTotalUpdate(l.accounts, Values(l.balances), a, 0, Customer, c);
    TotalIsNotNegative(l.accounts, Values(l.balances)[a := 0], Customer, c);
  }

  lemma EnsureClearingTotals(l: Ledger, c: Currency, d: Currency)
    requires |l.balances| == |l.accounts|
    ensures |EnsureClearing(l, c).balances| == |EnsureClearing(l, c).accounts| && Circulation(EnsureClearing(l, c), d) == Circulation(l, d)
  {
    var l' := EnsureClearing(l, c);
    if l' != l { assert l'.accounts[..|l.accounts|] == l.accounts && Values(l'.balances)[..|l.accounts|] == Values(l.balances); }
  }

  lemma FundIs(l: Ledger, r: nat, wallet: nat, a: nat, amount: int, c: Currency)
    requires |l.balances| == |l.accounts| && FindWallet(l.accounts, wallet) == Some(a)
    requires l.accounts[a].currency == c && l.accounts[a].status == Active && FindReference(l.journal, r).None?
    ensures var l1 := EnsureClearing(l, c);
      Next(l, DoFund(r, wallet, amount, c)) ==
      PostAndSettle(l1, FundingPosting(FindClearing(l1.accounts, c).value, a, r, amount, c), FundingHash(r, wallet, amount, c)).0
  {
    hide PostAndSettle;
  }

  lemma {:induction false} FundedTotals(l: Ledger, l': Ledger, k: nat, a: nat, amount: int, c: Currency, d: Currency)
    requires |l.balances| == |l.accounts| == |l'.balances| && l'.accounts == l.accounts && k < |l.accounts| && a < |l.accounts| && k != a
    requires l.accounts[a].normal == Credit && l.accounts[a].currency == c && c != d && l.accounts[k].currency == c
    requires Values(l'.balances) == Moved(l.accounts, Values(l.balances), k, a, amount)
    ensures Circulation(l', d) == Circulation(l, d) && l'.balances[a].value == l.balances[a].value + amount
  {
    var values := Values(l.balances);
    var mid := values[k := Moved(l.accounts, values, k, a, amount)[k]];
    KindTotalUpdate(l.accounts, values, k, mid[k], Customer, d);
    KindTotalUpdate(l.accounts, mid, a, mid[a] + amount, Customer, d);
    assert Values(l'.balances) == mid[a := mid[a] + amount];
    assert Values(l'.balances)[a] == l'.balances[a].value;
  }

  // ----- an FX transfer through clearing -----

  /** A transfer between two currencies, from one wallet to another. */
  predicate FxCommand(c: Command) {
    && c.kind == FxTransfer && c.sourceCurrency != c.targetCurrency && FxFields(c.quote, c.rate)
    && 0 < c.sourceAmount < NUMERIC_LIMIT && 0 < c.targetAmount < NUMERIC_LIMIT && |c.lines| == 2
    && c.lines == [ Line(c.lines[0].wallet, Debit, c.sourceAmount, c.sourceCurrency),
                    Line(c.lines[1].wallet, Credit, c.targetAmount, c.targetCurrency) ]
  }

  /** The four legs: sender, recipient, and the clearing accounts of the two currencies. */
  function FourLegs(c: Command, a: nat, b: nat, s: nat, t: nat): seq<Entry> {
    [ Entry(a, Debit, c.sourceAmount, c.sourceCurrency, c.quote, c.rate),
      Entry(b, Credit, c.targetAmount, c.targetCurrency, c.quote, c.rate),
      Entry(s, Credit, c.sourceAmount, c.sourceCurrency, c.quote, c.rate),
      Entry(t, Debit, c.targetAmount, c.targetCurrency, c.quote, c.rate) ]
  }

  lemma FourLegsValid(c: Command, a: nat, b: nat, s: nat, t: nat)
    requires FxCommand(c)
    ensures var r := WithEntries(c, FourLegs(c, a, b, s, t)); Validate(r).None? && TriggerAccepts(r.entries) && RowCheck(r)
  {
    var es := FourLegs(c, a, b, s, t);
    forall d: nat, side: Side
      ensures SideSum(es, d, side) ==
        if d == c.sourceCurrency then c.sourceAmount else if d == c.targetCurrency then c.targetAmount else 0
    {
      SumOfConcat([es[0]], [es[1]], d, side);
      SumOfConcat([es[2]], [es[3]], d, side);
      SumOfConcat([es[0]] + [es[1]], [es[2]] + [es[3]], d, side);
      assert es == [es[0]] + [es[1]] + ([es[2]] + [es[3]]);
    }
    assert es[0].currency == c.sourceCurrency && es[1].currency == c.targetCurrency;
  }

  lemma {:induction false} ApplyFour(accounts: seq<Account>, values: seq<int>, c: Command, a: nat, b: nat, s: nat, t: nat)
    requires |values| == |accounts| && a < |accounts| && b < |accounts| && s < |accounts| && t < |accounts|
    requires a != b && a != s && a != t && b != s && b != t && s != t
    requires accounts[a].normal == Credit && accounts[b].normal == Credit && accounts[s].normal == Debit && accounts[t].normal == Debit
    ensures ApplyEntries(accounts, values, FourLegs(c, a, b, s, t)) ==
      values[a := values[a] - c.sourceAmount][b := values[b] + c.targetAmount]
            [s := values[s] - c.sourceAmount][t := values[t] + c.targetAmount]
  {
    var es := FourLegs(c, a, b, s, t);
    assert es[..3] == [es[0], es[1], es[2]] && [es[0], es[1], es[2]][..2] == [es[0], es[1]];
    ApplyTwo(accounts, values, es[0], es[1]);
    assert ApplyEntries(accounts, values, es[..3]) ==
      values[a := values[a] - c.sourceAmount][b := values[b] + c.targetAmount][s := values[s] - c.sourceAmount];
  }

  /** The four accounts may be posted to, and the money and the room are there. */
  predicate CanExchange(accounts: seq<Account>, values: seq<int>, c: Command, a: nat, b: nat, s: nat, t: nat) {
    && |values| == |accounts| && a < |accounts| && b < |accounts| && s < |accounts| && t < |accounts|
    && a != b && a != s && a != t && b != s && b != t && s != t
    && accounts[a].kind == Customer && accounts[b].kind == Customer && accounts[s].kind == FxClearing && accounts[t].kind == FxClearing
    && accounts[a].normal == Credit && accounts[b].normal == Credit && accounts[s].normal == Debit && accounts[t].normal == Debit
    && accounts[a].currency == c.sourceCurrency && accounts[b].currency == c.targetCurrency
    && accounts[s].currency == c.sourceCurrency && accounts[t].currency == c.targetCurrency
    && c.sourceAmount <= values[a] && 0 <= values[b] && values[b] + c.targetAmount < NUMERIC_LIMIT
    && 0 <= values[s] && 0 <= values[t] && values[t] + c.targetAmount < NUMERIC_LIMIT
  }

  lemma {:induction false} FourLegsCommit(l: Ledger, c: Command, h: Hash, a: nat, b: nat, s: nat, t: nat)
    requires FxCommand(c) && |l.balances| == |l.accounts| && BalancesFit(Values(l.balances)) && AllActive(l.accounts)
    requires CanExchange(l.accounts, Values(l.balances), c, a, b, s, t) && FindReference(l.journal, c.reference).None?
    ensures PostAndSettle(l, WithEntries(c, FourLegs(c, a, b, s, t)), h).1.Ok?
  {
    hide ApplyEntries, Validate, TriggerAccepts, RowCheck;
    FourLegsValid(c, a, b, s, t);
    ApplyFour(l.accounts, Values(l.balances), c, a, b, s, t);
  }

  /** What ensuring one clearing account leaves alone. */
  lemma EnsureClearingFrame(l: Ledger, c: Currency)
    requires Inv(l) && AllActive(l.accounts)
    ensures var l' := EnsureClearing(l, c);
      && Inv(l') && AllActive(l'.accounts) && l.accounts <= l'.accounts && l'.journal == l.journal
      && |l.balances| == |l.accounts| && |l'.balances| == |l'.accounts| && l.balances <= l'.balances
  {
    EnsureClearingKeepsInv(l, c);
    InvSizes(l);
  }

  /** Once everything is active and funded, and its currency has room, the FX transfer goes through. */
  lemma {:induction false} FxPosts(l: Ledger, c: Command, a: nat, b: nat)
    requires Inv(l) && AllActive(l.accounts) && FxCommand(c) && FindReference(l.journal, c.reference).None?
    requires |l.balances| == |l.accounts| && a != b
    requires FindWallet(l.accounts, c.lines[0].wallet) == Some(a) && FindWallet(l.accounts, c.lines[1].wallet) == Some(b)
    requires l.accounts[a].currency == c.sourceCurrency && l.accounts[b].currency == c.targetCurrency
    requires c.sourceAmount <= l.balances[a].value && Circulation(l, c.targetCurrency) + c.targetAmount < NUMERIC_LIMIT
    ensures FxShape(c) && Lookup(l, c) == None && PostAfterLookup(l, c).1.Ok?
  {
    hide Inv, ApplyEntries, Validate, TriggerAccepts, PostAndSettle, EnsureClearing, BalancesFit, Circulation, FindWallet, FindClearing;
    var l0 := EnsureClearing(l, c.sourceCurrency);
    var l1 := EnsureClearing(l0, c.targetCurrency);
    EnsureClearingFrame(l, c.sourceCurrency);
    EnsureClearingFrame(l0, c.targetCurrency);
    EnsureClearingTotals(l, c.sourceCurrency, c.targetCurrency);
    EnsureClearingTotals(l0, c.targetCurrency, c.targetCurrency);
    WithClearingFacts(l, c);
    ClearedWallet(l, c, c.lines[0].wallet);
    ClearedWallet(l, c, c.lines[1].wallet);
    var s, t := FindClearing(l1.accounts, c.sourceCurrency).value, FindClearing(l1.accounts, c.targetCurrency).value;
    InvSizes(l1);
    WalletIsCustomer(l1, a);
    WalletIsCustomer(l1, b);
    ClearingShape(l1, s);
    ClearingShape(l1, t);
    ClearingHolds(l1, c.sourceCurrency);
    ClearingHolds(l1, c.targetCurrency);
    AtMostTotal(l1, a, c.sourceCurrency);
    AtMostTotal(l1, b, c.targetCurrency);
    assert LinesUsable(l.accounts, c.lines);
    assert Resolve(l1.accounts, c).entries == FourLegs(c, a, b, s, t);
    FourLegsCommit(l1, c, CommandHash(c), a, b, s, t);
  }

  lemma ClearedWallet(l: Ledger, c: Command, wallet: nat)
    requires |l.balances| == |l.accounts| && FindWallet(l.accounts, wallet).Some?
    ensures FindWallet(EnsureClearing(EnsureClearing(l, c.sourceCurrency), c.targetCurrency).accounts, wallet) == FindWallet(l.accounts, wallet)
  {
    EnsureClearingWallets(l, c.sourceCurrency, wallet);
    EnsureClearingWallets(EnsureClearing(l, c.sourceCurrency), c.targetCurrency, wallet);
  }

  lemma WalletIsCustomer(l: Ledger, a: nat)
    requires Inv(l) && a < |l.accounts| && l.accounts[a].wallet.Some?
    ensures l.accounts[a].kind == Customer && l.accounts[a].normal == Credit
  {
    assert AccountShape(l.accounts[a]);
  }

  // ----- from any sound ledger to one that accepts -----

  /** The command of a transfer, as far as the ledger is concerned. */
  predicate MoveCommand(c: Command) {
    (PairCommand(c) || FxCommand(c)) && c.lines[0].wallet != c.lines[1].wallet
  }

  /** The wallet has no account yet or one in this currency. */
  predicate WalletFits(accounts: seq<Account>, wallet: nat, c: Currency) {
    FindWallet(accounts, wallet).Some? ==> accounts[FindWallet(accounts, wallet).value].currency == c
  }

  predicate WalletReady(accounts: seq<Account>, wallet: nat, c: Currency) {
    FindWallet(accounts, wallet).Some? && accounts[FindWallet(accounts, wallet).value].currency == c
  }

  /** An FX transfer must leave the circulation of its target currency within the numeric columns. */
  predicate HasRoom(l: Ledger, c: Command)
    requires |l.balances| == |l.accounts|
  {
    c.kind == FxTransfer ==> Circulation(l, c.targetCurrency) + c.targetAmount < NUMERIC_LIMIT
  }

  ghost predicate Accepts(l: Ledger, c: Command)
    requires |l.balances| == |l.accounts|
  {
    FxShape(c) && Lookup(l, c) == None && PostAfterLookup(l, c).1.Ok?
  }

  /** The account of a wallet stays its account. */
  lemma {:induction false} ReadyStays(l: Ledger, l': Ledger, wallet: nat, c: Currency)
    requires Inv(l) && Inv(l') && WalletReady(l.accounts, wallet, c) && |l.accounts| <= |l'.accounts|
    requires forall i :: 0 <= i < |l.accounts| ==> SameOwner(l.accounts[i], l'.accounts[i])
    ensures WalletReady(l'.accounts, wallet, c) && FindWallet(l'.accounts, wallet) == FindWallet(l.accounts, wallet)
  {
    var a := FindWallet(l.accounts, wallet).value;
    WalletIsCustomer(l, a);
    WalletOf(l', a);
  }

  lemma {:induction false} Provisioned(l: Ledger, wallet: nat, c: Currency, other: nat, oc: Currency, d: Currency)
    requires |l.balances| == |l.accounts| && wallet != other && WalletFits(l.accounts, wallet, c) && WalletFits(l.accounts, other, oc)
    ensures var l' := Next(l, DoProvision(wallet, c));
      && |l'.balances| == |l'.accounts| && WalletReady(l'.accounts, wallet, c) && WalletFits(l'.accounts, other, oc)
      && (WalletReady(l.accounts, other, oc) ==> WalletReady(l'.accounts, other, oc)) && Circulation(l', d) == Circulation(l, d)
  {
    var l' := Next(l, DoProvision(wallet, c));
    if l' != l {
      assert l'.accounts[..|l.accounts|] == l.accounts && Values(l'.balances)[..|l.accounts|] == Values(l.balances);
    }
  }

  /** Another caller opens the account of a wallet that has none. */
  lemma {:induction false} Open(l: Ledger, from: Ledger, wallet: nat, c: Currency, other: nat, oc: Currency, d: Currency, avoid: set<nat>)
    returns (l': Ledger)
    requires |l.balances| == |l.accounts| && |from.balances| == |from.accounts| && Within(l, from, avoid) && wallet != other
    requires WalletFits(from.accounts, wallet, c) && WalletFits(from.accounts, other, oc)
    ensures Within(l, l', avoid) && |l'.balances| == |l'.accounts| && WalletReady(l'.accounts, wallet, c)
    ensures WalletFits(l'.accounts, other, oc) && (WalletReady(from.accounts, other, oc) ==> WalletReady(l'.accounts, other, oc))
    ensures Circulation(l', d) == Circulation(from, d)
  {
    hide Next, Within, WalletFits, WalletReady, Circulation;
    l' := Next(from, DoProvision(wallet, c));
    WithinNext(l, from, DoProvision(wallet, c), avoid);
    Provisioned(from, wallet, c, other, oc, d);
  }

  /** Both wallets have active accounts in their currencies, the sender's funded for the command. */
  predicate Prepared(l: Ledger, c: Command)
    requires MoveCommand(c) && |l.balances| == |l.accounts|
  {
    && AllActive(l.accounts) && HasRoom(l, c)
    && WalletReady(l.accounts, c.lines[0].wallet, c.sourceCurrency) && WalletReady(l.accounts, c.lines[1].wallet, c.targetCurrency)
    && c.sourceAmount <= l.balances[FindWallet(l.accounts, c.lines[0].wallet).value].value
  }

  lemma {:induction false} PreparedAccepts(l: Ledger, c: Command)
    requires Inv(l) && MoveCommand(c) && |l.balances| == |l.accounts| && Prepared(l, c) && FindReference(l.journal, c.reference).None?
    ensures Accepts(l, c)
  {
    hide Inv, PostAfterLookup, Circulation;
    var a, b := FindWallet(l.accounts, c.lines[0].wallet).value, FindWallet(l.accounts, c.lines[1].wallet).value;
    if FxCommand(c) {
      FxPosts(l, c, a, b);
    } else {
      WalletIsCustomer(l, a);
      WalletIsCustomer(l, b);
      CustomersSolvent(l, b);
      ClearingHolds(l, c.sourceCurrency);
      WithinCirculation(l, a, b, c.sourceCurrency);
      PairPosts(l, c, a, b);
    }
  }

  lemma WithinCirculation(l: Ledger, a: nat, b: nat, c: Currency)
    requires Inv(l) && a < |l.accounts| && b < |l.accounts| && a != b
    requires l.accounts[a].kind == Customer && l.accounts[b].kind == Customer && l.accounts[a].currency == c && l.accounts[b].currency == c
    ensures |l.balances| == |l.accounts| && l.balances[a].value + l.balances[b].value <= Circulation(l, c)
  {
    PairWithinTotal(l.accounts, Values(l.balances), a, b, c);
  }

  /** Both accounts are opened and every account is made active. */
  lemma {:induction false} OpenBoth(l: Ledger, c: Command, avoid: set<nat>)
    returns (l': Ledger)
    requires Inv(l) && |l.balances| == |l.accounts| && MoveCommand(c) && HasRoom(l, c)
    requires WalletFits(l.accounts, c.lines[0].wallet, c.sourceCurrency) && WalletFits(l.accounts, c.lines[1].wallet, c.targetCurrency)
    ensures Within(l, l', avoid) && |l'.balances| == |l'.accounts| && AllActive(l'.accounts) && HasRoom(l', c)
    ensures WalletReady(l'.accounts, c.lines[0].wallet, c.sourceCurrency) && WalletReady(l'.accounts, c.lines[1].wallet, c.targetCurrency)
  {
    hide Inv, Next, Circulation, WalletFits, WalletReady, Brings;
    var s, r := c.lines[0].wallet, c.lines[1].wallet;
    BringsSelf(l, avoid);
    var l1 := Open(l, l, s, c.sourceCurrency, r, c.targetCurrency, c.targetCurrency, avoid);
    FitsAgain(l1, s, c.sourceCurrency);
    var l2 := Open(l, l1, r, c.targetCurrency, s, c.sourceCurrency, c.targetCurrency, avoid);
    l' := Activate(l, l2, 0, avoid);
    ReadyStays(l2, l', s, c.sourceCurrency);
    ReadyStays(l2, l', r, c.targetCurrency);
    ActiveTotals(l2, l', c.targetCurrency);
  }

  lemma FitsAgain(l: Ledger, wallet: nat, c: Currency)
    requires WalletReady(l.accounts, wallet, c)
    ensures WalletFits(l.accounts, wallet, c)
  {
  }

  lemma ActiveTotals(l: Ledger, l': Ledger, c: Currency)
    requires |l.balances| == |l.accounts| == |l'.accounts| && l'.balances == l.balances
    requires forall i :: 0 <= i < |l.accounts| ==> SameOwner(l.accounts[i], l'.accounts[i])
    ensures Circulation(l', c) == Circulation(l, c)
  {
    StatusIrrelevant(l.accounts, l'.accounts, Values(l.balances), Customer, c);
  }

  /** The sender is given what it lacks: first all the money of its currency, then, if need be, new money. */
  lemma {:induction false} Endow(l: Ledger, from: Ledger, c: Command, avoid: set<nat>)
    returns (l': Ledger)
    requires |l.balances| == |l.accounts| && Within(l, from, avoid) && |from.balances| == |from.accounts| && AllActive(from.accounts)
    requires MoveCommand(c) && HasRoom(from, c)
    requires WalletReady(from.accounts, c.lines[0].wallet, c.sourceCurrency) && WalletReady(from.accounts, c.lines[1].wallet, c.targetCurrency)
    ensures Within(l, l', avoid) && |l'.balances| == |l'.accounts| && Prepared(l', c)
  {
    hide Inv, Next, Brings, Spares, Circulation, WalletReady;
    var s, d := c.lines[0].wallet, if c.kind == FxTransfer then c.targetCurrency else c.sourceCurrency + 1;
    ReadyAccount(from, s, c.sourceCurrency);
    var a := FindWallet(from.accounts, s).value;
    var swept := Sweep(l, from, a, c.sourceCurrency, d, 0, avoid);
    SweptTotal(swept, a, c.sourceCurrency);
    l' := swept;
    if swept.balances[a].value < c.sourceAmount {
      CustomersSolvent(swept, a);
      l' := FundOnce(l, swept, a, c.sourceAmount - swept.balances[a].value, c.sourceCurrency, d, avoid);
      assert forall i :: 0 <= i < |swept.accounts| ==> l'.accounts[i] == swept.accounts[i];
    }
    ReadyStays(from, l', s, c.sourceCurrency);
    ReadyStays(from, l', c.lines[1].wallet, c.targetCurrency);
  }

  lemma ReadyAccount(l: Ledger, wallet: nat, c: Currency)
    requires Inv(l) && WalletReady(l.accounts, wallet, c)
    ensures FindWallet(l.accounts, wallet).Some?
    ensures var a := FindWallet(l.accounts, wallet).value; l.accounts[a].kind == Customer && l.accounts[a].currency == c
  {
    WalletIsCustomer(l, FindWallet(l.accounts, wallet).value);
  }

  lemma SweptTotal(l: Ledger, a: nat, c: Currency)
    requires |l.balances| == |l.accounts| && a < |l.accounts| && l.accounts[a].kind == Customer && l.accounts[a].currency == c
    requires Swept(l, a, c, |l.accounts|)
    ensures Circulation(l, c) == l.balances[a].value
  {
    OnlyContributor(l.accounts, Values(l.balances), a, Customer, c);
  }

  /**
   * Whatever the ledger holds now, other callers can bring it to accept the command of a transfer, as long as
   * neither wallet has an account in another currency.
   */
  lemma {:induction false} ComesToAccept(l: Ledger, c: Command, avoid: set<nat>)
    returns (l': Ledger)
    requires Inv(l) && |l.balances| == |l.accounts| && MoveCommand(c) && HasRoom(l, c)
    requires WalletFits(l.accounts, c.lines[0].wallet, c.sourceCurrency) && WalletFits(l.accounts, c.lines[1].wallet, c.targetCurrency)
    requires c.reference in avoid && FindReference(l.journal, c.reference).None?
    ensures Within(l, l', avoid) && |l'.balances| == |l'.accounts| && Accepts(l', c)
  {
    hide Inv, Prepared, Accepts, Brings, WalletFits, WalletReady, HasRoom;
    var ready := OpenBoth(l, c, avoid);
    l' := Endow(l, ready, c, avoid);
    PreparedAccepts(l', c);
  }
}
