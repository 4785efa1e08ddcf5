/**
 * The double-entry ledger: an append-only journal, the accounts it touches and
 * the balance projection kept beside it.  Every row set is a sequence in commit
 * order, so the identifier of an account or a posting is its position.  Amounts
 * are integers in units of 10^-8, rates in units of 10^-12, and a hash is the
 * very value that is hashed.
 */
module Ledger {
  import opened Common

  type Currency = nat

  datatype Side = Debit | Credit
  datatype AccountKind = Customer | FxClearing | FeeRevenue
  datatype AccountStatus = Active | Frozen | Closed
  datatype PostingKind = TransferPosting | FxTransfer | Fee | Reversal | Funding

  datatype Account = Account(
    wallet: Option<nat>, kind: AccountKind, currency: Currency, normal: Side, status: AccountStatus)

  datatype Balance = Balance(value: int, version: nat)

  /** One line of a client command, addressed by wallet. */
  datatype Line = Line(wallet: nat, side: Side, amount: int, currency: Currency)

  datatype Command = Command(
    reference: nat, kind: PostingKind, sourceCurrency: Currency, targetCurrency: Currency,
    sourceAmount: int, targetAmount: int, quote: Option<nat>, rate: Option<int>, lines: seq<Line>)

  /** One journal line, addressed by account. */
  datatype Entry = Entry(
    account: nat, side: Side, amount: int, currency: Currency, quote: Option<nat>, rate: Option<int>)

  /** A command whose wallets have been resolved to accounts. */
  datatype Resolved = Resolved(
    reference: nat, kind: PostingKind, sourceCurrency: Currency, targetCurrency: Currency,
    sourceAmount: int, targetAmount: int, quote: Option<nat>, rate: Option<int>,
    reverses: Option<nat>, entries: seq<Entry>)

  /** The canonical forms that are hashed; the sorted line list is a multiset. */
  datatype Hash =
    | PostingHash(
        reference: nat, kind: PostingKind, sourceCurrency: Currency, targetCurrency: Currency,
        sourceAmount: int, targetAmount: int, quote: Option<nat>, rate: Option<int>, lines: multiset<Line>)
    | ReversalHash(original: nat, reference: nat)
    | FundingHash(reference: nat, wallet: nat, amount: int, currency: Currency)

  datatype Posting = Posting(hash: Hash, body: Resolved)

  datatype Ledger = Ledger(accounts: seq<Account>, balances: seq<Balance>, journal: seq<Posting>)

  datatype Failure =
    | InvalidFxPosting
    | ReferenceReused
    | PostingNotFound
    | AccountNotFound
    | AccountUnavailable
    | InvalidAmount
    | InvalidRate
    | Unbalanced
    | TotalMismatch
    | InsufficientFunds
    | PostingConflict
    | ReversalOfReversal
    | AlreadyReversed
    | DatabaseError       // CHECK, trigger, overflow or exhausted serialization retries: status 500
    | UniqueViolation     // internal: resolved by a second lookup

  function HttpStatus(f: Failure): nat {
    match f
    case PostingNotFound | AccountNotFound => 404
    case ReferenceReused | AccountUnavailable | PostingConflict | ReversalOfReversal | AlreadyReversed => 409
    case InvalidFxPosting | InvalidAmount | InvalidRate | Unbalanced | TotalMismatch | InsufficientFunds => 422
    case DatabaseError | UniqueViolation => 500
  }

  const EMPTY := Ledger([], [], [])

  // ----- sums over entries and postings -----

  function Opposite(s: Side): Side { if s == Debit then Credit else Debit }

  function SideSum(es: seq<Entry>, c: Currency, s: Side): int {
    if es == [] then 0 else
      var e := es[|es| - 1];
      SideSum(es[..|es| - 1], c, s) + if e.currency == c && e.side == s then e.amount else 0
  }

  /** What one entry does to an account whose balance grows on side `normal`. */
  function Delta(normal: Side, e: Entry): int {
    if e.side == normal then e.amount else -e.amount
  }

  function Movement(es: seq<Entry>, a: nat, normal: Side): int {
    if es == [] then 0 else
      var e := es[|es| - 1];
      Movement(es[..|es| - 1], a, normal) + if e.account == a then Delta(normal, e) else 0
  }

  predicate Touches(es: seq<Entry>, a: nat) { exists i :: 0 <= i < |es| && es[i].account == a }

  /** The distinct accounts of the entries. */
  function AccountsOf(es: seq<Entry>): (accounts: set<nat>)
    ensures forall a :: a in accounts <==> Touches(es, a)
  {
    set i | 0 <= i < |es| :: es[i].account
  }

  function JournalMovement(journal: seq<Posting>, a: nat, normal: Side): int {
    if journal == [] then 0 else
      JournalMovement(journal[..|journal| - 1], a, normal)
      + Movement(journal[|journal| - 1].body.entries, a, normal)
  }

  function TouchCount(journal: seq<Posting>, a: nat): nat {
    if journal == [] then 0 else
      TouchCount(journal[..|journal| - 1], a)
      + if Touches(journal[|journal| - 1].body.entries, a) then 1 else 0
  }

  /** Sum of `values` over the accounts of one kind and currency. */
  function KindTotal(accounts: seq<Account>, values: seq<int>, k: AccountKind, c: Currency): int
    requires |values| == |accounts|
  {
    if accounts == [] then 0 else
      var n := |accounts| - 1;
      KindTotal(accounts[..n], values[..n], k, c)
      + if accounts[n].kind == k && accounts[n].currency == c then values[n] else 0
  }

  function Values(balances: seq<Balance>): (vs: seq<int>)
    ensures |vs| == |balances| && forall i :: 0 <= i < |vs| ==> vs[i] == balances[i].value
  {
    seq(|balances|, i requires 0 <= i < |balances| => balances[i].value)
  }

  // ----- lookups: the first row that matches -----

  function FindWallet(accounts: seq<Account>, wallet: nat): (r: Option<nat>)
    ensures r.Some? ==> r.value < |accounts| && accounts[r.value].wallet == Some(wallet)
    ensures r.None? ==> forall i :: 0 <= i < |accounts| ==> accounts[i].wallet != Some(wallet)
  {
    if accounts == [] then None else
      var r := FindWallet(accounts[..|accounts| - 1], wallet);
      if r.None? && accounts[|accounts| - 1].wallet == Some(wallet) then Some(|accounts| - 1) else r
  }

  function FindClearing(accounts: seq<Account>, c: Currency): (r: Option<nat>)
    ensures r.Some? ==> r.value < |accounts| && accounts[r.value].kind == FxClearing && accounts[r.value].currency == c
    ensures r.None? ==> forall i :: 0 <= i < |accounts| ==> !(accounts[i].kind == FxClearing && accounts[i].currency == c)
  {
    if accounts == [] then None else
      var r := FindClearing(accounts[..|accounts| - 1], c);
      var last := accounts[|accounts| - 1];
      if r.None? && last.kind == FxClearing && last.currency == c then Some(|accounts| - 1) else r
  }

  function FindReference(journal: seq<Posting>, reference: nat): (r: Option<nat>)
    ensures r.Some? ==> r.value < |journal| && journal[r.value].body.reference == reference
    ensures r.None? ==> forall i :: 0 <= i < |journal| ==> journal[i].body.reference != reference
  {
    if journal == [] then None else
      var r := FindReference(journal[..|journal| - 1], reference);
      if r.None? && journal[|journal| - 1].body.reference == reference then Some(|journal| - 1) else r
  }

  predicate Reversed(journal: seq<Posting>, id: nat) {
    exists i :: 0 <= i < |journal| && journal[i].body.reverses == Some(id)
  }

  // ----- validation -----

  ghost predicate Balanced(es: seq<Entry>) {
    forall c: Currency :: SideSum(es, c, Debit) == SideSum(es, c, Credit)
  }

  predicate MentionsCurrency(es: seq<Entry>, c: Currency) { exists i :: 0 <= i < |es| && es[i].currency == c }

  /** The metadata of the posting matches the totals of its journal lines. */
  predicate TotalsMatch(r: Resolved) {
    && MentionsCurrency(r.entries, r.sourceCurrency) && SideSum(r.entries, r.sourceCurrency, Debit) == r.sourceAmount
    && MentionsCurrency(r.entries, r.targetCurrency) && SideSum(r.entries, r.targetCurrency, Credit) == r.targetAmount
  }

  /** The first failure the validator reports, in its order; `isPositive` is a sign test, so zero passes. */
  ghost function Validate(r: Resolved): Option<Failure> {
    if r.sourceAmount < 0 || r.targetAmount < 0 then Some(InvalidAmount)
    else if r.rate.Some? && r.rate.value < 0 then Some(InvalidRate)
    else if exists i :: 0 <= i < |r.entries| && r.entries[i].amount < 0 then Some(InvalidAmount)
    else if !Balanced(r.entries) then Some(Unbalanced)
    else if !TotalsMatch(r) then Some(TotalMismatch)
    else None
  }

  // ----- the guards the database keeps -----

  predicate FxFields(quote: Option<nat>, rate: Option<int>) { quote.Some? && rate.Some? && 0 < rate.value < NUMERIC_LIMIT }

  predicate RowCheck(r: Resolved) {
    && r.sourceAmount > 0 && r.targetAmount > 0
    && r.sourceAmount < NUMERIC_LIMIT && r.targetAmount < NUMERIC_LIMIT
    && (match r.kind
        case FxTransfer => r.sourceCurrency != r.targetCurrency && FxFields(r.quote, r.rate)
        case Reversal =>
          if r.sourceCurrency == r.targetCurrency then r.quote.None? && r.rate.None? else FxFields(r.quote, r.rate)
        case _ => r.sourceCurrency == r.targetCurrency && r.quote.None? && r.rate.None?)
    && (r.kind == Reversal <==> r.reverses.Some?)
  }

  predicate EntryCheck(e: Entry) {
    && 0 < e.amount < NUMERIC_LIMIT
    && ((e.quote.None? && e.rate.None?) || FxFields(e.quote, e.rate))
  }

  /** The deferred constraint trigger: at least two entries and every currency balanced. */
  ghost predicate TriggerAccepts(es: seq<Entry>) { |es| >= 2 && Balanced(es) }

  // ----- applying a posting -----

  predicate InRange(accounts: seq<Account>, es: seq<Entry>) {
    forall i :: 0 <= i < |es| ==> es[i].account < |accounts|
  }

  predicate EntryAllowed(accounts: seq<Account>, kind: PostingKind, e: Entry)
    requires e.account < |accounts|
  {
    && accounts[e.account].currency == e.currency
    && (accounts[e.account].status == Active || (kind == Reversal && accounts[e.account].status == Frozen))
  }

  predicate EntriesAllowed(accounts: seq<Account>, kind: PostingKind, es: seq<Entry>)
    requires InRange(accounts, es)
  {
    forall i :: 0 <= i < |es| ==> EntryAllowed(accounts, kind, es[i])
  }

  /** The `next` map of the posting engine: entries applied one by one. */
  function ApplyEntries(accounts: seq<Account>, values: seq<int>, es: seq<Entry>): (next: seq<int>)
    requires |values| == |accounts| && InRange(accounts, es)
    ensures |next| == |accounts|
  {
    if es == [] then values else
      var e := es[|es| - 1];
      var prev := ApplyEntries(accounts, values, es[..|es| - 1]);
      prev[e.account := prev[e.account] + Delta(accounts[e.account].normal, e)]
  }

  predicate Solvent(accounts: seq<Account>, next: seq<int>, es: seq<Entry>)
    requires |next| == |accounts| && InRange(accounts, es)
  {
    forall i :: 0 <= i < |es| ==> accounts[es[i].account].kind == Customer ==> next[es[i].account] >= 0
  }

  predicate BalancesFit(next: seq<int>) { forall i :: 0 <= i < |next| ==> -NUMERIC_LIMIT < next[i] < NUMERIC_LIMIT }

  function NextBalances(accounts: seq<Account>, balances: seq<Balance>, es: seq<Entry>): (next: seq<Balance>)
    requires |balances| == |accounts| && InRange(accounts, es)
    ensures |next| == |balances|
  {
    var values := ApplyEntries(accounts, Values(balances), es);
    seq(|balances|, i requires 0 <= i < |balances| =>
      if Touches(es, i) then Balance(values[i], balances[i].version + 1) else balances[i])
  }

  /** The serializable transaction of one posting attempt. */
  ghost function Commit(l: Ledger, r: Resolved, h: Hash): Result<Ledger, Failure>
    requires |l.balances| == |l.accounts|
  {
    if !InRange(l.accounts, r.entries) then Err(AccountNotFound)
    else if !EntriesAllowed(l.accounts, r.kind, r.entries) then Err(AccountUnavailable)
    else
      var next := ApplyEntries(l.accounts, Values(l.balances), r.entries);
      if !Solvent(l.accounts, next, r.entries) then Err(InsufficientFunds)
      else if !RowCheck(r) then Err(DatabaseError)
      else if FindReference(l.journal, r.reference).Some? then Err(UniqueViolation)
      else if r.reverses.Some? && Reversed(l.journal, r.reverses.value) then Err(UniqueViolation)
      else if r.reverses.Some? && r.reverses.value >= |l.journal| then Err(DatabaseError)
      else if exists i :: 0 <= i < |r.entries| && !EntryCheck(r.entries[i]) then Err(DatabaseError)
      else if !BalancesFit(next) || !TriggerAccepts(r.entries) then Err(DatabaseError)
      else Ok(Ledger(l.accounts, NextBalances(l.accounts, l.balances, r.entries), l.journal + [Posting(h, r)]))
  }

  /** Validation followed by the transaction. */
  ghost function PostResolved(l: Ledger, r: Resolved, h: Hash): Result<Ledger, Failure>
    requires |l.balances| == |l.accounts|
  {
    if Validate(r).Some? then Err(Validate(r).value) else Commit(l, r, h)
  }

  /** A unique violation is answered by the posting that won, when its hash agrees. */
  function SettleUnique(l: Ledger, reference: nat, h: Hash): Result<nat, Failure> {
    match FindReference(l.journal, reference)
    case None => Err(PostingConflict)
    case Some(i) => if l.journal[i].hash == h then Ok(i) else Err(ReferenceReused)
  }

  /** postResolved plus handlePostingFailure: the new ledger and the answer to the caller. */
  ghost function PostAndSettle(l: Ledger, r: Resolved, h: Hash): (Ledger, Result<nat, Failure>)
    requires |l.balances| == |l.accounts|
  {
    match PostResolved(l, r, h)
    case Ok(l') => (l', Ok(|l.journal|))
    case Err(UniqueViolation) => (l, SettleUnique(l, r.reference, h))
    case Err(f) => (l, Err(f))
  }

  // ----- the commands -----

  function CommandHash(c: Command): Hash {
    PostingHash(c.reference, c.kind, c.sourceCurrency, c.targetCurrency, c.sourceAmount, c.targetAmount,
                c.quote, c.rate, multiset(c.lines))
  }

  predicate FxShape(c: Command) {
    if c.kind == FxTransfer then c.sourceCurrency != c.targetCurrency && c.quote.Some? && c.rate.Some?
    else c.sourceCurrency == c.targetCurrency && c.quote.None? && c.rate.None?
  }

  function EnsureClearing(l: Ledger, c: Currency): (l': Ledger)
    ensures FindClearing(l'.accounts, c).Some?
    ensures |l.accounts| == |l.balances| ==> |l'.accounts| == |l'.balances|
  {
    if FindClearing(l.accounts, c).Some? then l
    else Ledger(l.accounts + [Account(None, FxClearing, c, Debit, Active)], l.balances + [Balance(0, 0)], l.journal)
  }

  predicate WalletsKnown(accounts: seq<Account>, lines: seq<Line>) {
    forall i :: 0 <= i < |lines| ==> FindWallet(accounts, lines[i].wallet).Some?
  }

  predicate LinesUsable(accounts: seq<Account>, lines: seq<Line>)
    requires WalletsKnown(accounts, lines)
  {
    forall i :: 0 <= i < |lines| ==>
      var a := accounts[FindWallet(accounts, lines[i].wallet).value];
      a.currency == lines[i].currency && a.status == Active
  }

  function CustomerEntries(accounts: seq<Account>, c: Command): (es: seq<Entry>)
    requires WalletsKnown(accounts, c.lines)
    ensures |es| == |c.lines|
    ensures forall i :: 0 <= i < |es| ==>
      && es[i].account < |accounts| && accounts[es[i].account].wallet == Some(c.lines[i].wallet)
      && es[i].side == c.lines[i].side && es[i].amount == c.lines[i].amount && es[i].currency == c.lines[i].currency
      && es[i].quote == c.quote && es[i].rate == c.rate
  {
    seq(|c.lines|, i requires 0 <= i < |c.lines| =>
      Entry(FindWallet(accounts, c.lines[i].wallet).value, c.lines[i].side, c.lines[i].amount, c.lines[i].currency,
            c.quote, c.rate))
  }

  /** The two legs that pass an FX transfer through the clearing accounts. */
  function ClearingEntries(accounts: seq<Account>, c: Command): seq<Entry>
    requires FindClearing(accounts, c.sourceCurrency).Some? && FindClearing(accounts, c.targetCurrency).Some?
  {
    [ Entry(FindClearing(accounts, c.sourceCurrency).value, Credit, c.sourceAmount, c.sourceCurrency, c.quote, c.rate),
      Entry(FindClearing(accounts, c.targetCurrency).value, Debit, c.targetAmount, c.targetCurrency, c.quote, c.rate) ]
  }

  function WithEntries(c: Command, es: seq<Entry>): Resolved {
    Resolved(c.reference, c.kind, c.sourceCurrency, c.targetCurrency, c.sourceAmount, c.targetAmount, c.quote, c.rate,
             None, es)
  }

  /** The part of `post` before the transaction: shape and idempotent lookup. */
  function Lookup(l: Ledger, c: Command): Option<Result<nat, Failure>> {
    if !FxShape(c) then Some(Err(InvalidFxPosting)) else
      match FindReference(l.journal, c.reference)
      case None => None
      case Some(i) => Some(if l.journal[i].hash == CommandHash(c) then Ok(i) else Err(ReferenceReused))
  }

  /** The ledger in which the wallets of `c` are resolved: an FX command first ensures its clearing accounts. */
  function WithClearing(l: Ledger, c: Command): (l': Ledger)
    requires |l.balances| == |l.accounts|
    ensures |l'.balances| == |l'.accounts|
  {
    if c.kind == FxTransfer then EnsureClearing(EnsureClearing(l, c.sourceCurrency), c.targetCurrency) else l
  }

  lemma {:induction false} ClearingStable(l: Ledger, c: Currency, d: Currency)
    requires FindClearing(l.accounts, c).Some?
    ensures FindClearing(EnsureClearing(l, d).accounts, c) == FindClearing(l.accounts, c)
  {
    var l' := EnsureClearing(l, d);
    if l' != l { assert l'.accounts[..|l'.accounts| - 1] == l.accounts; }
  }

  function Resolve(accounts: seq<Account>, c: Command): Resolved
    requires WalletsKnown(accounts, c.lines)
    requires c.kind == FxTransfer ==>
      FindClearing(accounts, c.sourceCurrency).Some? && FindClearing(accounts, c.targetCurrency).Some?
  {
    WithEntries(c, CustomerEntries(accounts, c) + if c.kind == FxTransfer then ClearingEntries(accounts, c) else [])
  }

  /** The rest of `post` once the lookup has found nothing; it is not repeated by the retry loop. */
  ghost function PostAfterLookup(l: Ledger, c: Command): (Ledger, Result<nat, Failure>)
    requires |l.balances| == |l.accounts|
  {
    if !WalletsKnown(l.accounts, c.lines) then (l, Err(AccountNotFound))
    else if !LinesUsable(l.accounts, c.lines) then (l, Err(AccountUnavailable))
    else
      var l1 := WithClearing(l, c);
      WithClearingFacts(l, c);
      PostAndSettle(l1, Resolve(l1.accounts, c), CommandHash(c))
  }

  lemma {:induction false} WalletStable(accounts: seq<Account>, extra: Account, wallet: nat)
    requires FindWallet(accounts, wallet).Some?
    ensures FindWallet(accounts + [extra], wallet) == FindWallet(accounts, wallet)
  {
    assert (accounts + [extra])[..|accounts|] == accounts;
  }

  lemma {:induction false} EnsureClearingWallets(l: Ledger, d: Currency, wallet: nat)
    requires FindWallet(l.accounts, wallet).Some?
    ensures FindWallet(EnsureClearing(l, d).accounts, wallet) == FindWallet(l.accounts, wallet)
  {
    if FindClearing(l.accounts, d).None? { WalletStable(l.accounts, Account(None, FxClearing, d, Debit, Active), wallet); }
  }

  lemma WithClearingFacts(l: Ledger, c: Command)
    requires |l.balances| == |l.accounts| && WalletsKnown(l.accounts, c.lines)
    ensures WalletsKnown(WithClearing(l, c).accounts, c.lines)
    ensures c.kind == FxTransfer ==>
      && FindClearing(WithClearing(l, c).accounts, c.sourceCurrency).Some?
      && FindClearing(WithClearing(l, c).accounts, c.targetCurrency).Some?
  {
    if c.kind == FxTransfer {
      var l1 := EnsureClearing(l, c.sourceCurrency);
      ClearingStable(l1, c.sourceCurrency, c.targetCurrency);
      forall i | 0 <= i < |c.lines| ensures FindWallet(WithClearing(l, c).accounts, c.lines[i].wallet).Some? {
        EnsureClearingWallets(l, c.sourceCurrency, c.lines[i].wallet);
        EnsureClearingWallets(l1, c.targetCurrency, c.lines[i].wallet);
      }
    }
  }

  /** `post` run to its end without interference: lookup, then the rest. */
  ghost function Post(l: Ledger, c: Command): (Ledger, Result<nat, Failure>)
    requires |l.balances| == |l.accounts|
  {
    match Lookup(l, c)
    case Some(answer) => (l, answer)
    case None => PostAfterLookup(l, c)
  }

  function Swap(e: Entry): Entry { e.(side := Opposite(e.side)) }

  function SwapAll(es: seq<Entry>): (r: seq<Entry>)
    ensures |r| == |es| && forall i :: 0 <= i < |es| ==> r[i] == Swap(es[i])
  {
    seq(|es|, i requires 0 <= i < |es| => Swap(es[i]))
  }

  function ReversalOf(p: Posting, id: nat, reference: nat): Resolved {
    Resolved(reference, Reversal, p.body.sourceCurrency, p.body.targetCurrency, p.body.sourceAmount, p.body.targetAmount,
             p.body.quote, p.body.rate, Some(id), SwapAll(p.body.entries))
  }

  ghost function Reverse(l: Ledger, id: nat, reference: nat): (Ledger, Result<nat, Failure>)
    requires |l.balances| == |l.accounts|
  {
    if id >= |l.journal| then (l, Err(PostingNotFound))
    else if l.journal[id].body.kind == Reversal then (l, Err(ReversalOfReversal))
    else
      var h := ReversalHash(id, reference);
      match FindReference(l.journal, reference)
      case Some(i) => (l, if l.journal[i].hash == h then Ok(i) else Err(ReferenceReused))
      case None =>
        if Reversed(l.journal, id) then (l, Err(AlreadyReversed))
        else PostAndSettle(l, ReversalOf(l.journal[id], id, reference), h)
  }

  function FundingPosting(clearing: nat, customer: nat, reference: nat, amount: int, c: Currency): Resolved {
    Resolved(reference, Funding, c, c, amount, amount, None, None, None,
             [Entry(clearing, Debit, amount, c, None, None), Entry(customer, Credit, amount, c, None, None)])
  }

  ghost function Fund(l: Ledger, reference: nat, wallet: nat, amount: int, c: Currency): (Ledger, Result<nat, Failure>)
    requires |l.balances| == |l.accounts|
  {
    match FindWallet(l.accounts, wallet)
    case None => (l, Err(AccountNotFound))
    case Some(a) =>
      if l.accounts[a].currency != c || l.accounts[a].status != Active then (l, Err(AccountNotFound)) else
        var l1 := EnsureClearing(l, c);
        var h := FundingHash(reference, wallet, amount, c);
        match FindReference(l1.journal, reference)
        case Some(i) => (l1, if l1.journal[i].hash == h then Ok(i) else Err(ReferenceReused))
        case None => PostAndSettle(l1, FundingPosting(FindClearing(l1.accounts, c).value, a, reference, amount, c), h)
  }

  function Provision(l: Ledger, wallet: nat, c: Currency): Ledger {
    if FindWallet(l.accounts, wallet).Some? then l
    else Ledger(l.accounts + [Account(Some(wallet), Customer, c, Credit, Active)], l.balances + [Balance(0, 0)], l.journal)
  }

  // ----- runs of the ledger on its own -----

  datatype Event =
    | DoProvision(wallet: nat, currency: Currency)
    | DoSetStatus(account: nat, status: AccountStatus)
    | DoFund(reference: nat, toWallet: nat, amount: int, fundCurrency: Currency)
    | DoPost(command: Command)
    | DoLatePost(command: Command)   // a commit whose lookup ran earlier and found nothing
    | DoReverse(original: nat, reference: nat)

  ghost function Next(l: Ledger, e: Event): Ledger
    requires |l.balances| == |l.accounts|
  {
    match e
    case DoProvision(w, c) => Provision(l, w, c)
    case DoSetStatus(a, s) => if a < |l.accounts| then l.(accounts := l.accounts[a := l.accounts[a].(status := s)]) else l
    case DoFund(r, w, amount, c) => Fund(l, r, w, amount, c).0
    case DoPost(c) => Post(l, c).0
    case DoLatePost(c) => if FxShape(c) then PostAfterLookup(l, c).0 else l
    case DoReverse(id, r) => Reverse(l, id, r).0
  }
}
