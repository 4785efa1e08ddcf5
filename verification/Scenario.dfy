/**
 * A concrete start shared by the counterexample runs: two wallets, one of them funded, and one domestic transfer
 * brought to the point where the Ledger has looked up its reference and is about to commit.
 */
module Scenario {
  import opened Common
  import opened Transfers
  import opened World
  import opened WorldRuns
  import P = Payable
  import L = Ledger

  const USD: nat := 0
  const PAYER: nat := 1
  const PAYEE: nat := 2
  const CLIENT: nat := 5
  const ID: nat := 7
  const REQUEST := DomesticRequest(PAYER, PAYEE, 40, USD)

  const GOOD := Wallets(Wallet(CLIENT, USD, true, true), Wallet(CLIENT + 1, USD, true, true))

  /** Two wallets, one of them funded. */
  const FUND: seq<Event> := [
    Outside(L.DoProvision(PAYER, USD)), Outside(L.DoProvision(PAYEE, USD)), Outside(L.DoFund(900, PAYER, 100, USD)) ]

  /** A domestic transfer that has arrived is claimed and set PROCESSING. */
  const CLAIM: seq<Event> := [ FindKey(0, None), Insert(0, ID), Step(ID, 0, Proceed(0)) ]

  /** Its wallets are validated, its post is sent, and the Ledger has done its lookup. */
  const POST: seq<Event> := [ Step(ID, 0, Proceed(0)), Step(ID, 0, AccountSays(GOOD, 0)), LedgerLookup(ID, 0) ]

  // ----- the ledger of the run -----

  const PAYER_ACCOUNT := L.Account(Some(PAYER), L.Customer, USD, L.Credit, L.Active)
  const PAYEE_ACCOUNT := L.Account(Some(PAYEE), L.Customer, USD, L.Credit, L.Active)
  const CLEARING := L.Account(None, L.FxClearing, USD, L.Debit, L.Active)
  const ACCOUNTS := [PAYER_ACCOUNT, PAYEE_ACCOUNT, CLEARING]

  function FundingRow(): L.Posting { L.Posting(L.FundingHash(900, PAYER, 100, USD), L.FundingPosting(2, 0, 900, 100, USD)) }

  function Funded(): L.Ledger { L.Ledger(ACCOUNTS, [L.Balance(100, 1), L.Balance(0, 0), L.Balance(100, 1)], [FundingRow()]) }

  lemma Lookups()
    ensures L.FindWallet(ACCOUNTS, PAYER) == Some(0) && L.FindWallet(ACCOUNTS, PAYEE) == Some(1)
    ensures L.FindClearing(ACCOUNTS, USD) == Some(2)
  {
    assert ACCOUNTS[..2] == [PAYER_ACCOUNT, PAYEE_ACCOUNT] && [PAYER_ACCOUNT, PAYEE_ACCOUNT][..1] == [PAYER_ACCOUNT];
    assert L.FindWallet([PAYER_ACCOUNT], PAYER) == Some(0) && L.FindWallet([PAYER_ACCOUNT], PAYEE) == None;
    assert L.FindClearing([PAYER_ACCOUNT], USD) == None;
  }

  function Pair(): L.Ledger { L.Ledger([PAYER_ACCOUNT, PAYEE_ACCOUNT], [L.Balance(0, 0), L.Balance(0, 0)], []) }

  lemma ProvisionedSingle()
    ensures L.Next(L.EMPTY, L.DoProvision(PAYER, USD)) == Single()
  {
  }

  lemma ProvisionedPair()
    ensures L.Next(Single(), L.DoProvision(PAYEE, USD)) == Pair()
  {
    assert L.FindWallet([PAYER_ACCOUNT], PAYEE).None?;
  }

  lemma FundingOfPair()
    ensures L.Next(Pair(), L.DoFund(900, PAYER, 100, USD)) == Funded()
  {
    assert Pair().accounts[..1] == [PAYER_ACCOUNT];
    assert L.FindWallet([PAYER_ACCOUNT], PAYER) == Some(0);
    assert L.FindWallet(Pair().accounts, PAYER) == Some(0);
    assert L.FindClearing(Pair().accounts, USD).None?;
    var l3 := L.EnsureClearing(Pair(), USD);
    assert l3 == L.Ledger(ACCOUNTS, [L.Balance(0, 0), L.Balance(0, 0), L.Balance(0, 0)], []);
    Lookups();
    var r := L.FundingPosting(2, 0, 900, 100, USD);
    P.TwoLegsCommit(l3, r, L.FundingHash(900, PAYER, 100, USD), 2, 0, 100, USD);
    FundedBalances(l3, r);
  }

  lemma FundedBalances(l: L.Ledger, r: L.Resolved)
    requires l == L.Ledger(ACCOUNTS, [L.Balance(0, 0), L.Balance(0, 0), L.Balance(0, 0)], [])
    requires r == L.FundingPosting(2, 0, 900, 100, USD)
    ensures L.InRange(l.accounts, r.entries)
    ensures L.NextBalances(l.accounts, l.balances, r.entries) == [L.Balance(100, 1), L.Balance(0, 0), L.Balance(100, 1)]
  {
    P.ApplyTwo(l.accounts, L.Values(l.balances), r.entries[0], r.entries[1]);
    assert r.entries == [r.entries[0], r.entries[1]];
    assert r.entries[0].account == 2 && r.entries[1].account == 0;
    assert L.Values(l.balances) == [0, 0, 0];
  }

  // ----- the run itself -----

  lemma OutsideIs(w: World, e: L.Event)
    requires w.cells == map[] && |w.ledger.balances| == |w.ledger.accounts| && !e.DoPost? && !e.DoLatePost?
    ensures Next(w, Outside(e)) == w.(ledger := L.Next(w.ledger, e))
  {
    assert OutsideAllowed(w, e);
  }

  lemma {:induction false} OutsideGives(w: World, e: L.Event, l: L.Ledger, rest: seq<Event>)
    requires |w.ledger.balances| == |w.ledger.accounts| && |l.balances| == |l.accounts|
    requires Next(w, Outside(e)) == w.(ledger := l)
    ensures Replay(w, [Outside(e)] + rest) == Replay(w.(ledger := l), rest)
  {
    ReplayCons(w, Outside(e), rest);
  }

  function Single(): L.Ledger { L.Ledger([PAYER_ACCOUNT], [L.Balance(0, 0)], []) }

  lemma FundStage()
    ensures Replay(START, FUND) == START.(ledger := Funded())
  {
    ProvisionedSingle();
    ProvisionedPair();
    FundingOfPair();
    OutsideIs(START, L.DoProvision(PAYER, USD));
    OutsideIs(START.(ledger := Single()), L.DoProvision(PAYEE, USD));
    OutsideIs(START.(ledger := Pair()), L.DoFund(900, PAYER, 100, USD));
    OutsideGives(START, L.DoProvision(PAYER, USD), Single(), [FUND[1], FUND[2]]);
    OutsideGives(START.(ledger := Single()), L.DoProvision(PAYEE, USD), Pair(), [FUND[2]]);
    OutsideGives(START.(ledger := Pair()), L.DoFund(900, PAYER, 100, USD), Funded(), []);
    assert FUND == [FUND[0]] + [FUND[1], FUND[2]] && [FUND[1], FUND[2]] == [FUND[1]] + [FUND[2]] && [FUND[2]] == [FUND[2]] + [];
  }

  function Claimed(key: Key): Rows { ClaimRows(CLIENT, key, REQUEST, 0) }

  function Working(key: Key): Rows { Transition(Claimed(key), 0) }

  /** The transfer while it is PROCESSING. */
  function Moving(): Transfer { Working(CallerKey(0)).transfer }

  function Command(): L.Command { PostingCommand(ID, Moving()) }

  /** The whole system with this one cell, at time 0. */
  function Only(rows: Rows, acts: map<nat, Activation>, posts: map<nat, Post>): World {
    World(map[ID := Cell(rows, acts, posts, map[])], map[], map[], Funded(), 0)
  }

  /** One activation step of the only cell. */
  lemma {:induction false} Take(
    rows: Rows, acts: map<nat, Activation>, posts: map<nat, Post>, a: nat, choice: Choice, c': Cell, rest: seq<Event>)
    requires a in acts && ActStep(ID, Cell(rows, acts, posts, map[]), a, choice, Funded().journal, 0) == c' && c'.fxCalls == map[]
    ensures Replay(Only(rows, acts, posts), [Step(ID, a, choice)] + rest) == Replay(Only(c'.rows, c'.acts, c'.posts), rest)
  {
    var w := Only(rows, acts, posts);
    ReplayCons(w, Step(ID, a, choice), rest);
    assert w.cells[ID := c'] == map[ID := c'];
  }

  function Asked(key: Key, looked: bool): World {
    START.(ledger := Funded(), intake := map[0 := Intake(CLIENT, key, REQUEST, looked)])
  }

  lemma ClaimStage(key: Key)
    ensures Replay(Asked(key, false), CLAIM) == Only(Working(key), map[0 := Reading], map[])
  {
    assert CLAIM == [CLAIM[0]] + [CLAIM[1], CLAIM[2]] && [CLAIM[1], CLAIM[2]] == [CLAIM[1]] + [CLAIM[2]] && [CLAIM[2]] == [CLAIM[2]] + [];
    LookGives(key);
    InsertGives(key);
    ReplayCons(Asked(key, false), CLAIM[0], [CLAIM[1], CLAIM[2]]);
    ReplayCons(Asked(key, true), CLAIM[1], [CLAIM[2]]);
    TransitionGives(key);
    Take(Claimed(key), map[0 := Transitioning], map[], 0, Proceed(0), Cell(Working(key), map[0 := Reading], map[], map[]), []);
  }

  lemma TransitionGives(key: Key)
    ensures ActStep(ID, Cell(Claimed(key), map[0 := Transitioning], map[], map[]), 0, Proceed(0), Funded().journal, 0)
         == Cell(Working(key), map[0 := Reading], map[], map[])
  {
    assert map[0 := Transitioning][0 := Reading] == map[0 := Reading];
  }

  lemma ArriveGives(key: Key)
    ensures Next(START.(ledger := Funded()), Arrive(0, CLIENT, key, REQUEST)) == Asked(key, false)
  {
  }

  lemma LookGives(key: Key)
    ensures Next(Asked(key, false), CLAIM[0]) == Asked(key, true)
  {
  }

  lemma InsertGives(key: Key)
    ensures Next(Asked(key, true), Insert(0, ID)) == Only(Claimed(key), map[0 := Transitioning], map[])
  {
    var w := Asked(key, true);
    assert L.FindReference(Funded().journal, ID).None?;
    assert Insertable(w, w.intake[0], ID);
    assert w.intake - {0} == map[];
  }

  /** The system with the first attempt past its lookup. */
  function Posting(key: Key): World {
    Only(Working(key), map[0 := AwaitingLedger(Moving(), 0)], map[0 := Post(Command(), LookedUp)])
  }

  lemma PostStage(key: Key)
    ensures Replay(Only(Working(key), map[0 := Reading], map[]), POST) == Posting(key)
  {
    var t, r := Moving(), Working(key);
    assert POST == [POST[0]] + [POST[1], POST[2]] && [POST[1], POST[2]] == [POST[1]] + [POST[2]] && [POST[2]] == [POST[2]] + [];
    AskGives(key);
    Take(r, map[0 := Reading], map[], 0, Proceed(0), Cell(r, map[0 := AskingAccount(t)], map[], map[]), [POST[1], POST[2]]);
    Take(r, map[0 := AskingAccount(t)], map[], 0, AccountSays(GOOD, 0),
         Cell(r, map[0 := AwaitingLedger(t, 0)], map[0 := Post(Command(), Sent)], map[]), [POST[2]]);
    ReplayCons(Only(r, map[0 := AwaitingLedger(t, 0)], map[0 := Post(Command(), Sent)]), LedgerLookup(ID, 0), []);
    LookupGives(key);
  }

  lemma AskGives(key: Key)
    ensures var t, r := Moving(), Working(key);
      && ActStep(ID, Cell(r, map[0 := Reading], map[], map[]), 0, Proceed(0), Funded().journal, 0)
         == Cell(r, map[0 := AskingAccount(t)], map[], map[])
      && ActStep(ID, Cell(r, map[0 := AskingAccount(t)], map[], map[]), 0, AccountSays(GOOD, 0), Funded().journal, 0)
         == Cell(r, map[0 := AwaitingLedger(t, 0)], map[0 := Post(Command(), Sent)], map[])
  {
    var t := Moving();
    assert map[0 := Reading][0 := AskingAccount(t)] == map[0 := AskingAccount(t)];
    assert map[0 := AskingAccount(t)][0 := AwaitingLedger(t, 0)] == map[0 := AwaitingLedger(t, 0)];
  }

  lemma LookupGives(key: Key)
    ensures Next(Only(Working(key), map[0 := AwaitingLedger(Moving(), 0)], map[0 := Post(Command(), Sent)]), LedgerLookup(ID, 0))
         == Posting(key)
  {
    var t, r := Moving(), Working(key);
    var c := Cell(r, map[0 := AwaitingLedger(t, 0)], map[0 := Post(Command(), Sent)], map[]);
    assert L.FindReference(Funded().journal, ID).None?;
    assert L.Lookup(Funded(), Command()) == None;
    assert c.posts[0 := Post(Command(), LookedUp)] == map[0 := Post(Command(), LookedUp)];
    assert SetPost(c, 0, LookedUp) == Cell(r, c.acts, map[0 := Post(Command(), LookedUp)], map[]);
    var w := Only(r, c.acts, c.posts);
    assert w.cells[ID := SetPost(c, 0, LookedUp)] == map[ID := SetPost(c, 0, LookedUp)];
  }

  /** The attempt commits on the funded ledger. */
  lemma CommitStage()
    ensures var (l, answer) := L.PostAfterLookup(Funded(), Command());
      answer == Ok(1) && |l.journal| == 2 && l.journal[1].body.reference == ID && l.journal[0] == FundingRow()
  {
    Lookups();
    var r := L.Resolve(ACCOUNTS, Command());
    assert L.WalletsKnown(ACCOUNTS, Command().lines) && L.LinesUsable(ACCOUNTS, Command().lines);
    assert L.WithClearing(Funded(), Command()) == Funded();
    assert r.entries == [L.Entry(0, L.Debit, 40, USD, None, None), L.Entry(1, L.Credit, 40, USD, None, None)];
    P.TwoLegsCommit(Funded(), r, L.CommandHash(Command()), 0, 1, 40, USD);
  }
}
