/**
 * The run that shows why the discipline is needed: a post outlives the call that sent it, a forced
 * reconcile finds no posting and retries, the retry fails at the Account service, and only then does the
 * first post commit.  The transfer is FAILED, and its money has moved.
 */
module LateCommit {
  import opened Common
  import opened Transfers
  import opened World
  import opened WorldRuns
  import opened Scenario
  import Quiet
  import QuietRuns
  import L = Ledger

  const KEY := CallerKey(0)

  const ARRIVE: seq<Event> := [ Arrive(0, CLIENT, KEY, REQUEST) ]

  /** The caller gives up while the post is past its lookup. */
  const GIVE_UP: seq<Event> := [ Step(ID, 0, NoAnswer) ]

  /** Forced reconcile: nothing found, the retry claimed, the Account service down, FAILED. */
  const RETRY: seq<Event> := [
    Reconcile(ID, 1, true), Step(ID, 1, Proceed(0)), Step(ID, 1, Answered), Step(ID, 1, Proceed(0)), Step(ID, 1, Proceed(0)),
    Step(ID, 1, AccountSays(AccountDown, 1)), Step(ID, 1, Proceed(0)) ]

  /** Only now does the first attempt commit. */
  const COMMIT: seq<Event> := [ LedgerRun(ID, 0) ]

  const BEFORE: seq<Event> := FUND + ARRIVE + CLAIM + POST + GIVE_UP + RETRY

  function GivenUp(): Activation { Replied(ProcessingResult(ID, Moving())) }

  lemma GiveUpStage()
    ensures Replay(Posting(KEY), GIVE_UP) == Only(Working(KEY), map[0 := GivenUp()], map[0 := Post(Command(), LookedUp)])
  {
    var t, r := Moving(), Working(KEY);
    assert GIVE_UP == [GIVE_UP[0]] + [];
    assert map[0 := AwaitingLedger(t, 0)][0 := GivenUp()] == map[0 := GivenUp()];
    Take(r, map[0 := AwaitingLedger(t, 0)], map[0 := Post(Command(), LookedUp)], 0, NoAnswer,
         Cell(r, map[0 := GivenUp()], map[0 := Post(Command(), LookedUp)], map[]), []);
  }

  function Retried(): Rows { ClaimRetry(Working(KEY), Moving(), None, 0) }

  function Dead(): Rows { Fail(ID, Retried(), 503, AccountServiceUnavailable, 0) }

  /** The system during the reconcile, with the abandoned attempt still in flight. */
  function During(rows: Rows, a: Activation): World {
    Only(rows, map[0 := GivenUp(), 1 := a], map[0 := Post(Command(), LookedUp)])
  }

  function DuringCell(rows: Rows, a: Activation): Cell {
    Cell(rows, map[0 := GivenUp(), 1 := a], map[0 := Post(Command(), LookedUp)], map[])
  }

  /** One step of the reconciling activation. */
  predicate Steps(rows: Rows, a: Activation, choice: Choice, rows': Rows, a': Activation) {
    ActStep(ID, DuringCell(rows, a), 1, choice, Funded().journal, 0) == DuringCell(rows', a')
  }

  lemma StepsWhen(rows: Rows, a: Activation, choice: Choice, rows': Rows, a': Activation)
    requires ActStep(ID, DuringCell(rows, a), 1, choice, Funded().journal, 0)
          == DuringCell(rows, a).(rows := rows', acts := DuringCell(rows, a).acts[1 := a'])
    ensures Steps(rows, a, choice, rows', a')
  {
    hide ActStep;
    assert map[0 := GivenUp(), 1 := a][1 := a'] == map[0 := GivenUp(), 1 := a'];
  }

  lemma {:induction false} TakeRetry(rows: Rows, a: Activation, choice: Choice, rows': Rows, a': Activation, rest: seq<Event>)
    requires Steps(rows, a, choice, rows', a')
    ensures Replay(During(rows, a), [Step(ID, 1, choice)] + rest) == Replay(During(rows', a'), rest)
  {
    hide ActStep, Replay;
    Take(rows, map[0 := GivenUp(), 1 := a], map[0 := Post(Command(), LookedUp)], 1, choice, DuringCell(rows', a'), rest);
  }

  lemma RetryStage()
    ensures Replay(Only(Working(KEY), map[0 := GivenUp()], map[0 := Post(Command(), LookedUp)]), RETRY)
         == During(Dead(), Replied(Reply(503, ToResponse(ID, Dead().transfer))))
  {
    hide Replay, Next, ActStep, Steps;
    var t, u := Moving(), Retried().transfer;
    assert RETRY == [RETRY[0]] + RETRY[1..] && RETRY[1..] == [RETRY[1]] + RETRY[2..] && RETRY[2..] == [RETRY[2]] + RETRY[3..];
    assert RETRY[3..] == [RETRY[3]] + RETRY[4..] && RETRY[4..] == [RETRY[4]] + RETRY[5..];
    assert RETRY[5..] == [RETRY[5]] + RETRY[6..] && RETRY[6..] == [RETRY[6]] + [];
    ReconcileGives();
    NothingFound();
    RetryDies();
    ReplayCons(Only(Working(KEY), map[0 := GivenUp()], map[0 := Post(Command(), LookedUp)]), RETRY[0], RETRY[1..]);
    TakeRetry(Working(KEY), Reconciling(true), Proceed(0), Working(KEY), AskingReference(t, true), RETRY[2..]);
    TakeRetry(Working(KEY), AskingReference(t, true), Answered, Working(KEY), Retrying(t, None), RETRY[3..]);
    TakeRetry(Working(KEY), Retrying(t, None), Proceed(0), Retried(), Reading, RETRY[4..]);
    TakeRetry(Retried(), Reading, Proceed(0), Retried(), AskingAccount(u), RETRY[5..]);
    TakeRetry(Retried(), AskingAccount(u), AccountSays(AccountDown, 1), Retried(), Failing(503, AccountServiceUnavailable), RETRY[6..]);
    TakeRetry(Retried(), Failing(503, AccountServiceUnavailable), Proceed(0), Dead(), Replied(Reply(503, ToResponse(ID, Dead().transfer))), []);
    ReplayOfNothing(During(Dead(), Replied(Reply(503, ToResponse(ID, Dead().transfer)))));
  }

  lemma {:induction false} ReplayOfNothing(w: World)
    requires |w.ledger.balances| == |w.ledger.accounts|
    ensures Replay(w, []) == w
  {
  }

  lemma NothingFound()
    ensures Steps(Working(KEY), Reconciling(true), Proceed(0), Working(KEY), AskingReference(Moving(), true))
    ensures Steps(Working(KEY), AskingReference(Moving(), true), Answered, Working(KEY), Retrying(Moving(), None))
    ensures Steps(Working(KEY), Retrying(Moving(), None), Proceed(0), Retried(), Reading)
  {
    hide Steps;
    assert L.FindReference(Funded().journal, ID).None?;
    StepsWhen(Working(KEY), Reconciling(true), Proceed(0), Working(KEY), AskingReference(Moving(), true));
    StepsWhen(Working(KEY), AskingReference(Moving(), true), Answered, Working(KEY), Retrying(Moving(), None));
    StepsWhen(Working(KEY), Retrying(Moving(), None), Proceed(0), Retried(), Reading);
  }

  lemma RetryDies()
    ensures Steps(Retried(), Reading, Proceed(0), Retried(), AskingAccount(Retried().transfer))
    ensures Steps(Retried(), AskingAccount(Retried().transfer), AccountSays(AccountDown, 1), Retried(), Failing(503, AccountServiceUnavailable))
    ensures Steps(Retried(), Failing(503, AccountServiceUnavailable), Proceed(0), Dead(), Replied(Reply(503, ToResponse(ID, Dead().transfer))))
  {
    hide Steps;
    StepsWhen(Retried(), Reading, Proceed(0), Retried(), AskingAccount(Retried().transfer));
    StepsWhen(Retried(), AskingAccount(Retried().transfer), AccountSays(AccountDown, 1), Retried(), Failing(503, AccountServiceUnavailable));
    StepsWhen(Retried(), Failing(503, AccountServiceUnavailable), Proceed(0), Dead(), Replied(Reply(503, ToResponse(ID, Dead().transfer))));
  }

  lemma ReconcileGives()
    ensures Next(Only(Working(KEY), map[0 := GivenUp()], map[0 := Post(Command(), LookedUp)]), Reconcile(ID, 1, true))
         == During(Working(KEY), Reconciling(true))
  {
    var w := Only(Working(KEY), map[0 := GivenUp()], map[0 := Post(Command(), LookedUp)]);
    assert w.cells[ID].acts[1 := Reconciling(true)] == map[0 := GivenUp(), 1 := Reconciling(true)];
    var c := w.cells[ID].(acts := map[0 := GivenUp(), 1 := Reconciling(true)]);
    assert w.cells[ID := c] == map[ID := c];
  }

  lemma CommitGives(w: World, l: L.Ledger, answer: Result<nat, L.Failure>)
    requires |w.ledger.balances| == |w.ledger.accounts| && PostIn(w, ID, 0, LookedUp)
    requires L.PostAfterLookup(w.ledger, w.cells[ID].posts[0].command) == (l, answer)
    ensures var w' := Next(w, LedgerRun(ID, 0)); ID in w'.cells && w'.cells[ID].rows == w.cells[ID].rows && w'.ledger == l
  {
  }

  /** An undisciplined run from the empty system ends with a FAILED transfer whose posting exists. */
  lemma FailedThenPosted()
    ensures var w := Run(BEFORE + COMMIT);
      && ID in w.cells && w.cells[ID].rows.transfer.status == Failed
      && |w.ledger.journal| == 2 && w.ledger.journal[1].body.reference == ID
  {
    var w := During(Dead(), Replied(Reply(503, ToResponse(ID, Dead().transfer))));
    RunUpToCommit();
    RunStep(BEFORE, LedgerRun(ID, 0));
    CommitStage();
    CommitGives(w, L.PostAfterLookup(Funded(), Command()).0, Ok(1));
  }

  /** So the discipline is what that run lacks. */
  lemma LateCommitIsUndisciplined()
    ensures !Quiet.Disciplined(BEFORE + COMMIT)
  {
    var events := BEFORE + COMMIT;
    FailedThenPosted();
    if Quiet.Disciplined(events) {
      assert events[..|events|] == events;
      QuietRuns.FailedIsNeverPosted(events, |events|, ID);
      assert false;
    }
  }

  lemma RunUpToCommit()
    ensures Run(BEFORE) == During(Dead(), Replied(Reply(503, ToResponse(ID, Dead().transfer))))
  {
    hide Run, Replay, Next;
    RunOfNothing();
    ReplayIsRun([], FUND);
    assert [] + FUND == FUND;
    FundStage();
    ArriveGives(KEY);
    RunStep(FUND, ARRIVE[0]);
    assert [ARRIVE[0]] == ARRIVE;
    ReplayIsRun(FUND + ARRIVE, CLAIM);
    ClaimStage(KEY);
    ReplayIsRun(FUND + ARRIVE + CLAIM, POST);
    PostStage(KEY);
    ReplayIsRun(FUND + ARRIVE + CLAIM + POST, GIVE_UP);
    GiveUpStage();
    ReplayIsRun(FUND + ARRIVE + CLAIM + POST + GIVE_UP, RETRY);
    RetryStage();
  }

  lemma RunOfNothing()
    ensures Run([]) == START
  {
  }
}
