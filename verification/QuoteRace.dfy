/**
 * A second way in which FAILED does not mean unpaid.  The clock of a consumption is the start of its transaction.  One
 * that started just before the quote expires can commit after another one, started later, has been refused; the
 * transfer is then prepared by the first caller and failed by the second, while the first goes on to post it.
 */
module QuoteRace {
  import opened Common
  import opened Transfers
  import opened World
  import opened WorldRuns
  import Fx
  import Ledger
  import LooseEnds
  import Quiet

  const PAYER: nat := 1
  const PAYEE: nat := 2
  const CLIENT: nat := 5
  const ID: nat := 7
  const QUOTE: nat := 3
  const USD: nat := 0
  const EUR: nat := 1
  const REQUEST := InternationalRequest(PAYER, PAYEE, 40, USD, EUR, QUOTE)

  const ISSUED := Fx.Quote(CLIENT, USD, EUR, 40, 40, Fx.RATE_UNIT, Fx.QuoteActive, 0, 60_000, None, None)
  const TAKEN := ISSUED.(status := Fx.QuoteConsumed, consumedAt := Some(59_999), consumedBy := Some(ID))
  const TERMS := Fx.Terms(40, Fx.RATE_UNIT)

  /** The first caller claims the transfer and sends its consumption one millisecond before the quote expires. */
  const FIRST: seq<Event> := [
    NewQuote(QUOTE, ISSUED), Arrive(0, CLIENT, CallerKey(0), REQUEST), FindKey(0, None), Insert(0, ID), Tick(59_999),
    Step(ID, 0, Proceed(0)) ]

  /** The second caller sends its own a millisecond later and is refused for good. */
  const SECOND: seq<Event> := [
    Tick(1), Reconcile(ID, 1, false), Step(ID, 1, Answered), Step(ID, 1, Answered), Step(ID, 1, Proceed(1)), FxRun(ID, 1, 0),
    Step(ID, 1, Answered) ]

  /** Only now does the first consumption commit; its caller prepares the transfer, and the second caller fails it. */
  const RACE: seq<Event> := [
    FxRun(ID, 0, 1), Step(ID, 0, Answered), Step(ID, 0, Answered), Step(ID, 0, Answered), Step(ID, 1, Answered) ]

  function New(): Rows { ClaimRows(CLIENT, CallerKey(0), REQUEST, 0) }

  function Prepared(): Rows { Prepare(New(), New().transfer, TERMS, 60_000) }

  function Dead(): Rows { Fail(ID, Prepared(), 409, FxRefused(Fx.QuoteExpired), 60_000) }

  function Call(state: FxState, sentAt: int): FxCall { FxCall(QuoteClaim(ID, New().transfer), state, sentAt) }

  /** The whole system with this one cell and this one quote. */
  function Sys(rows: Rows, acts: map<nat, Activation>, fx: map<nat, FxCall>, quote: Fx.Quote, now: int): World {
    World(map[ID := Cell(rows, acts, map[], fx)], map[], map[QUOTE := quote], Ledger.EMPTY, now)
  }

  /** With both callers present. */
  function Both(rows: Rows, x: Activation, y: Activation, fx: map<nat, FxCall>, quote: Fx.Quote): World {
    Sys(rows, map[0 := x, 1 := y], fx, quote, 60_000)
  }

  function Expired(): Activation { FxFailing(409, FxRefused(Fx.QuoteExpired)) }

  lemma {:induction false} Act(rows: Rows, acts: map<nat, Activation>, fx: map<nat, FxCall>, quote: Fx.Quote, now: int, a: nat,
                               choice: Choice, c': Cell)
    requires a in acts && ActStep(ID, Cell(rows, acts, map[], fx), a, choice, [], now) == c' && c'.posts == map[]
    ensures Next(Sys(rows, acts, fx, quote, now), Step(ID, a, choice)) == Sys(c'.rows, c'.acts, c'.fxCalls, quote, now)
  {
    hide ActStep;
    var w := Sys(rows, acts, fx, quote, now);
    assert w.cells[ID := c'] == map[ID := c'];
  }

  function Quoted(): World { START.(quotes := map[QUOTE := ISSUED]) }

  function Asked(): World { Quoted().(intake := map[0 := Intake(CLIENT, CallerKey(0), REQUEST, true)]) }

  lemma Arrived()
    ensures Next(START, FIRST[0]) == Quoted() && Next(Next(Quoted(), FIRST[1]), FIRST[2]) == Asked()
  {
    assert Fx.Converted(40, Fx.RATE_UNIT) == 40;
  }

  lemma Inserted()
    ensures Next(Asked(), FIRST[3]) == Sys(New(), map[0 := FxReady(New().transfer)], map[], ISSUED, 0)
  {
    assert Insertable(Asked(), Asked().intake[0], ID) && Asked().intake - {0} == map[];
  }

  lemma Claimed()
    ensures Run(FIRST[..4]) == Sys(New(), map[0 := FxReady(New().transfer)], map[], ISSUED, 0)
  {
    hide Next;
    assert FIRST[..1] == [] + [FIRST[0]] && FIRST[..2] == FIRST[..1] + [FIRST[1]];
    assert FIRST[..3] == FIRST[..2] + [FIRST[2]] && FIRST[..4] == FIRST[..3] + [FIRST[3]];
    assert Run([]) == START;
    RunStep([], FIRST[0]);
    RunStep(FIRST[..1], FIRST[1]);
    RunStep(FIRST[..2], FIRST[2]);
    RunStep(FIRST[..3], FIRST[3]);
    Arrived();
    Inserted();
  }

  lemma {:induction false} Then(w: World, e: Event, w': World, rest: seq<Event>)
    requires |w.ledger.balances| == |w.ledger.accounts| && |w'.ledger.balances| == |w'.ledger.accounts| && Next(w, e) == w'
    ensures Replay(w, [e] + rest) == Replay(w', rest)
  {
    ReplayCons(w, e, rest);
  }

  function Waiting(): Activation { AwaitingFx(New().transfer, 0) }

  /** The first caller's call in flight, with the second caller's. */
  function Calls(first: FxState, second: FxState): map<nat, FxCall> { map[0 := Call(first, 59_999), 1 := Call(second, 60_000)] }

  lemma FirstSends()
    ensures Run(FIRST) == Sys(New(), map[0 := Waiting()], map[0 := Call(FxSent, 59_999)], ISSUED, 59_999)
  {
    hide Run, Next, ActStep;
    Claimed();
    var t := New().transfer;
    var ready, sent := map[0 := FxReady(t)], map[0 := Waiting()];
    assert FIRST[..5] == FIRST[..4] + [FIRST[4]] && FIRST == FIRST[..5] + [FIRST[5]];
    RunStep(FIRST[..4], FIRST[4]);
    Ticks(New(), ready, map[], ISSUED, 0, 59_999);
    RunStep(FIRST[..5], FIRST[5]);
    Sends();
    Act(New(), ready, map[], ISSUED, 59_999, 0, Proceed(0), Cell(New(), sent, map[], map[0 := Call(FxSent, 59_999)]));
  }

  lemma Ticks(rows: Rows, acts: map<nat, Activation>, fx: map<nat, FxCall>, quote: Fx.Quote, now: int, elapsed: nat)
    ensures Next(Sys(rows, acts, fx, quote, now), Tick(elapsed)) == Sys(rows, acts, fx, quote, now + elapsed)
  {
  }

  lemma Sends()
    ensures ActStep(ID, Cell(New(), map[0 := FxReady(New().transfer)], map[], map[]), 0, Proceed(0), [], 59_999)
         == Cell(New(), map[0 := Waiting()], map[], map[0 := Call(FxSent, 59_999)])
  {
    var acts := map[0 := FxReady(New().transfer)];
    assert acts[0 := Waiting()] == map[0 := Waiting()];
  }

  /** One step of the second caller while the first one waits. */
  lemma {:induction false} SecondActs(rows: Rows, x: Activation, y: Activation, fx: map<nat, FxCall>, quote: Fx.Quote, choice: Choice,
                                      rows': Rows, y': Activation, fx': map<nat, FxCall>)
    requires var acts := map[0 := x, 1 := y];
      ActStep(ID, Cell(rows, acts, map[], fx), 1, choice, [], 60_000) == Cell(rows', acts[1 := y'], map[], fx')
    ensures Next(Both(rows, x, y, fx, quote), Step(ID, 1, choice)) == Both(rows', x, y', fx', quote)
  {
    hide ActStep, Next;
    var acts := map[0 := x, 1 := y];
    Act(rows, acts, fx, quote, 60_000, 1, choice, Cell(rows', acts[1 := y'], map[], fx'));
    assert acts[1 := y'] == map[0 := x, 1 := y'];
  }

  lemma {:induction false} FirstActs(rows: Rows, x: Activation, y: Activation, fx: map<nat, FxCall>, quote: Fx.Quote, choice: Choice,
                                     rows': Rows, x': Activation)
    requires var acts := map[0 := x, 1 := y];
      ActStep(ID, Cell(rows, acts, map[], fx), 0, choice, [], 60_000) == Cell(rows', acts[0 := x'], map[], fx)
    ensures Next(Both(rows, x, y, fx, quote), Step(ID, 0, choice)) == Both(rows', x', y, fx, quote)
  {
    hide ActStep, Next;
    var acts := map[0 := x, 1 := y];
    Act(rows, acts, fx, quote, 60_000, 0, choice, Cell(rows', acts[0 := x'], map[], fx));
    assert acts[0 := x'] == map[0 := x', 1 := y];
  }

  lemma SecondSends()
    ensures var alone, t := map[0 := Call(FxSent, 59_999)], New().transfer;
      var s1 := Sys(New(), map[0 := Waiting()], alone, ISSUED, 60_000);
      var s2 := Both(New(), Waiting(), Reconciling(false), alone, ISSUED);
      var s3 := Both(New(), Waiting(), PreparingRead, alone, ISSUED);
      var s4 := Both(New(), Waiting(), FxReady(t), alone, ISSUED);
      && Next(s1, Reconcile(ID, 1, false)) == s2 && Next(s2, Step(ID, 1, Answered)) == s3 && Next(s3, Step(ID, 1, Answered)) == s4
      && Next(s4, Step(ID, 1, Proceed(1))) == Both(New(), Waiting(), AwaitingFx(t, 1), Calls(FxSent, FxSent), ISSUED)
  {
    hide Next;
    var alone, t := map[0 := Call(FxSent, 59_999)], New().transfer;
    Joins(alone);
    SecondActs(New(), Waiting(), Reconciling(false), alone, ISSUED, Answered, New(), PreparingRead, alone);
    SecondActs(New(), Waiting(), PreparingRead, alone, ISSUED, Answered, New(), FxReady(t), alone);
    assert alone[1 := Call(FxSent, 60_000)] == Calls(FxSent, FxSent);
    SecondActs(New(), Waiting(), FxReady(t), alone, ISSUED, Proceed(1), New(), AwaitingFx(t, 1), Calls(FxSent, FxSent));
  }

  lemma Joins(fx: map<nat, FxCall>)
    ensures Next(Sys(New(), map[0 := Waiting()], fx, ISSUED, 60_000), Reconcile(ID, 1, false))
         == Both(New(), Waiting(), Reconciling(false), fx, ISSUED)
  {
    var w := Sys(New(), map[0 := Waiting()], fx, ISSUED, 60_000);
    assert w.cells[ID].acts[1 := Reconciling(false)] == map[0 := Waiting(), 1 := Reconciling(false)];
    var c := w.cells[ID].(acts := map[0 := Waiting(), 1 := Reconciling(false)]);
    assert w.cells[ID := c] == map[ID := c];
  }

  lemma Refused()
    ensures var y := AwaitingFx(New().transfer, 1);
      && Next(Both(New(), Waiting(), y, Calls(FxSent, FxSent), ISSUED), FxRun(ID, 1, 0))
         == Both(New(), Waiting(), y, Calls(FxSent, FxDeclined(Fx.QuoteExpired)), ISSUED)
      && Next(Both(New(), Waiting(), y, Calls(FxSent, FxDeclined(Fx.QuoteExpired)), ISSUED), Step(ID, 1, Answered))
         == Both(New(), Waiting(), Expired(), Calls(FxSent, FxDeclined(Fx.QuoteExpired)), ISSUED)
  {
    Declined();
    hide Next;
    var fx := Calls(FxSent, FxDeclined(Fx.QuoteExpired));
    SecondActs(New(), Waiting(), AwaitingFx(New().transfer, 1), fx, ISSUED, Answered, New(), Expired(), fx);
  }

  lemma Declined()
    ensures var y := AwaitingFx(New().transfer, 1);
      Next(Both(New(), Waiting(), y, Calls(FxSent, FxSent), ISSUED), FxRun(ID, 1, 0))
      == Both(New(), Waiting(), y, Calls(FxSent, FxDeclined(Fx.QuoteExpired)), ISSUED)
  {
    hide ActStep;
    var fx := Calls(FxSent, FxDeclined(Fx.QuoteExpired));
    var w := Both(New(), Waiting(), AwaitingFx(New().transfer, 1), Calls(FxSent, FxSent), ISSUED);
    assert w.cells[ID].fxCalls[1 := Call(FxDeclined(Fx.QuoteExpired), 60_000)] == fx;
    assert Fx.Consume(w.quotes, Call(FxSent, 60_000).claim, 60_000) == (w.quotes, Err(Fx.QuoteExpired));
    assert w.cells[ID := w.cells[ID].(fxCalls := fx)] == map[ID := w.cells[ID].(fxCalls := fx)];
  }

  lemma Taken()
    ensures var fx := Calls(FxAnswered(TERMS), FxDeclined(Fx.QuoteExpired));
      Next(Both(New(), Waiting(), Expired(), Calls(FxSent, FxDeclined(Fx.QuoteExpired)), ISSUED), FxRun(ID, 0, 1))
      == Both(New(), Waiting(), Expired(), fx, TAKEN)
  {
    hide ActStep;
    var fx := Calls(FxAnswered(TERMS), FxDeclined(Fx.QuoteExpired));
    var w := Both(New(), Waiting(), Expired(), Calls(FxSent, FxDeclined(Fx.QuoteExpired)), ISSUED);
    assert w.cells[ID].fxCalls[0 := Call(FxAnswered(TERMS), 59_999)] == fx;
    assert w.quotes[QUOTE := TAKEN] == map[QUOTE := TAKEN];
    assert Fx.Consume(w.quotes, Call(FxSent, 59_999).claim, 59_999) == (map[QUOTE := TAKEN], Ok(TERMS));
    assert w.cells[ID := w.cells[ID].(fxCalls := fx)] == map[ID := w.cells[ID].(fxCalls := fx)];
  }

  function Answer(): Activation { Replied(Reply(409, ToResponse(ID, Dead().transfer))) }

  /** The calls once the first has been granted and the second refused. */
  function Decided(): map<nat, FxCall> { Calls(FxAnswered(TERMS), FxDeclined(Fx.QuoteExpired)) }

  /** The first caller prepares the transfer and goes on. */
  lemma FirstPrepares()
    ensures var t, p := New().transfer, Prepared();
      && Next(Both(New(), Waiting(), Expired(), Decided(), TAKEN), Step(ID, 0, Answered))
         == Both(New(), Preparing(t, TERMS), Expired(), Decided(), TAKEN)
      && Next(Both(New(), Preparing(t, TERMS), Expired(), Decided(), TAKEN), Step(ID, 0, Answered))
         == Both(p, Reading, Expired(), Decided(), TAKEN)
  {
    hide Next;
    FirstActs(New(), Waiting(), Expired(), Decided(), TAKEN, Answered, New(), Preparing(New().transfer, TERMS));
    FirstActs(New(), Preparing(New().transfer, TERMS), Expired(), Decided(), TAKEN, Answered, Prepared(), Reading);
  }

  lemma FirstAsks()
    ensures var p := Prepared();
      Next(Both(p, Reading, Expired(), Decided(), TAKEN), Step(ID, 0, Answered))
      == Both(p, AskingAccount(p.transfer), Expired(), Decided(), TAKEN)
  {
    hide Next;
    FirstActs(Prepared(), Reading, Expired(), Decided(), TAKEN, Answered, Prepared(), AskingAccount(Prepared().transfer));
  }

  /** The second caller fails it. */
  lemma SecondFails()
    ensures var p := Prepared();
      Next(Both(p, AskingAccount(p.transfer), Expired(), Decided(), TAKEN), Step(ID, 1, Answered))
      == Both(Dead(), AskingAccount(p.transfer), Answer(), Decided(), TAKEN)
  {
    hide Next;
    var p := Prepared();
    SecondActs(p, AskingAccount(p.transfer), Expired(), Decided(), TAKEN, Answered, Dead(), Answer(), Decided());
  }

  lemma SecondStage()
    ensures Replay(Sys(New(), map[0 := Waiting()], map[0 := Call(FxSent, 59_999)], ISSUED, 59_999), SECOND)
         == Both(New(), Waiting(), Expired(), Calls(FxSent, FxDeclined(Fx.QuoteExpired)), ISSUED)
  {
    hide Next, Replay;
    var alone, t := map[0 := Call(FxSent, 59_999)], New().transfer;
    var sent, declined := Calls(FxSent, FxSent), Calls(FxSent, FxDeclined(Fx.QuoteExpired));
    var s0, s1 := Sys(New(), map[0 := Waiting()], alone, ISSUED, 59_999), Sys(New(), map[0 := Waiting()], alone, ISSUED, 60_000);
    var s2 := Both(New(), Waiting(), Reconciling(false), alone, ISSUED);
    var s3 := Both(New(), Waiting(), PreparingRead, alone, ISSUED);
    var s4 := Both(New(), Waiting(), FxReady(t), alone, ISSUED);
    var s5 := Both(New(), Waiting(), AwaitingFx(t, 1), sent, ISSUED);
    var s6 := Both(New(), Waiting(), AwaitingFx(t, 1), declined, ISSUED);
    var s7 := Both(New(), Waiting(), Expired(), declined, ISSUED);
    assert forall n :: 0 <= n < 7 ==> SECOND[n..] == [SECOND[n]] + SECOND[n + 1..];
    assert SECOND[0..] == SECOND;
    Ticks(New(), map[0 := Waiting()], alone, ISSUED, 59_999, 1);
    SecondSends();
    Refused();
    Then(s0, SECOND[0], s1, SECOND[1..]);
    Then(s1, SECOND[1], s2, SECOND[2..]);
    Then(s2, SECOND[2], s3, SECOND[3..]);
    Then(s3, SECOND[3], s4, SECOND[4..]);
    Then(s4, SECOND[4], s5, SECOND[5..]);
    Then(s5, SECOND[5], s6, SECOND[6..]);
    Then(s6, SECOND[6], s7, SECOND[7..]);
    ReplayNothing(s7, SECOND[7..]);
  }

  lemma {:induction false} ReplayNothing(w: World, none: seq<Event>)
    requires |w.ledger.balances| == |w.ledger.accounts| && |none| == 0
    ensures Replay(w, none) == w
  {
  }

  lemma RaceStage()
    ensures Replay(Both(New(), Waiting(), Expired(), Calls(FxSent, FxDeclined(Fx.QuoteExpired)), ISSUED), RACE)
         == Both(Dead(), AskingAccount(Prepared().transfer), Answer(), Decided(), TAKEN)
  {
    hide Next, Replay;
    var p, t := Prepared(), New().transfer;
    var s0 := Both(New(), Waiting(), Expired(), Calls(FxSent, FxDeclined(Fx.QuoteExpired)), ISSUED);
    var s1 := Both(New(), Waiting(), Expired(), Decided(), TAKEN);
    var s2 := Both(New(), Preparing(t, TERMS), Expired(), Decided(), TAKEN);
    var s3 := Both(p, Reading, Expired(), Decided(), TAKEN);
    var s4 := Both(p, AskingAccount(p.transfer), Expired(), Decided(), TAKEN);
    var s5 := Both(Dead(), AskingAccount(p.transfer), Answer(), Decided(), TAKEN);
    assert forall n :: 0 <= n < 5 ==> RACE[n..] == [RACE[n]] + RACE[n + 1..];
    assert RACE[0..] == RACE;
    Taken();
    FirstPrepares();
    FirstAsks();
    SecondFails();
    Then(s0, RACE[0], s1, RACE[1..]);
    Then(s1, RACE[1], s2, RACE[2..]);
    Then(s2, RACE[2], s3, RACE[3..]);
    Then(s3, RACE[3], s4, RACE[4..]);
    Then(s4, RACE[4], s5, RACE[5..]);
    ReplayNothing(s5, RACE[5..]);
  }

  /** The transfer is FAILED for its quote, not yet posted, and some continuation posts it. */
  lemma FailedForQuoteMayPost()
    ensures var events := FIRST + SECOND + RACE; var w := Run(events);
      && ID in w.cells && w.cells[ID].rows.transfer.status == Failed && !Quiet.Posted(w, ID) && LooseEnds.MayPost(events, ID)
  {
    hide Next, Replay, Run, LooseEnds.MayPost;
    var events := FIRST + SECOND + RACE;
    FirstSends();
    SecondStage();
    ReplayIsRun(FIRST, SECOND);
    RaceStage();
    ReplayIsRun(FIRST + SECOND, RACE);
    var w := Run(events);
    var c := w.cells[ID];
    assert c.acts[0].AskingAccount?;
    assert LooseEnds.LooseEnd(c);
    assert LooseEnds.WalletsFit(w.ledger.accounts, c.rows.transfer) && LooseEnds.HasRoom(w.ledger, c.rows.transfer);
    LooseEnds.FailedMayPostIff(events, ID);
  }
}
