/**
 * What happens to a payroll item that is retried after the 24 hours of its key: the transfer service refuses the
 * key, and the worker records FAILED whatever became of the transfer.  First for every state, then as one run from
 * the empty system that ends with a paid item marked FAILED.
 */
module ExpiredKey {
  import opened Common
  import opened Transfers
  import opened Payroll
  import opened PayrollInvariant
  import opened PayrollTheorems
  import W = World
  import WR = WorldRuns
  import L = Ledger
  import S = Scenario
  import Quiet
  import LedgerInvariant

  // ----- for every state -----

  /** An item in the hands of a crashed worker, its transfer known, its replay window over. */
  predicate Overdue(s: State, j: nat, i: nat, id: nat) {
    && |s.world.ledger.balances| == |s.world.ledger.accounts|
    && ItemAt(s, j, i) && s.jobs[j].items[i].status == ItemProcessing
    && Keyed(s.world, s.jobs[j].employer, j, i, id)
    && s.world.cells[id].rows.record.request == ItemRequest(s.jobs[j], s.jobs[j].items[i])
    && RequestAllowed(ItemRequest(s.jobs[j], s.jobs[j].items[i]))
    && s.world.cells[id].rows.record.replayExpiresAt <= s.world.now
  }

  /** The retry: reclaim, send, find the key, be refused, hear it, checkpoint. */
  function Retry(j: nat, i: nat, id: nat, x: nat, a: nat, token: nat): seq<Event> {
    [ Reclaim(x, j, i, token), Send(x, a), Elsewhere(W.FindKey(a, Some(id))), Elsewhere(W.Step(id, a, W.Answered)),
      Receive(x, id), CheckpointStep(x) ]
  }

  ghost function After(s: State, events: seq<Event>): (s': State)
    requires |s.world.ledger.balances| == |s.world.ledger.accounts|
    ensures |s'.world.ledger.balances| == |s'.world.ledger.accounts|
    decreases |events|
  {
    if events == [] then s else
      NextSizes(s, events[0]);
      After(Next(s, events[0]), events[1..])
  }

  lemma {:induction false} RunAfter(before: seq<Event>, events: seq<Event>)
    ensures Run(before + events) == After(Run(before), events)
    decreases |events|
  {
    hide Next;
    if events == [] {
      assert before + events == before;
    } else {
      RunOne(before, events[0]);
      RunAfter(before + [events[0]], events[1..]);
      assert before + [events[0]] + events[1..] == before + events;
    }
  }

  lemma {:induction false} RunOne(events: seq<Event>, e: Event)
    ensures Run(events + [e]) == Next(Run(events), e)
  {
    hide Next;
    assert (events + [e])[..|events|] == events;
  }

  lemma {:induction false} AfterCons(s: State, e: Event, rest: seq<Event>)
    requires |s.world.ledger.balances| == |s.world.ledger.accounts|
    ensures |Next(s, e).world.ledger.balances| == |Next(s, e).world.ledger.accounts|
    ensures After(s, [e] + rest) == After(Next(s, e), rest)
  {
    hide Next;
    NextSizes(s, e);
    assert ([e] + rest)[1..] == rest;
  }

  lemma ReclaimAndSend(s: State, j: nat, i: nat, id: nat, x: nat, a: nat, token: nat)
    requires Overdue(s, j, i, id) && a !in s.world.intake
    ensures |Next(s, Reclaim(x, j, i, token)).world.ledger.balances| == |Next(s, Reclaim(x, j, i, token)).world.ledger.accounts|
    ensures var t := Next(Next(s, Reclaim(x, j, i, token)), Send(x, a));
      && t.world == s.world.(intake := s.world.intake[a :=
           W.Intake(s.jobs[j].employer, PayrollKey(j, i), ItemRequest(s.jobs[j], s.jobs[j].items[i]), false)])
      && x in t.execs && t.execs[x] == Exec(j, i, token, Waiting(a)) && Overdue(t, j, i, id)
      && t.jobs[j].employer == s.jobs[j].employer && Held(t.jobs[j].items[i], token)
  {
  }

  lemma LookAndRefuse(w: W.World, id: nat, a: nat)
    requires |w.ledger.balances| == |w.ledger.accounts| && id in w.cells && a in w.intake && a !in w.cells[id].acts
    requires W.HasKey(w.cells[id], w.intake[a].client, w.intake[a].key)
    requires w.cells[id].rows.record.request == w.intake[a].request && w.cells[id].rows.record.replayExpiresAt <= w.now
    ensures |W.Next(w, W.FindKey(a, Some(id))).ledger.balances| == |W.Next(w, W.FindKey(a, Some(id))).ledger.accounts|
    ensures var w' := W.Next(W.Next(w, W.FindKey(a, Some(id))), W.Step(id, a, W.Answered));
      && id in w'.cells && a in w'.cells[id].acts && w'.cells[id].acts[a] == W.Rejected(W.KeyExpired)
      && w'.cells[id].rows == w.cells[id].rows && w'.ledger == w.ledger
  {
    hide L.PostAfterLookup, L.Next;
    var w1 := W.Next(w, W.FindKey(a, Some(id)));
    assert w1 == W.Join(w, a, id);
    assert w1.cells[id].acts[a] == W.Handling(w.intake[a].request, w.cells[id].rows.record);
    assert W.HandleExisting(w.intake[a].request, w.cells[id].rows.record, w.now) == W.Rejected(W.KeyExpired);
  }

  lemma HearAndRecord(s: State, j: nat, i: nat, id: nat, x: nat, a: nat, token: nat)
    requires |s.world.ledger.balances| == |s.world.ledger.accounts|
    requires ItemAt(s, j, i) && Held(s.jobs[j].items[i], token) && x in s.execs && s.execs[x] == Exec(j, i, token, Waiting(a))
    requires Keyed(s.world, s.jobs[j].employer, j, i, id) && a in s.world.cells[id].acts
    requires s.world.cells[id].acts[a] == W.Rejected(W.KeyExpired)
    ensures var t := Next(Next(s, Receive(x, id)), CheckpointStep(x));
      && t.world == s.world && ItemAt(t, j, i) && t.jobs[j].items[i].status == ItemFailed
      && t.jobs[j].items[i].failure == Some(RequestRefused(Conflict(W.KeyExpired)))
  {
    var t1 := Next(s, Receive(x, id));
    assert t1.execs[x].phase == Heard(ClientError(Conflict(W.KeyExpired)));
  }

  /** In every such state the retry marks the item FAILED and leaves the transfer and the ledger as they are. */
  lemma {:induction false} OverdueRetryFails(s: State, j: nat, i: nat, id: nat, x: nat, a: nat, token: nat)
    requires Overdue(s, j, i, id) && a !in s.world.intake && a !in s.world.cells[id].acts
    ensures var t := After(s, Retry(j, i, id, x, a, token));
      && ItemAt(t, j, i) && t.jobs[j].items[i].status == ItemFailed
      && t.jobs[j].items[i].failure == Some(RequestRefused(Conflict(W.KeyExpired)))
      && id in t.world.cells && t.world.cells[id].rows == s.world.cells[id].rows && t.world.ledger == s.world.ledger
  {
    hide Next, After, W.Next;
    var r := Retry(j, i, id, x, a, token);
    ReclaimAndSend(s, j, i, id, x, a, token);
    var s2 := Next(Next(s, r[0]), r[1]);
    LookAndRefuse(s2.world, id, a);
    ElsewhereNext(s2, W.FindKey(a, Some(id)));
    var s3 := Next(s2, r[2]);
    ElsewhereNext(s3, W.Step(id, a, W.Answered));
    var s4 := Next(s3, r[3]);
    assert s4.world == W.Next(W.Next(s2.world, W.FindKey(a, Some(id))), W.Step(id, a, W.Answered));
    HearAndRecord(s4, j, i, id, x, a, token);
    assert r == [r[0]] + r[1..] && r[1..] == [r[1]] + r[2..] && r[2..] == [r[2]] + r[3..];
    assert r[3..] == [r[3]] + r[4..] && r[4..] == [r[4]] + r[5..] && r[5..] == [r[5]] + [];
    AfterCons(s, r[0], r[1..]);
    AfterCons(Next(s, r[0]), r[1], r[2..]);
    AfterCons(s2, r[2], r[3..]);
    AfterCons(s3, r[3], r[4..]);
    AfterCons(s4, r[4], r[5..]);
    AfterCons(Next(s4, r[4]), r[5], []);
    AfterNothing(Next(Next(s4, r[4]), r[5]));
  }

  lemma {:induction false} AfterNothing(s: State)
    requires |s.world.ledger.balances| == |s.world.ledger.accounts|
    ensures After(s, []) == s
  {
  }

  lemma ElsewhereNext(s: State, e: W.Event)
    requires |s.world.ledger.balances| == |s.world.ledger.accounts| && ElsewhereAllowed(e)
    ensures Next(s, Elsewhere(e)) == s.(world := W.Next(s.world, e))
    ensures |Next(s, Elsewhere(e)).world.ledger.balances| == |Next(s, Elsewhere(e)).world.ledger.accounts|
  {
    hide W.Next;
    WR.NextSizes(s.world, e);
  }

  // ----- one run from the empty system -----

  const KEY := PayrollKey(0, 0)
  const ITEM := Item(S.PAYEE, 40, ItemPending, None, 0, None, None)

  function Far(events: seq<W.Event>): seq<Event> { seq(|events|, n requires 0 <= n < |events| => Elsewhere(events[n])) }

  const HIRE: seq<Event> := [ Submit(S.CLIENT, S.PAYER, S.USD, [ITEM]), Claim(0, 0, 0, 0) ]

  const SEND: seq<Event> := [ Send(0, 0) ]

  /** The Ledger commits, its answer arrives and the transfer is COMPLETED. */
  const PAY: seq<W.Event> := [ W.LedgerRun(S.ID, 0), W.Step(S.ID, 0, W.Answered), W.Step(S.ID, 0, W.Answered) ]

  /** The worker crashes before its checkpoint, and a day passes. */
  const CRASH: seq<Event> := [ DropExec(0), Elsewhere(W.Tick(REPLAY_WINDOW_MS)) ]

  const BEFORE: seq<Event> := HIRE + Far(S.FUND) + SEND + Far(S.CLAIM) + Far(S.POST) + Far(PAY) + CRASH

  lemma {:induction false} AfterFar(s: State, events: seq<W.Event>)
    requires |s.world.ledger.balances| == |s.world.ledger.accounts|
    requires forall n :: 0 <= n < |events| ==> ElsewhereAllowed(events[n])
    ensures After(s, Far(events)) == s.(world := WR.Replay(s.world, events))
    decreases |events|
  {
    hide Next, W.Next;
    if events != [] {
      ElsewhereNext(s, events[0]);
      WR.NextSizes(s.world, events[0]);
      assert Far(events) == [Elsewhere(events[0])] + Far(events[1..]);
      AfterCons(s, Elsewhere(events[0]), Far(events[1..]));
      AfterFar(Next(s, Elsewhere(events[0])), events[1..]);
    }
  }

  function Claimed(): State {
    EMPTY.(jobs := [NewJob(S.CLIENT, S.PAYER, S.USD, [TAKEN])],
           execs := map[0 := Exec(0, 0, 0, Ready)])
  }

  const TAKEN := ITEM.(status := ItemProcessing, token := Some(0), attempts := 1)

  lemma HireStage()
    ensures Run(HIRE) == Claimed()
  {
    hide W.Next, Run;
    assert HIRE == [HIRE[0]] + [HIRE[1]] && [HIRE[0]] == [] + [HIRE[0]];
    RunNothing();
    RunOne([], HIRE[0]);
    RunOne([HIRE[0]], HIRE[1]);
    SubmitNext();
    ClaimNext();
  }

  function Hired(): State { EMPTY.(jobs := [NewJob(S.CLIENT, S.PAYER, S.USD, [ITEM])]) }

  lemma SubmitNext()
    ensures Next(EMPTY, HIRE[0]) == Hired()
  {
    hide W.Next;
    assert NewItem(ITEM);
  }

  lemma ClaimNext()
    ensures Next(Hired(), HIRE[1]) == Claimed()
  {
    hide W.Next;
    AmountsUpdate([ITEM], 0, TAKEN);
    assert [ITEM][0 := TAKEN] == [TAKEN];
    var job := NewJob(S.CLIENT, S.PAYER, S.USD, [ITEM]);
    assert job.(items := [TAKEN]) == NewJob(S.CLIENT, S.PAYER, S.USD, [TAKEN]);
    assert [job][0 := job.(items := [TAKEN])] == [NewJob(S.CLIENT, S.PAYER, S.USD, [TAKEN])];
  }

  lemma RunNothing()
    ensures Run([]) == EMPTY
  {
  }

  /** The worker waits for its answer while the transfer machine does the rest. */
  function Waits(w: W.World): State { Claimed().(execs := map[0 := Exec(0, 0, 0, Waiting(0))], world := w) }

  lemma SendStage()
    ensures Next(Claimed().(world := W.START.(ledger := S.Funded())), SEND[0]) == Waits(S.Asked(KEY, false))
  {
    hide W.Next;
    S.ArriveGives(KEY);
    assert Claimed().execs[0 := Exec(0, 0, 0, Waiting(0))] == map[0 := Exec(0, 0, 0, Waiting(0))];
  }

  function Done(): Rows { Complete(S.ID, S.Working(KEY), 1, 0) }

  /** The transfer paid, its answer not yet recorded. */
  ghost function Settled(l: L.Ledger): W.World {
    W.World(map[S.ID := W.Cell(Done(), map[0 := W.Replied(ResultFor(S.ID, Done().transfer))], map[0 := W.Post(S.Command(), W.Accepted(1))], map[])],
            map[], map[], l, 0)
  }

  lemma PayStage(l: L.Ledger)
    requires L.PostAfterLookup(S.Funded(), S.Command()) == (l, Ok(1)) && |l.balances| == |l.accounts|
    ensures WR.Replay(S.Posting(KEY), PAY) == Settled(l)
  {
    hide WR.Replay;
    assert PAY == [PAY[0]] + [PAY[1], PAY[2]] && [PAY[1], PAY[2]] == [PAY[1]] + [PAY[2]] && [PAY[2]] == [PAY[2]] + [];
    var w1 := Accepts(S.Working(KEY), W.AwaitingLedger(S.Moving(), 0), l);
    CommitNext(l);
    WR.ReplayCons(S.Posting(KEY), PAY[0], [PAY[1], PAY[2]]);
    AnswerNext(l);
    WR.ReplayCons(w1, PAY[1], [PAY[2]]);
    CompleteNext(l);
    WR.ReplayCons(Accepts(S.Working(KEY), W.Completing(1), l), PAY[2], []);
    ReplayNothing(Settled(l));
  }

  lemma {:induction false} ReplayNothing(w: W.World)
    requires |w.ledger.balances| == |w.ledger.accounts|
    ensures WR.Replay(w, []) == w
  {
  }

  ghost function Accepts(rows: Rows, a: W.Activation, l: L.Ledger): W.World {
    W.World(map[S.ID := W.Cell(rows, map[0 := a], map[0 := W.Post(S.Command(), W.Accepted(1))], map[])], map[], map[], l, 0)
  }

  lemma CommitNext(l: L.Ledger)
    requires L.PostAfterLookup(S.Funded(), S.Command()) == (l, Ok(1))
    ensures W.Next(S.Posting(KEY), PAY[0]) == Accepts(S.Working(KEY), W.AwaitingLedger(S.Moving(), 0), l)
  {
    hide L.PostAfterLookup;
    var w := S.Posting(KEY);
    var c := w.cells[S.ID];
    assert c.posts[0 := W.Post(S.Command(), W.Accepted(1))] == map[0 := W.Post(S.Command(), W.Accepted(1))];
    assert w.cells[S.ID := W.SetPost(c, 0, W.Accepted(1))] == map[S.ID := W.SetPost(c, 0, W.Accepted(1))];
  }

  lemma StepNext(rows: Rows, a: W.Activation, rows': Rows, a': W.Activation, l: L.Ledger)
    requires |l.balances| == |l.accounts|
    requires var c := Accepts(rows, a, l).cells[S.ID];
      W.ActStep(S.ID, c, 0, W.Answered, l.journal, 0) == c.(rows := rows', acts := c.acts[0 := a'])
    ensures W.Next(Accepts(rows, a, l), W.Step(S.ID, 0, W.Answered)) == Accepts(rows', a', l)
  {
    hide W.ActStep;
    var w := Accepts(rows, a, l);
    assert map[0 := a][0 := a'] == map[0 := a'];
    var c' := Accepts(rows', a', l).cells[S.ID];
    assert w.cells[S.ID := c'] == map[S.ID := c'];
  }

  lemma AnswerNext(l: L.Ledger)
    requires |l.balances| == |l.accounts|
    ensures W.Next(Accepts(S.Working(KEY), W.AwaitingLedger(S.Moving(), 0), l), PAY[1]) == Accepts(S.Working(KEY), W.Completing(1), l)
  {
    hide W.Next;
    StepNext(S.Working(KEY), W.AwaitingLedger(S.Moving(), 0), S.Working(KEY), W.Completing(1), l);
  }

  lemma CompleteNext(l: L.Ledger)
    requires |l.balances| == |l.accounts|
    ensures W.Next(Accepts(S.Working(KEY), W.Completing(1), l), PAY[2]) == Settled(l)
  {
    hide W.Next;
    StepNext(S.Working(KEY), W.Completing(1), Done(), W.Replied(ResultFor(S.ID, Done().transfer)), l);
  }

  lemma CrashStage(l: L.Ledger)
    requires |l.balances| == |l.accounts|
    ensures After(Waits(Settled(l)), CRASH) == Claimed().(execs := map[], world := Settled(l).(now := REPLAY_WINDOW_MS))
  {
    hide After, Next;
    assert CRASH == [CRASH[0]] + [CRASH[1]] && [CRASH[1]] == [CRASH[1]] + [];
    DropNext(l);
    AfterCons(Waits(Settled(l)), CRASH[0], [CRASH[1]]);
    var s := Claimed().(execs := map[], world := Settled(l));
    ElsewhereNext(s, W.Tick(REPLAY_WINDOW_MS));
    AfterCons(s, CRASH[1], []);
    AfterNothing(Next(s, CRASH[1]));
    TickNext(Settled(l));
  }

  lemma DropNext(l: L.Ledger)
    requires |l.balances| == |l.accounts|
    ensures Next(Waits(Settled(l)), CRASH[0]) == Claimed().(execs := map[], world := Settled(l))
  {
    hide W.Next;
    assert map[0 := Exec(0, 0, 0, Waiting(0))] - {0} == map[];
  }

  lemma TickNext(w: W.World)
    requires |w.ledger.balances| == |w.ledger.accounts|
    ensures W.Next(w, W.Tick(REPLAY_WINDOW_MS)) == w.(now := w.now + REPLAY_WINDOW_MS)
  {
    hide L.PostAfterLookup, L.Next;
  }

  lemma BeforeStage(l: L.Ledger)
    requires L.PostAfterLookup(S.Funded(), S.Command()) == (l, Ok(1)) && |l.balances| == |l.accounts|
    ensures Run(BEFORE) == Claimed().(execs := map[], world := Settled(l).(now := REPLAY_WINDOW_MS))
  {
    hide Run, After, Next, WR.Replay, W.Next, L.PostAfterLookup;
    HireStage();
    RunAfter(HIRE, Far(S.FUND));
    S.FundStage();
    AfterFar(Claimed(), S.FUND);
    SendStage();
    assert [SEND[0]] == SEND;
    RunOne(HIRE + Far(S.FUND), SEND[0]);
    RunAfter(HIRE + Far(S.FUND) + SEND, Far(S.CLAIM));
    AfterFar(Waits(S.Asked(KEY, false)), S.CLAIM);
    S.ClaimStage(KEY);
    RunAfter(HIRE + Far(S.FUND) + SEND + Far(S.CLAIM), Far(S.POST));
    AfterFar(Waits(S.Only(S.Working(KEY), map[0 := W.Reading], map[])), S.POST);
    S.PostStage(KEY);
    RunAfter(HIRE + Far(S.FUND) + SEND + Far(S.CLAIM) + Far(S.POST), Far(PAY));
    AfterFar(Waits(S.Posting(KEY)), PAY);
    PayStage(l);
    RunAfter(HIRE + Far(S.FUND) + SEND + Far(S.CLAIM) + Far(S.POST) + Far(PAY), CRASH);
    CrashStage(l);
  }

  /** The item was paid, its retry came a day later, and it is recorded FAILED: nothing completed, 40 debited. */
  lemma PaidItemFailsAfterADay()
    ensures var s := Run(BEFORE + Retry(0, 0, S.ID, 1, 1, 1));
      && ItemAt(s, 0, 0) && s.jobs[0].items[0].status == ItemFailed
      && s.jobs[0].items[0].failure == Some(RequestRefused(Conflict(W.KeyExpired)))
      && S.ID in s.world.cells && s.world.cells[S.ID].rows.transfer.status == Completed
      && |s.jobs[0].items| == 1 && CompletedAmount(s.jobs[0].items) == 0 && JobDebits(s, 0) == 40
  {
    hide Run, After, Next, L.PostAfterLookup, Inv, Accounted, JobEvolves, JobDebits, CompletedAmount;
    S.CommitStage();
    var l := L.PostAfterLookup(S.Funded(), S.Command()).0;
    PostSizes(S.Funded(), S.Command());
    BeforeStage(l);
    var s0 := Run(BEFORE);
    OverdueRetryFails(s0, 0, 0, S.ID, 1, 1, 1);
    var events := BEFORE + Retry(0, 0, S.ID, 1, 1, 1);
    RunAfter(BEFORE, Retry(0, 0, S.ID, 1, 1, 1));
    var s := Run(events);
    assert events[..|BEFORE|] == BEFORE;
    JobsPersist(events, |BEFORE|, 0);
    SameTermsKept(s0.jobs[0], s.jobs[0]);
    ReachableInv(events, false);
    InvAccounts(s, 0, false);
    DebitsOfOne(s);
  }

  lemma PostSizes(l: L.Ledger, c: L.Command)
    requires |l.balances| == |l.accounts|
    ensures |L.PostAfterLookup(l, c).0.balances| == |L.PostAfterLookup(l, c).0.accounts|
  {
    LedgerInvariant.WithClearingSizes(l, c);
  }

  lemma SameTermsKept(job: Job, job': Job)
    requires JobEvolves(job, job')
    ensures |job'.items| == |job.items| && job'.employer == job.employer
    ensures forall i :: 0 <= i < |job.items| ==> job'.items[i].amount == job.items[i].amount
  {
  }

  lemma DebitsOfOne(s: State)
    requires |s.jobs| > 0 && |s.jobs[0].items| == 1 && s.jobs[0].items[0].amount == 40 && s.jobs[0].items[0].status == ItemFailed
    requires Accounted(s.world, s.jobs[0], 0) && s.jobs[0].employer == S.CLIENT
    requires Keyed(s.world, S.CLIENT, 0, 0, S.ID) && Quiet.Posted(s.world, S.ID)
    ensures JobDebits(s, 0) == 40 && CompletedAmount(s.jobs[0].items) == 0
  {
    hide Accounted;
    var job := s.jobs[0];
    DebitsArePaid(s.world, job, 0, 1);
    assert Paid(s.world, job.employer, 0, 0);
    assert PaidAmount(s.world, job, 0, 0) == 0;
    assert CompletedAmount(job.items[..0]) == 0;
  }
}
