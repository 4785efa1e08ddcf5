/** Counters, finality and the money of a payroll job, over every run of workers, transfers and the ledger. */
module PayrollTheorems {
  import opened Common
  import opened Transfers
  import opened Payroll
  import opened PayrollInvariant
  import W = World
  import WorldInvariant
  import WorldRuns
  import LedgerInvariant
  import Ledger
  import Quiet
  import QuietRuns

  // ----- runs -----

  ghost function Run(events: seq<Event>): (s: State)
    ensures |s.world.ledger.balances| == |s.world.ledger.accounts|
  {
    if events == [] then EMPTY else
      var s := Run(events[..|events| - 1]);
      NextSizes(s, events[|events| - 1]);
      Next(s, events[|events| - 1])
  }

  lemma NextSizes(s: State, e: Event)
    requires |s.world.ledger.balances| == |s.world.ledger.accounts|
    ensures |Next(s, e).world.ledger.balances| == |Next(s, e).world.ledger.accounts|
  {
    hide W.Next, NextTables;
    if WorldEvent(s, e).Some? { WorldRuns.NextSizes(s.world, WorldEvent(s, e).value); }
  }

  /** Every payroll request of the run is handled inside the 24 hours of its key. */
  ghost predicate TimelyRun(events: seq<Event>) {
    forall n :: 0 <= n < |events| ==> Timely(Run(events[..n]), events[n])
  }

  lemma EmptyInv(prompt: bool)
    ensures Inv(EMPTY, prompt)
  {
    hide LedgerInvariant.Inv;
    LedgerInvariant.ReachableInv([]);
  }

  lemma {:induction false} ReachableInv(events: seq<Event>, prompt: bool)
    requires prompt ==> TimelyRun(events)
    ensures Inv(Run(events), prompt)
  {
    hide Inv, Next, Timely;
    if events == [] {
      EmptyInv(prompt);
    } else {
      var last := |events| - 1;
      var prefix := events[..last];
      if prompt { PrefixTimely(events); }
      ReachableInv(prefix, prompt);
      NextKeepsInv(Run(prefix), events[last], prompt);
    }
  }

  lemma {:induction false} PrefixTimely(events: seq<Event>)
    requires TimelyRun(events) && events != []
    ensures TimelyRun(events[..|events| - 1]) && Timely(Run(events[..|events| - 1]), events[|events| - 1])
  {
    hide Run, Timely;
    var prefix := events[..|events| - 1];
    forall n | 0 <= n < |prefix| ensures Timely(Run(prefix[..n]), prefix[n]) {
      assert prefix[..n] == events[..n];
    }
  }

  // ----- counters, terminal items, finalize -----

  /** The counters of a job are the numbers of its items in those states. */
  lemma {:induction false} CountersAreCounts(events: seq<Event>, j: nat)
    requires j < |Run(events).jobs|
    ensures var job := Run(events).jobs[j];
      && job.completed == CountOf(job.items, ItemCompleted) && job.failed == CountOf(job.items, ItemFailed)
      && job.completed + job.failed <= job.totalItems
      && (job.completed + job.failed == job.totalItems <==> AllTerminal(job.items))
  {
    hide Run, WorldRuns.Inv, KeysOk, CellsClean, ExecsOk, FinalsOk, JobItemsOk;
    ReachableInv(events, false);
    assert JobOk(Run(events).jobs[j]);
    CountsBound(Run(events).jobs[j].items);
  }

  /** One event leaves the terms of every job and every terminal item alone. */
  predicate JobEvolves(job: Job, job': Job) {
    && SameJob(job, job')
    && (forall i :: 0 <= i < |job.items| && ItemTerminal(job.items[i].status) ==> job'.items[i] == job.items[i])
  }

  lemma NextEvolves(s: State, e: Event, j: nat)
    requires |s.world.ledger.balances| == |s.world.ledger.accounts| && j < |s.jobs|
    ensures j < |Next(s, e).jobs| && JobEvolves(s.jobs[j], Next(s, e).jobs[j])
  {
    hide NextWorld;
  }

  lemma {:induction false} JobsPersist(events: seq<Event>, n: nat, j: nat)
    requires n <= |events| && j < |Run(events[..n]).jobs|
    ensures j < |Run(events).jobs| && JobEvolves(Run(events[..n]).jobs[j], Run(events).jobs[j])
    decreases |events|
  {
    hide Next;
    if n == |events| {
      assert events[..n] == events;
    } else {
      var prefix := events[..|events| - 1];
      assert prefix[..n] == events[..n];
      JobsPersist(prefix, n, j);
      NextEvolves(Run(prefix), events[|events| - 1], j);
    }
  }

  /** A terminal item is never written again, whatever stale workers still try. */
  lemma {:induction false} TerminalItemIsFinal(events: seq<Event>, n: nat, j: nat, i: nat)
    requires n <= |events| && ItemAt(Run(events[..n]), j, i) && ItemTerminal(Run(events[..n]).jobs[j].items[i].status)
    ensures ItemAt(Run(events), j, i) && Run(events).jobs[j].items[i] == Run(events[..n]).jobs[j].items[i]
  {
    hide Run;
    JobsPersist(events, n, j);
  }

  /** All finalize calls of a job write the same status, however often the job is reopened in between. */
  lemma {:induction false} FinalizeWritesAgree(events: seq<Event>, n: nat, f: nat, g: nat)
    requires n <= |events| && f in Run(events[..n]).finals && g in Run(events).finals
    requires Run(events[..n]).finals[f].job == Run(events).finals[g].job
    ensures Run(events[..n]).finals[f].status == Run(events).finals[g].status
  {
    hide Run, WorldRuns.Inv, KeysOk, CellsClean, ExecsOk, JobItemsOk;
    var s0, s := Run(events[..n]), Run(events);
    ReachableInv(events[..n], false);
    ReachableInv(events, false);
    var j := s0.finals[f].job;
    assert FinalOk(s0.jobs, s0.finals[f]) && FinalOk(s.jobs, s.finals[g]);
    JobsPersist(events, n, j);
    assert s0.jobs[j].items == s.jobs[j].items;
    assert JobOk(s0.jobs[j]) && JobOk(s.jobs[j]);
  }

  /** A terminal job status tells the truth about the items: COMPLETED iff none failed, FAILED iff none completed. */
  lemma {:induction false} TerminalStatusIsTrue(events: seq<Event>, j: nat)
    requires j < |Run(events).jobs| && JobTerminal(Run(events).jobs[j].status)
    ensures var job := Run(events).jobs[j];
      && AllTerminal(job.items)
      && (job.status == JobCompleted <==> CountOf(job.items, ItemFailed) == 0)
      && (job.status == JobFailed <==> CountOf(job.items, ItemCompleted) == 0)
  {
    hide Run, WorldRuns.Inv, KeysOk, CellsClean, ExecsOk, JobItemsOk;
    ReachableInv(events, false);
    var job := Run(events).jobs[j];
    assert JobOk(job);
    assert FinalOk(Run(events).jobs, Final(j, job.status));
    CountsBound(job.items);
  }

  // ----- money -----

  /** What an entry list takes from a wallet on the debit side. */
  function DebitOf(accounts: seq<Ledger.Account>, es: seq<Ledger.Entry>, wallet: nat): int {
    if es == [] then 0 else
      var e := es[|es| - 1];
      DebitOf(accounts, es[..|es| - 1], wallet)
      + if e.account < |accounts| && accounts[e.account].wallet == Some(wallet) && e.side == Ledger.Debit then e.amount else 0
  }

  /** The posting belongs to one of the first `n` items of the job. */
  predicate PostedForJob(w: W.World, employer: nat, j: nat, lo: nat, n: nat, reference: nat) {
    && reference in w.cells && w.cells[reference].rows.record.client == employer
    && w.cells[reference].rows.record.key.PayrollKey?
    && w.cells[reference].rows.record.key.job == j && lo <= w.cells[reference].rows.record.key.item < n
  }

  /** The total the journal debits from the job's source wallet for items lo..n of the job. */
  function Debited(w: W.World, journal: seq<Ledger.Posting>, job: Job, j: nat, lo: nat, n: nat): int {
    if journal == [] then 0 else
      var p := journal[|journal| - 1];
      Debited(w, journal[..|journal| - 1], job, j, lo, n)
      + if PostedForJob(w, job.employer, j, lo, n, p.body.reference) then DebitOf(w.ledger.accounts, p.body.entries, job.source) else 0
  }

  function JobDebits(s: State, j: nat): int
    requires j < |s.jobs|
  {
    Debited(s.world, s.world.ledger.journal, s.jobs[j], j, 0, |s.jobs[j].items|)
  }

  lemma {:induction false} DebitedSplits(w: W.World, journal: seq<Ledger.Posting>, job: Job, j: nat, n: nat)
    ensures Debited(w, journal, job, j, 0, n + 1) == Debited(w, journal, job, j, 0, n) + Debited(w, journal, job, j, n, n + 1)
  {
    if journal != [] { DebitedSplits(w, journal[..|journal| - 1], job, j, n); }
  }

  lemma {:induction false} DebitedEmpty(w: W.World, journal: seq<Ledger.Posting>, job: Job, j: nat)
    ensures Debited(w, journal, job, j, 0, 0) == 0
  {
    if journal != [] { DebitedEmpty(w, journal[..|journal| - 1], job, j); }
  }

  /** The posting of a domestic transfer debits its sender by its amount. */
  lemma {:induction false} PostingDebits(accounts: seq<Ledger.Account>, p: Ledger.Posting, id: nat, t: Transfer)
    requires WorldInvariant.PostedFor(accounts, p, id, t) && t.kind == Domestic
    ensures DebitOf(accounts, p.body.entries, t.sender) == t.sourceAmount
  {
    var es := p.body.entries;
    assert es[..1] == [es[0]] && [es[0]][..0] == [];
    assert DebitOf(accounts, [es[0]], t.sender) == t.sourceAmount;
  }

  predicate Paid(w: W.World, employer: nat, j: nat, i: nat) {
    exists id :: id in w.cells && Keyed(w, employer, j, i, id) && Quiet.Posted(w, id)
  }

  /** The facts of the invariant the sums rest on: keys name items, and each item has at most one posting, of its amount. */
  ghost predicate Accounted(w: W.World, job: Job, j: nat) {
    && WorldRuns.KeysUnique(w.cells) && LedgerInvariant.JournalKeys(w.ledger.journal)
    && (forall id, i :: 0 <= i < |job.items| && Keyed(w, job.employer, j, i, id) ==>
          && w.cells[id].rows.transfer.kind == Domestic && w.cells[id].rows.transfer.sender == job.source
          && w.cells[id].rows.transfer.sourceAmount == job.items[i].amount
          && WorldInvariant.PostingsMatch(id, w.cells[id].rows.transfer, w.ledger))
  }

  lemma InvAccounts(s: State, j: nat, prompt: bool)
    requires Inv(s, prompt) && j < |s.jobs|
    ensures Accounted(s.world, s.jobs[j], j)
  {
    hide CellsClean, JobsOk, ExecsOk, FinalsOk;
    var w, job := s.world, s.jobs[j];
    forall id, i | 0 <= i < |job.items| && Keyed(w, job.employer, j, i, id)
      ensures w.cells[id].rows.transfer.kind == Domestic && w.cells[id].rows.transfer.sender == job.source
      ensures w.cells[id].rows.transfer.sourceAmount == job.items[i].amount
      ensures WorldInvariant.PostingsMatch(id, w.cells[id].rows.transfer, w.ledger)
    {
      assert WorldInvariant.CellOk(id, w.cells[id], w.ledger, w.quotes);
      assert KeyedRequest(s.jobs, w.cells[id].rows.record.client, w.cells[id].rows.record.key, w.cells[id].rows.record.request);
    }
  }

  /** A prefix of the journal contains the posting of item `i`. */
  predicate PaidIn(w: W.World, journal: seq<Ledger.Posting>, employer: nat, j: nat, i: nat) {
    exists k :: 0 <= k < |journal| && Keyed(w, employer, j, i, journal[k].body.reference)
  }

  lemma OwnPostingDebits(w: W.World, m: nat, job: Job, j: nat, i: nat)
    requires Accounted(w, job, j) && m < |w.ledger.journal| && i < |job.items|
    requires Keyed(w, job.employer, j, i, w.ledger.journal[m].body.reference)
    ensures DebitOf(w.ledger.accounts, w.ledger.journal[m].body.entries, job.source) == job.items[i].amount
  {
    var p := w.ledger.journal[m];
    var id := p.body.reference;
    assert WorldInvariant.PostedFor(w.ledger.accounts, p, id, w.cells[id].rows.transfer);
    PostingDebits(w.ledger.accounts, p, id, w.cells[id].rows.transfer);
  }

  lemma {:induction false} ItemDebit(w: W.World, m: nat, job: Job, j: nat, i: nat)
    requires Accounted(w, job, j) && m <= |w.ledger.journal| && i < |job.items|
    ensures Debited(w, w.ledger.journal[..m], job, j, i, i + 1) ==
            if PaidIn(w, w.ledger.journal[..m], job.employer, j, i) then job.items[i].amount else 0
  {
    hide Accounted, LedgerInvariant.JournalKeys, DebitOf;
    if m > 0 {
      AccountedKeys(w, job, j);
      var journal, prefix := w.ledger.journal[..m], w.ledger.journal[..m - 1];
      assert journal[..m - 1] == prefix;
      ItemDebit(w, m - 1, job, j, i);
      var p := w.ledger.journal[m - 1];
      assert forall k :: 0 <= k < m - 1 ==> journal[k] == prefix[k];
      if Keyed(w, job.employer, j, i, p.body.reference) {
        OnlyPosting(w, m - 1, job.employer, j, i);
        OwnPostingDebits(w, m - 1, job, j, i);
        assert journal[m - 1] == p;
      }
    }
  }

  lemma AccountedKeys(w: W.World, job: Job, j: nat)
    requires Accounted(w, job, j)
    ensures WorldRuns.KeysUnique(w.cells) && LedgerInvariant.JournalKeys(w.ledger.journal)
  {
  }

  lemma OnlyPosting(w: W.World, m: nat, employer: nat, j: nat, i: nat)
    requires WorldRuns.KeysUnique(w.cells) && LedgerInvariant.JournalKeys(w.ledger.journal)
    requires m < |w.ledger.journal| && Keyed(w, employer, j, i, w.ledger.journal[m].body.reference)
    ensures !PaidIn(w, w.ledger.journal[..m], employer, j, i)
  {
    forall k | 0 <= k < m ensures !Keyed(w, employer, j, i, w.ledger.journal[..m][k].body.reference) {
      assert Keyed(w, employer, j, i, w.ledger.journal[k].body.reference) ==>
          WorldRuns.SameKey(w.cells[w.ledger.journal[k].body.reference], w.cells[w.ledger.journal[m].body.reference]);
    }
  }

  lemma PaidIsPaidIn(w: W.World, employer: nat, j: nat, i: nat)
    ensures Paid(w, employer, j, i) <==> PaidIn(w, w.ledger.journal, employer, j, i)
  {
    if PaidIn(w, w.ledger.journal, employer, j, i) {
      var k :| 0 <= k < |w.ledger.journal| && Keyed(w, employer, j, i, w.ledger.journal[k].body.reference);
      assert Keyed(w, employer, j, i, w.ledger.journal[k].body.reference) && Quiet.Posted(w, w.ledger.journal[k].body.reference);
    }
    if Paid(w, employer, j, i) {
      var id :| id in w.cells && Keyed(w, employer, j, i, id) && Quiet.Posted(w, id);
      assert Ledger.FindReference(w.ledger.journal, id).Some?;
      var k := Ledger.FindReference(w.ledger.journal, id).value;
      assert Keyed(w, employer, j, i, w.ledger.journal[k].body.reference);
    }
  }

  /** The journal debits for a job, item by item. */
  function PaidAmount(w: W.World, job: Job, j: nat, n: nat): int
    requires n <= |job.items|
  {
    if n == 0 then 0 else PaidAmount(w, job, j, n - 1) + if Paid(w, job.employer, j, n - 1) then job.items[n - 1].amount else 0
  }

  lemma {:induction false} DebitsArePaid(w: W.World, job: Job, j: nat, n: nat)
    requires Accounted(w, job, j) && n <= |job.items|
    ensures Debited(w, w.ledger.journal, job, j, 0, n) == PaidAmount(w, job, j, n)
  {
    hide Accounted;
    var journal := w.ledger.journal;
    if n == 0 {
      DebitedEmpty(w, journal, job, j);
    } else {
      DebitsArePaid(w, job, j, n - 1);
      DebitedSplits(w, journal, job, j, n - 1);
      ItemDebit(w, |journal|, job, j, n - 1);
      assert journal[..|journal|] == journal;
      PaidIsPaidIn(w, job.employer, j, n - 1);
    }
  }

  /** `lo` and `hi` bound what is paid: completed items are paid, and only items are. */
  lemma {:induction false} PaidBounds(w: W.World, job: Job, j: nat, n: nat)
    requires n <= |job.items| && forall i :: 0 <= i < |job.items| ==> job.items[i].amount > 0
    requires forall i :: 0 <= i < n && job.items[i].status == ItemCompleted ==> Paid(w, job.employer, j, i)
    ensures CompletedAmount(job.items[..n]) <= PaidAmount(w, job, j, n) <= Amounts(job.items[..n])
    ensures (forall i :: 0 <= i < n ==> (job.items[i].status == ItemCompleted <==> Paid(w, job.employer, j, i))) <==>
      CompletedAmount(job.items[..n]) == PaidAmount(w, job, j, n)
  {
    hide Paid;
    if n > 0 {
      assert job.items[..n][..n - 1] == job.items[..n - 1];
      PaidBounds(w, job, j, n - 1);
    }
  }

  lemma CompletedIsPaid(s: State, j: nat, i: nat, prompt: bool)
    requires Inv(s, prompt) && ItemAt(s, j, i) && s.jobs[j].items[i].status == ItemCompleted
    ensures Paid(s.world, s.jobs[j].employer, j, i)
  {
    hide KeysOk, CellsClean, ExecsOk, FinalsOk;
    assert JobItemsOk(s.world, s.jobs[j], j, prompt);
    assert ItemOk(s.world, s.jobs[j], j, i, s.jobs[j].items[i], prompt);
    var id := s.jobs[j].items[i].transfer.value;
    assert WorldInvariant.CellOk(id, s.world.cells[id], s.world.ledger, s.world.quotes);
    assert Keyed(s.world, s.jobs[j].employer, j, i, id) && Quiet.Posted(s.world, id);
  }

  /**
   * In every reachable state of workers, transfers and ledger together, crashes, stale tokens and lost answers
   * included: completed amount <= debited from the source wallet for the job <= total amount.
   */
  lemma {:induction false} MoneyIsBounded(events: seq<Event>, j: nat)
    requires j < |Run(events).jobs|
    ensures CompletedAmount(Run(events).jobs[j].items) <= JobDebits(Run(events), j) <= Run(events).jobs[j].totalAmount
  {
    hide Run, Inv, Accounted, Paid, ItemOk;
    ReachableInv(events, false);
    var s := Run(events);
    var job := s.jobs[j];
    InvAccounts(s, j, false);
    DebitsArePaid(s.world, job, j, |job.items|);
    JobFacts(s, j, false);
    forall i | 0 <= i < |job.items| && job.items[i].status == ItemCompleted ensures Paid(s.world, job.employer, j, i) {
      CompletedIsPaid(s, j, i, false);
    }
    PaidBounds(s.world, job, j, |job.items|);
    assert job.items[..|job.items|] == job.items;
  }

  lemma JobFacts(s: State, j: nat, prompt: bool)
    requires Inv(s, prompt) && j < |s.jobs|
    ensures s.jobs[j].totalAmount == Amounts(s.jobs[j].items)
    ensures forall i :: 0 <= i < |s.jobs[j].items| ==> s.jobs[j].items[i].amount > 0
  {
    assert JobOk(s.jobs[j]) && JobItemsOk(s.world, s.jobs[j], j, prompt);
    forall i | 0 <= i < |s.jobs[j].items| ensures s.jobs[j].items[i].amount > 0 {
      assert ItemOk(s.world, s.jobs[j], j, i, s.jobs[j].items[i], prompt);
    }
  }

  /** Exactly the completed amount has been debited if and only if no other item was paid. */
  lemma {:induction false} MoneyIsExactIff(events: seq<Event>, j: nat)
    requires j < |Run(events).jobs|
    ensures var s := Run(events); var job := s.jobs[j];
      JobDebits(s, j) == CompletedAmount(job.items)
      <==> forall i :: 0 <= i < |job.items| && Paid(s.world, job.employer, j, i) ==> job.items[i].status == ItemCompleted
  {
    hide Run, Inv, Accounted, Paid, ItemOk;
    ReachableInv(events, false);
    var s := Run(events);
    var job := s.jobs[j];
    InvAccounts(s, j, false);
    DebitsArePaid(s.world, job, j, |job.items|);
    JobFacts(s, j, false);
    forall i | 0 <= i < |job.items| && job.items[i].status == ItemCompleted ensures Paid(s.world, job.employer, j, i) {
      CompletedIsPaid(s, j, i, false);
    }
    PaidBounds(s.world, job, j, |job.items|);
    assert job.items[..|job.items|] == job.items;
  }

  /** No two items ever name the same transfer, so the unique index on transfer ids is never hit. */
  lemma {:induction false} ItemsNameOwnTransfers(events: seq<Event>, j: nat, i: nat, k: nat, m: nat)
    requires ItemAt(Run(events), j, i) && ItemAt(Run(events), k, m)
    requires Run(events).jobs[j].items[i].transfer.Some?
    requires Run(events).jobs[j].items[i].transfer == Run(events).jobs[k].items[m].transfer
    ensures j == k && i == m
  {
    hide Run, WorldRuns.Inv, KeysOk, CellsClean, ExecsOk, FinalsOk;
    ReachableInv(events, false);
    var s := Run(events);
    assert JobItemsOk(s.world, s.jobs[j], j, false) && JobItemsOk(s.world, s.jobs[k], k, false);
    assert ItemOk(s.world, s.jobs[j], j, i, s.jobs[j].items[i], false);
    assert ItemOk(s.world, s.jobs[k], k, m, s.jobs[k].items[m], false);
  }

  // ----- equality at the end -----

  /** The hypothesis of FAILED implies never posted, for the transfer steps of this run. */
  predicate QuietStep(s: State, e: Event) { WorldEvent(s, e).Some? ==> Quiet.QuietEvent(s.world, WorldEvent(s, e).value) }

  ghost predicate QuietRun(events: seq<Event>) {
    forall n :: 0 <= n < |events| ==> QuietStep(Run(events[..n]), events[n])
  }

  lemma {:induction false} PrefixQuiet(events: seq<Event>)
    requires QuietRun(events) && events != []
    ensures QuietRun(events[..|events| - 1]) && QuietStep(Run(events[..|events| - 1]), events[|events| - 1])
  {
    hide Run, QuietStep;
    var prefix := events[..|events| - 1];
    forall n | 0 <= n < |prefix| ensures QuietStep(Run(prefix[..n]), prefix[n]) {
      assert prefix[..n] == events[..n];
    }
  }

  lemma InvIsSane(s: State, prompt: bool)
    requires Inv(s, prompt)
    ensures QuietRuns.Sane(s.world)
  {
    hide KeysOk, CellsClean, JobsOk, ExecsOk, FinalsOk, LedgerInvariant.Inv;
  }

  lemma NextIsCalm(s: State, e: Event)
    requires QuietRuns.Sane(s.world) && Quiet.AllCalm(s.world) && QuietStep(s, e)
    ensures Quiet.AllCalm(Next(s, e).world)
  {
    hide W.Next, NextTables, Quiet.AllCalm, Quiet.QuietEvent;
    if WorldEvent(s, e).Some? { QuietRuns.NextKeepsCalm(s.world, WorldEvent(s, e).value); }
  }

  lemma {:induction false} QuietIsCalm(events: seq<Event>)
    requires QuietRun(events)
    ensures Quiet.AllCalm(Run(events).world)
  {
    hide Next, Inv, QuietStep, QuietRuns.Sane;
    if events != [] {
      PrefixQuiet(events);
      var prefix := events[..|events| - 1];
      QuietIsCalm(prefix);
      ReachableInv(prefix, false);
      InvIsSane(Run(prefix), false);
      NextIsCalm(Run(prefix), events[|events| - 1]);
    }
  }

  /** Inside the window and under the discipline, a FAILED item was never paid. */
  lemma FailedIsUnpaid(s: State, j: nat, i: nat)
    requires Inv(s, true) && Quiet.AllCalm(s.world) && ItemAt(s, j, i) && s.jobs[j].items[i].status == ItemFailed
    ensures !Paid(s.world, s.jobs[j].employer, j, i)
  {
    hide CellsClean, ExecsOk, FinalsOk, Quiet.AllCalm, LedgerInvariant.Inv;
    var job := s.jobs[j];
    assert JobItemsOk(s.world, job, j, true);
    assert ItemOk(s.world, job, j, i, job.items[i], true);
    forall id | Keyed(s.world, job.employer, j, i, id) ensures !Quiet.Posted(s.world, id) {
      KeyedIsAllowed(s, j, i, id, true);
      var t := job.items[i].transfer.value;
      assert WorldRuns.SameKey(s.world.cells[id], s.world.cells[t]);
      QuietRuns.FailedIsIdle(s.world, id);
    }
  }

  lemma KeyedIsAllowed(s: State, j: nat, i: nat, id: nat, prompt: bool)
    requires Inv(s, prompt) && ItemAt(s, j, i) && Keyed(s.world, s.jobs[j].employer, j, i, id)
    ensures RequestAllowed(ItemRequest(s.jobs[j], s.jobs[j].items[i]))
  {
    hide CellsClean, JobsOk, ExecsOk, FinalsOk, LedgerInvariant.Inv;
    var c := s.world.cells[id];
    assert WorldInvariant.CellOk(id, c, s.world.ledger, s.world.quotes);
    assert KeyedRequest(s.jobs, c.rows.record.client, c.rows.record.key, c.rows.record.request);
  }

  /**
   * When a job can be finalized, in a run whose retries stay inside the replay window and that satisfies the
   * discipline, exactly the completed amount has left the source wallet.
   */
  lemma {:induction false} FinalizedMoneyIsExact(events: seq<Event>, j: nat)
    requires TimelyRun(events) && QuietRun(events)
    requires j < |Run(events).jobs| && AllTerminal(Run(events).jobs[j].items)
    ensures JobDebits(Run(events), j) == CompletedAmount(Run(events).jobs[j].items)
  {
    hide Run, Inv, Paid, ItemOk, Quiet.AllCalm, TimelyRun, QuietRun, JobDebits, CompletedAmount;
    ReachableInv(events, true);
    QuietIsCalm(events);
    var s := Run(events);
    forall i | 0 <= i < |s.jobs[j].items| && Paid(s.world, s.jobs[j].employer, j, i)
      ensures s.jobs[j].items[i].status == ItemCompleted
    {
      if s.jobs[j].items[i].status == ItemFailed { FailedIsUnpaid(s, j, i); }
    }
    MoneyIsExactIff(events, j);
  }

  // ----- exactly which failures keep the money -----

  lemma {:induction false} PaidNamesTransfer(s: State, j: nat, i: nat)
    requires Inv(s, false) && ItemAt(s, j, i) && Paid(s.world, s.jobs[j].employer, j, i)
    ensures RequestAllowed(ItemRequest(s.jobs[j], s.jobs[j].items[i]))
    ensures s.jobs[j].items[i].transfer.Some? ==> Quiet.Posted(s.world, s.jobs[j].items[i].transfer.value)
  {
    hide CellsClean, ExecsOk, FinalsOk, LedgerInvariant.Inv;
    var job := s.jobs[j];
    assert JobItemsOk(s.world, job, j, false);
    assert ItemOk(s.world, job, j, i, job.items[i], false);
    var id :| id in s.world.cells && Keyed(s.world, job.employer, j, i, id) && Quiet.Posted(s.world, id);
    KeyedIsAllowed(s, j, i, id, false);
    if job.items[i].transfer.Some? { assert WorldRuns.SameKey(s.world.cells[id], s.world.cells[job.items[i].transfer.value]); }
  }

  /** An item that is FAILED although it was paid was refused for the age of its key, or its transfer failed and was posted. */
  lemma {:induction false} PaidFailure(events: seq<Event>, j: nat, i: nat)
    requires ItemAt(Run(events), j, i) && Run(events).jobs[j].items[i].status == ItemFailed
    requires Paid(Run(events).world, Run(events).jobs[j].employer, j, i)
    ensures var item := Run(events).jobs[j].items[i];
      || item.failure == Some(RequestRefused(Conflict(W.KeyExpired)))
      || (item.transfer.Some? && item.transfer.value in Run(events).world.cells
          && StatusOf(Run(events).world, item.transfer.value) == Failed && Quiet.Posted(Run(events).world, item.transfer.value))
  {
    hide Run, KeysOk, CellsClean, ExecsOk, FinalsOk, WorldRuns.Inv, Paid;
    ReachableInv(events, false);
    var s := Run(events);
    PaidNamesTransfer(s, j, i);
    assert JobItemsOk(s.world, s.jobs[j], j, false);
    assert ItemOk(s.world, s.jobs[j], j, i, s.jobs[j].items[i], false);
  }

  lemma {:induction false} NamedIsPaid(s: State, j: nat, i: nat)
    requires Inv(s, false) && ItemAt(s, j, i) && s.jobs[j].items[i].transfer.Some?
    requires Quiet.Posted(s.world, s.jobs[j].items[i].transfer.value)
    ensures Paid(s.world, s.jobs[j].employer, j, i)
  {
    hide KeysOk, CellsClean, ExecsOk, FinalsOk, LedgerInvariant.Inv, WorldRuns.Inv;
    assert JobItemsOk(s.world, s.jobs[j], j, false);
    assert ItemOk(s.world, s.jobs[j], j, i, s.jobs[j].items[i], false);
  }

  /**
   * When a job can be finalized, in a run whose retries stay inside the replay window, exactly the completed amount
   * has left the source wallet if and only if no FAILED item names a transfer that was posted.
   */
  lemma {:induction false} FinalizedMoneyIsExactIff(events: seq<Event>, j: nat)
    requires TimelyRun(events) && j < |Run(events).jobs| && AllTerminal(Run(events).jobs[j].items)
    ensures var s := Run(events); var job := s.jobs[j];
      JobDebits(s, j) == CompletedAmount(job.items)
      <==> forall i :: 0 <= i < |job.items| && job.items[i].status == ItemFailed && job.items[i].transfer.Some? ==>
             !Quiet.Posted(s.world, job.items[i].transfer.value)
  {
    hide Run, Inv, Paid, Quiet.Posted, JobDebits, CompletedAmount, TimelyRun;
    ReachableInv(events, true);
    ReachableInv(events, false);
    MoneyIsExactIff(events, j);
    var s := Run(events);
    forall i | 0 <= i < |s.jobs[j].items| && s.jobs[j].items[i].status == ItemFailed
      ensures Paid(s.world, s.jobs[j].employer, j, i) <==>
        s.jobs[j].items[i].transfer.Some? && Quiet.Posted(s.world, s.jobs[j].items[i].transfer.value)
    {
      if Paid(s.world, s.jobs[j].employer, j, i) {
        PaidNamesTransfer(s, j, i);
        PromptFailureNames(s, j, i);
      } else if s.jobs[j].items[i].transfer.Some? && Quiet.Posted(s.world, s.jobs[j].items[i].transfer.value) {
        NamedIsPaid(s, j, i);
      }
    }
  }

  lemma {:induction false} PromptFailureNames(s: State, j: nat, i: nat)
    requires Inv(s, true) && ItemAt(s, j, i) && s.jobs[j].items[i].status == ItemFailed
    requires RequestAllowed(ItemRequest(s.jobs[j], s.jobs[j].items[i]))
    ensures s.jobs[j].items[i].transfer.Some?
  {
    hide KeysOk, CellsClean, ExecsOk, FinalsOk, WorldRuns.Inv;
    assert JobItemsOk(s.world, s.jobs[j], j, true);
    assert ItemOk(s.world, s.jobs[j], j, i, s.jobs[j].items[i], true);
  }

  // ----- who may write -----

  /** The event claims this item under this token. */
  predicate Takes(e: Event, j: nat, i: nat, token: nat) {
    (e.Claim? || e.Reclaim?) && e.job == j && e.item == i && e.token == token
  }

  /** The item is not, or no longer, claimed under this token. */
  predicate Fenced(s: State, j: nat, i: nat, token: nat) { ItemAt(s, j, i) && s.jobs[j].items[i].token != Some(token) }

  lemma {:induction false} FenceStays(s: State, e: Event, j: nat, i: nat, token: nat)
    requires Fenced(s, j, i, token) && !Takes(e, j, i, token)
    ensures Fenced(NextTables(s, e), j, i, token)
  {
  }

  /**
   * A worker that has lost its claim of an item, to another worker or to a recorded answer, writes nothing, however much
   * later it checkpoints and whatever it has heard.
   */
  lemma {:induction false} StaleWorkerWritesNothing(events: seq<Event>, n: nat, x: nat)
    requires n <= |events| && x in Run(events).execs
    requires var e := Run(events).execs[x];
      Fenced(Run(events[..n]), e.job, e.item, e.token) && forall k :: n <= k < |events| ==> !Takes(events[k], e.job, e.item, e.token)
    ensures NextTables(Run(events), CheckpointStep(x)).jobs == Run(events).jobs
  {
    hide Run;
    var e := Run(events).execs[x];
    FencedSince(events, n, e.job, e.item, e.token);
    var s := Run(events);
    assert s.jobs[e.job].items[e.item := s.jobs[e.job].items[e.item]] == s.jobs[e.job].items;
  }

  lemma {:induction false} FencedSince(events: seq<Event>, n: nat, j: nat, i: nat, token: nat)
    requires n <= |events| && Fenced(Run(events[..n]), j, i, token)
    requires forall k :: n <= k < |events| ==> !Takes(events[k], j, i, token)
    ensures Fenced(Run(events), j, i, token)
  {
    hide Fenced, NextTables;
    if n == |events| {
      assert events[..n] == events;
    } else {
      var m := |events| - 1;
      assert events[..m][..n] == events[..n];
      FencedSince(events[..m], n, j, i, token);
      FenceStays(Run(events[..m]), events[m], j, i, token);
      SameJobs(Run(events[..m]), events[m], j, i, token);
    }
  }

  lemma SameJobs(s: State, e: Event, j: nat, i: nat, token: nat)
    requires |s.world.ledger.balances| == |s.world.ledger.accounts|
    ensures Fenced(Next(s, e), j, i, token) <==> Fenced(NextTables(s, e), j, i, token)
  {
    hide NextTables, NextWorld;
  }

  // ----- who was paid -----

  /** The posting takes this amount from the one wallet and gives it to the other, and books nothing else. */
  predicate Pays(accounts: seq<Ledger.Account>, p: Ledger.Resolved, payer: nat, payee: nat, amount: int, c: Currency) {
    && |p.entries| == 2
    && p.entries[0].account < |accounts| && accounts[p.entries[0].account].wallet == Some(payer) && p.entries[0].side == Ledger.Debit
    && p.entries[1].account < |accounts| && accounts[p.entries[1].account].wallet == Some(payee) && p.entries[1].side == Ledger.Credit
    && p.entries[0].amount == amount && p.entries[1].amount == amount
    && p.entries[0].currency == c && p.entries[1].currency == c
  }

  /** Any posting made for an item pays exactly that item, whatever has become of it: its recipient, its amount, from the job's wallet. */
  lemma {:induction false} PostingPaysItem(events: seq<Event>, j: nat, i: nat, id: nat, k: nat)
    requires ItemAt(Run(events), j, i) && Keyed(Run(events).world, Run(events).jobs[j].employer, j, i, id)
    requires k < |Run(events).world.ledger.journal| && Run(events).world.ledger.journal[k].body.reference == id
    ensures var s := Run(events); var job := s.jobs[j];
      Pays(s.world.ledger.accounts, s.world.ledger.journal[k].body, job.source, job.items[i].recipient, job.items[i].amount, job.currency)
  {
    hide Run, CellsClean, JobsOk, ExecsOk, FinalsOk, LedgerInvariant.Inv;
    ReachableInv(events, false);
    var s := Run(events);
    var c := s.world.cells[id];
    assert KeyedRequest(s.jobs, c.rows.record.client, c.rows.record.key, c.rows.record.request);
    assert WorldInvariant.CellOk(id, c, s.world.ledger, s.world.quotes);
    assert WorldInvariant.PostedFor(s.world.ledger.accounts, s.world.ledger.journal[k], id, c.rows.transfer);
  }

  /**
   * A COMPLETED item names a transfer whose posting is in the journal and pays exactly that item: its recipient is
   * credited its amount, and the source wallet of the job is debited it.
   */
  lemma {:induction false} CompletedItemIsPaid(events: seq<Event>, j: nat, i: nat)
    requires ItemAt(Run(events), j, i) && Run(events).jobs[j].items[i].status == ItemCompleted
    ensures var s := Run(events); var job := s.jobs[j]; var item := job.items[i];
      && item.transfer.Some?
      && exists k :: 0 <= k < |s.world.ledger.journal| && s.world.ledger.journal[k].body.reference == item.transfer.value
           && Pays(s.world.ledger.accounts, s.world.ledger.journal[k].body, job.source, item.recipient, item.amount, job.currency)
  {
    hide Run, KeysOk, CellsClean, ExecsOk, FinalsOk, LedgerInvariant.Inv, Pays;
    ReachableInv(events, false);
    var s := Run(events);
    assert JobItemsOk(s.world, s.jobs[j], j, false);
    assert ItemOk(s.world, s.jobs[j], j, i, s.jobs[j].items[i], false);
    var id := s.jobs[j].items[i].transfer.value;
    assert WorldInvariant.CellOk(id, s.world.cells[id], s.world.ledger, s.world.quotes);
    PostingPaysItem(events, j, i, id, s.world.cells[id].rows.transfer.posting.value);
  }
}
