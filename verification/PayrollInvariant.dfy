/** What every step of payroll keeps, with the transfer machine running underneath. */
module PayrollInvariant {
  import opened Common
  import opened Transfers
  import opened Payroll
  import W = World
  import WorldInvariant
  import WorldRuns
  import WorldTheorems
  import Ledger

  // ----- what payroll knows of the cells -----

  /** A payroll key is only ever used by the job's employer for exactly that item's request. */
  predicate KeyedRequest(jobs: seq<Job>, client: nat, key: Key, request: Request) {
    key.PayrollKey? ==>
      && key.job < |jobs| && key.item < |jobs[key.job].items|
      && client == jobs[key.job].employer && request == ItemRequest(jobs[key.job], jobs[key.job].items[key.item])
  }

  predicate KeysOk(w: W.World, jobs: seq<Job>) {
    && (forall id :: id in w.cells ==>
          KeyedRequest(jobs, w.cells[id].rows.record.client, w.cells[id].rows.record.key, w.cells[id].rows.record.request))
    && (forall a :: a in w.intake ==> KeyedRequest(jobs, w.intake[a].client, w.intake[a].key, w.intake[a].request))
  }

  /** No payroll request is ever refused for its payload; while `prompt`, none for its age. */
  predicate CleanAct(rows: Rows, act: W.Activation, prompt: bool) {
    match act
    case Handling(request, record) => request == rows.record.request && record.request == rows.record.request
                                      && record.replayExpiresAt == rows.record.replayExpiresAt
    case Rejected(r) => r == W.KeyExpired && !prompt
    case _ => true
  }

  predicate CleanCell(c: W.Cell, prompt: bool) {
    c.rows.record.key.PayrollKey? ==> forall a :: a in c.acts ==> CleanAct(c.rows, c.acts[a], prompt)
  }

  predicate CellsClean(w: W.World, prompt: bool) { forall id :: id in w.cells ==> CleanCell(w.cells[id], prompt) }

  /** `id` is the transfer of item `i` of job `j`. */
  predicate Keyed(w: W.World, employer: nat, j: nat, i: nat, id: nat) {
    id in w.cells && W.HasKey(w.cells[id], employer, PayrollKey(j, i))
  }

  function StatusOf(w: W.World, id: nat): Status
    requires id in w.cells
  {
    w.cells[id].rows.transfer.status
  }

  // ----- items, jobs and workers -----

  predicate ItemOk(w: W.World, job: Job, j: nat, i: nat, item: Item, prompt: bool) {
    && item.amount > 0
    && (item.transfer.Some? ==> Keyed(w, job.employer, j, i, item.transfer.value))
    && (item.status == ItemCompleted ==> item.transfer.Some? && StatusOf(w, item.transfer.value) == Completed)
    && (item.status == ItemFailed ==>
          && item.failure.Some?
          && (match item.failure.value
              case TransferFailed(_) => item.transfer.Some? && StatusOf(w, item.transfer.value) == Failed
              case RequestRefused(InvalidRequest) => !RequestAllowed(ItemRequest(job, item))
              case RequestRefused(Conflict(r)) => r == W.KeyExpired && !prompt))
  }

  predicate JobOk(job: Job) {
    && job.totalItems == |job.items| > 0 && job.totalAmount == Amounts(job.items)
    && job.completed == CountOf(job.items, ItemCompleted) && job.failed == CountOf(job.items, ItemFailed)
  }

  predicate JobItemsOk(w: W.World, job: Job, j: nat, prompt: bool) {
    forall i :: 0 <= i < |job.items| ==> ItemOk(w, job, j, i, job.items[i], prompt)
  }

  predicate JobsOk(s: State, prompt: bool) {
    forall j :: 0 <= j < |s.jobs| ==> JobOk(s.jobs[j]) && JobItemsOk(s.world, s.jobs[j], j, prompt)
  }

  predicate OutcomeOk(w: W.World, job: Job, j: nat, i: nat, o: Outcome, prompt: bool)
    requires i < |job.items|
  {
    match o
    case Body(r) =>
      && Keyed(w, job.employer, j, i, r.transfer) && r.status != Status.Reversed
      && (r.status == Completed || r.status == Failed ==> StatusOf(w, r.transfer) == r.status)
    case ClientError(InvalidRequest) => !RequestAllowed(ItemRequest(job, job.items[i]))
    case ClientError(Conflict(r)) => r == W.KeyExpired && !prompt
  }

  predicate ExecOk(s: State, x: Exec, prompt: bool) {
    && ItemAt(s, x.job, x.item)
    && (x.phase.Heard? ==> OutcomeOk(s.world, s.jobs[x.job], x.job, x.item, x.phase.outcome, prompt))
  }

  predicate ExecsOk(s: State, prompt: bool) { forall x :: x in s.execs ==> ExecOk(s, s.execs[x], prompt) }

  predicate AllTerminal(items: seq<Item>) { forall i :: 0 <= i < |items| ==> ItemTerminal(items[i].status) }

  predicate FinalOk(jobs: seq<Job>, f: Final) {
    f.job < |jobs| && AllTerminal(jobs[f.job].items) && f.status == FinalStatus(jobs[f.job])
  }

  predicate FinalsOk(s: State) {
    && (forall f :: f in s.finals ==> FinalOk(s.jobs, s.finals[f]))
    && (forall j :: 0 <= j < |s.jobs| && JobTerminal(s.jobs[j].status) ==> FinalOk(s.jobs, Final(j, s.jobs[j].status)))
  }

  ghost predicate WorldOk(w: W.World) { WorldRuns.Inv(w) && WorldRuns.IntakeOk(w) }

  ghost predicate Inv(s: State, prompt: bool) {
    && WorldOk(s.world) && KeysOk(s.world, s.jobs) && CellsClean(s.world, prompt)
    && JobsOk(s, prompt) && ExecsOk(s, prompt) && FinalsOk(s)
  }

  // ----- counting -----

  lemma {:induction false} AmountsUpdate(items: seq<Item>, i: nat, item: Item)
    requires i < |items| && item.amount == items[i].amount
    ensures Amounts(items[i := item]) == Amounts(items)
  {
    var n := |items| - 1;
    if i == n {
      assert items[i := item][..n] == items[..n];
    } else {
      assert items[i := item][..n] == items[..n][i := item];
      AmountsUpdate(items[..n], i, item);
    }
  }

  lemma {:induction false} CountUpdate(items: seq<Item>, i: nat, item: Item, s: ItemStatus)
    requires i < |items|
    ensures CountOf(items[i := item], s) ==
            CountOf(items, s) + (if item.status == s then 1 else 0) - if items[i].status == s then 1 else 0
  {
    var n := |items| - 1;
    if i == n {
      assert items[i := item][..n] == items[..n];
    } else {
      assert items[i := item][..n] == items[..n][i := item];
      CountUpdate(items[..n], i, item, s);
    }
  }

  lemma {:induction false} CountsBound(items: seq<Item>)
    ensures CountOf(items, ItemCompleted) + CountOf(items, ItemFailed) <= |items|
    ensures CountOf(items, ItemCompleted) + CountOf(items, ItemFailed) == |items| <==> AllTerminal(items)
  {
    if items != [] {
      var prefix := items[..|items| - 1];
      CountsBound(prefix);
      assert AllTerminal(items) <==> AllTerminal(prefix) && ItemTerminal(items[|items| - 1].status) by {
        assert forall i :: 0 <= i < |prefix| ==> prefix[i] == items[i];
      }
    }
  }

  lemma {:induction false} NewItemsUncounted(items: seq<Item>)
    requires forall i :: 0 <= i < |items| ==> NewItem(items[i])
    ensures CountOf(items, ItemCompleted) == 0 && CountOf(items, ItemFailed) == 0
  {
    if items != [] { NewItemsUncounted(items[..|items| - 1]); }
  }

  // ----- one item row changes -----

  /** The columns of an item that no update touches. */
  predicate SameTerms(a: Item, b: Item) { a.recipient == b.recipient && a.amount == b.amount }

  predicate SameJob(a: Job, b: Job) {
    && a.employer == b.employer && a.source == b.source && a.currency == b.currency
    && a.totalItems == b.totalItems && a.totalAmount == b.totalAmount && |a.items| == |b.items|
    && (forall i :: 0 <= i < |a.items| ==> SameTerms(a.items[i], b.items[i]))
  }

  /** Everything that is known of a state once one job has been replaced by a version of itself. */
  lemma PutJob(s: State, j: nat, job: Job, prompt: bool)
    requires Inv(s, prompt) && j < |s.jobs| && SameJob(s.jobs[j], job)
    requires JobOk(job) && JobItemsOk(s.world, job, j, prompt)
    requires AllTerminal(s.jobs[j].items) ==>
      job.items == s.jobs[j].items && job.completed == s.jobs[j].completed && job.failed == s.jobs[j].failed
    requires JobTerminal(job.status) ==> AllTerminal(job.items) && job.status == FinalStatus(job)
    ensures Inv(s.(jobs := s.jobs[j := job]), prompt)
  {
    hide WorldRuns.Inv, CellsClean, CleanCell, KeysOk, ItemOk;
    var s' := s.(jobs := s.jobs[j := job]);
    PutJobKeys(s.world, s.jobs, j, job);
    PutJobExecs(s, j, job, prompt);
    forall k | 0 <= k < |s'.jobs| && k != j ensures JobOk(s'.jobs[k]) && JobItemsOk(s'.world, s'.jobs[k], k, prompt) {
      assert JobOk(s.jobs[k]) && JobItemsOk(s.world, s.jobs[k], k, prompt);
    }
    forall f | f in s'.finals ensures FinalOk(s'.jobs, s'.finals[f]) { assert FinalOk(s.jobs, s.finals[f]); }
    forall k | 0 <= k < |s'.jobs| && JobTerminal(s'.jobs[k].status) ensures FinalOk(s'.jobs, Final(k, s'.jobs[k].status)) {
      if k != j { assert FinalOk(s.jobs, Final(k, s.jobs[k].status)); }
    }
  }

  lemma {:induction false} PutJobKeys(w: W.World, jobs: seq<Job>, j: nat, job: Job)
    requires KeysOk(w, jobs) && j < |jobs| && SameJob(jobs[j], job)
    ensures KeysOk(w, jobs[j := job])
  {
    forall client: nat, key: Key, request: Request | KeyedRequest(jobs, client, key, request)
      ensures KeyedRequest(jobs[j := job], client, key, request)
    {
    }
  }

  lemma PutJobExecs(s: State, j: nat, job: Job, prompt: bool)
    requires ExecsOk(s, prompt) && j < |s.jobs| && SameJob(s.jobs[j], job)
    ensures ExecsOk(s.(jobs := s.jobs[j := job]), prompt)
  {
    hide Keyed, StatusOf;
    var s' := s.(jobs := s.jobs[j := job]);
    forall x | x in s'.execs ensures ExecOk(s', s'.execs[x], prompt) { assert ExecOk(s, s.execs[x], prompt); }
  }

  lemma PutItem(s: State, j: nat, i: nat, item: Item, completed: nat, failed: nat, prompt: bool)
    requires Inv(s, prompt) && ItemAt(s, j, i) && !ItemTerminal(s.jobs[j].items[i].status)
    requires SameTerms(s.jobs[j].items[i], item) && ItemOk(s.world, s.jobs[j], j, i, item, prompt)
    requires completed == s.jobs[j].completed + if item.status == ItemCompleted then 1 else 0
    requires failed == s.jobs[j].failed + if item.status == ItemFailed then 1 else 0
    ensures Inv(s.(jobs := s.jobs[j := s.jobs[j].(items := s.jobs[j].items[i := item], completed := completed, failed := failed)]), prompt)
  {
    hide WorldRuns.Inv, CellsClean, CleanCell, KeysOk, ExecsOk;
    var was := s.jobs[j];
    var job := was.(items := was.items[i := item], completed := completed, failed := failed);
    AmountsUpdate(was.items, i, item);
    CountUpdate(was.items, i, item, ItemCompleted);
    CountUpdate(was.items, i, item, ItemFailed);
    assert JobOk(was) && JobItemsOk(s.world, was, j, prompt);
    forall k | 0 <= k < |job.items| ensures ItemOk(s.world, job, j, k, job.items[k], prompt) {
      assert ItemOk(s.world, was, j, k, was.items[k], prompt);
    }
    assert JobTerminal(was.status) ==> FinalOk(s.jobs, Final(j, was.status));
    PutJob(s, j, job, prompt);
  }

  lemma PutExec(s: State, x: nat, e: Exec, prompt: bool)
    requires Inv(s, prompt) && ExecOk(s, e, prompt)
    ensures Inv(s.(execs := s.execs[x := e]), prompt)
  {
    hide WorldRuns.Inv, CellsClean, CleanCell, KeysOk, ItemOk, FinalOk;
  }

  lemma DropExecKeeps(s: State, x: nat, prompt: bool)
    requires Inv(s, prompt)
    ensures Inv(s.(execs := s.execs - {x}), prompt)
  {
    hide WorldRuns.Inv, CellsClean, CleanCell, KeysOk, ItemOk, FinalOk;
  }

  lemma TakeKeeps(s: State, x: nat, j: nat, i: nat, token: nat, prompt: bool)
    requires Inv(s, prompt) && ItemAt(s, j, i) && !ItemTerminal(s.jobs[j].items[i].status)
    ensures Inv(TakeItem(s, x, j, i, token), prompt)
  {
    hide WorldRuns.Inv, CellsClean, CleanCell, KeysOk, ExecsOk, FinalsOk;
    var job := s.jobs[j];
    var item := Taken(job.items[i], token);
    assert ItemOk(s.world, job, j, i, job.items[i], prompt);
    PutItem(s, j, i, item, job.completed, job.failed, prompt);
    var s1 := s.(jobs := s.jobs[j := job.(items := job.items[i := item], completed := job.completed, failed := job.failed)]);
    assert s1 == s.(jobs := s.jobs[j := job.(items := job.items[i := item])]);
    PutExec(s1, x, Exec(j, i, token, Ready), prompt);
  }

  /** What the worker heard is true of the item, so the row it writes is too. */
  lemma CheckpointIsOk(w: W.World, job: Job, j: nat, i: nat, token: nat, o: Outcome, prompt: bool)
    requires i < |job.items| && ItemOk(w, job, j, i, job.items[i], prompt) && OutcomeOk(w, job, j, i, o, prompt)
    ensures ItemOk(w, job, j, i, CheckpointItem(job.items[i], token, o), prompt)
  {
  }

  lemma CheckpointKeeps(s: State, x: nat, prompt: bool)
    requires Inv(s, prompt) && x in s.execs && s.execs[x].phase.Heard? && ItemAt(s, s.execs[x].job, s.execs[x].item)
    ensures Inv(NextTables(s, CheckpointStep(x)), prompt)
  {
    hide WorldRuns.Inv, CellsClean, CleanCell, KeysOk, FinalsOk;
    var e := s.execs[x];
    var job := s.jobs[e.job];
    assert ExecOk(s, e, prompt);
    assert ItemOk(s.world, job, e.job, e.item, job.items[e.item], prompt);
    DropExecKeeps(s, x, prompt);
    var s1 := s.(execs := s.execs - {x});
    var job' := Checkpoint(job, e.item, e.token, e.phase.outcome);
    if Held(job.items[e.item], e.token) {
      CheckpointIsOk(s.world, job, e.job, e.item, e.token, e.phase.outcome, prompt);
      PutItem(s1, e.job, e.item, job'.items[e.item], job'.completed, job'.failed, prompt);
      assert job' == job.(items := job.items[e.item := job'.items[e.item]], completed := job'.completed, failed := job'.failed);
    } else {
      assert job.items[e.item := job.items[e.item]] == job.items;
      assert job' == job && s.jobs[e.job := job] == s.jobs;
    }
  }

  // ----- statuses and finalize -----

  lemma SetStatusKeeps(s: State, j: nat, status: JobStatus, prompt: bool)
    requires Inv(s, prompt) && j < |s.jobs|
    requires JobTerminal(status) ==> AllTerminal(s.jobs[j].items) && status == FinalStatus(s.jobs[j])
    ensures Inv(s.(jobs := s.jobs[j := s.jobs[j].(status := status)]), prompt)
  {
    hide WorldRuns.Inv, CellsClean, CleanCell, KeysOk, ExecsOk, FinalsOk;
    var job := s.jobs[j].(status := status);
    assert JobOk(s.jobs[j]) && JobItemsOk(s.world, s.jobs[j], j, prompt);
    forall i | 0 <= i < |job.items| ensures ItemOk(s.world, job, j, i, job.items[i], prompt) {
      assert ItemOk(s.world, s.jobs[j], j, i, s.jobs[j].items[i], prompt);
    }
    PutJob(s, j, job, prompt);
  }

  /** The counters a finalize reads can only add up when every item is terminal. */
  lemma FinalizeReadKeeps(s: State, f: nat, j: nat, prompt: bool)
    requires Inv(s, prompt) && j < |s.jobs| && s.jobs[j].completed + s.jobs[j].failed == s.jobs[j].totalItems
    ensures Inv(s.(finals := s.finals[f := Final(j, FinalStatus(s.jobs[j]))]), prompt)
  {
    hide WorldRuns.Inv, CellsClean, CleanCell, KeysOk, JobItemsOk, OutcomeOk;
    CountsBound(s.jobs[j].items);
    assert JobOk(s.jobs[j]);
  }

  lemma FinalizeWriteKeeps(s: State, f: nat, prompt: bool)
    requires Inv(s, prompt) && f in s.finals
    ensures Inv(NextTables(s, FinalizeWrite(f)), prompt)
  {
    hide WorldRuns.Inv, CellsClean, CleanCell, KeysOk, JobsOk, ExecsOk;
    var final := s.finals[f];
    assert FinalOk(s.jobs, final);
    SetStatusKeeps(s, final.job, final.status, prompt);
    DropFinal(s.(jobs := s.jobs[final.job := s.jobs[final.job].(status := final.status)]), f, prompt);
  }

  lemma DropFinal(s: State, f: nat, prompt: bool)
    requires Inv(s, prompt)
    ensures Inv(s.(finals := s.finals - {f}), prompt)
  {
    hide WorldRuns.Inv, CellsClean, CleanCell, KeysOk, JobOk, JobItemsOk, OutcomeOk;
  }

  lemma {:induction false} SubmitKeeps(s: State, employer: nat, source: nat, currency: Currency, items: seq<Item>, prompt: bool)
    requires Inv(s, prompt) && items != [] && forall i :: 0 <= i < |items| ==> NewItem(items[i])
    ensures Inv(s.(jobs := s.jobs + [NewJob(employer, source, currency, items)]), prompt)
  {
    hide WorldRuns.Inv, CellsClean, CleanCell;
    var job := NewJob(employer, source, currency, items);
    var s' := s.(jobs := s.jobs + [job]);
    NewItemsUncounted(items);
    forall k | 0 <= k < |s'.jobs| ensures JobOk(s'.jobs[k]) && JobItemsOk(s'.world, s'.jobs[k], k, prompt) {
      if k < |s.jobs| { assert JobOk(s.jobs[k]) && JobItemsOk(s.world, s.jobs[k], k, prompt); }
    }
    forall x | x in s'.execs ensures ExecOk(s', s'.execs[x], prompt) { assert ExecOk(s, s.execs[x], prompt); }
    forall f | f in s'.finals ensures FinalOk(s'.jobs, s'.finals[f]) { assert FinalOk(s.jobs, s.finals[f]); }
  }

  lemma StartWriteKeeps(s: State, p: nat, prompt: bool)
    requires Inv(s, prompt) && p in s.starts && s.starts[p] < |s.jobs|
    ensures Inv(NextTables(s, StartWrite(p)), prompt)
  {
    hide WorldRuns.Inv, CellsClean, KeysOk, JobsOk, ExecsOk, FinalsOk;
    SetStatusKeeps(s, s.starts[p], JobProcessing, prompt);
    DropStart(s.(jobs := s.jobs[s.starts[p] := s.jobs[s.starts[p]].(status := JobProcessing)]), p, prompt);
  }

  lemma DropStart(s: State, p: nat, prompt: bool)
    requires Inv(s, prompt)
    ensures Inv(s.(starts := s.starts - {p}), prompt)
  {
    hide WorldRuns.Inv, CellsClean, CleanCell, KeysOk, JobOk, JobItemsOk, FinalOk;
  }

  // ----- what a worker hears -----

  /** A reply of the activation that served an item tells the truth about that item's transfer. */
  lemma HeardIsOk(s: State, x: nat, id: nat, prompt: bool)
    requires Inv(s, prompt) && Answering(s, x, id)
    ensures var e := s.execs[x];
      OutcomeOk(s.world, s.jobs[e.job], e.job, e.item, AnswerOf(s.world.cells[id].acts[e.phase.act]).value, prompt)
  {
    hide KeysOk, JobsOk, ExecsOk, FinalsOk;
    var c := s.world.cells[id];
    var a := s.execs[x].phase.act;
    assert WorldInvariant.CellOk(id, c, s.world.ledger, s.world.quotes);
    assert WorldInvariant.ActOk(id, c.rows, c.acts[a], s.world.ledger.journal, s.world.quotes);
    assert CleanCell(c, prompt);
    assert CleanAct(c.rows, c.acts[a], prompt);
  }

  lemma ReceiveKeeps(s: State, x: nat, id: nat, prompt: bool)
    requires Inv(s, prompt) && Answering(s, x, id)
    ensures Inv(NextTables(s, Receive(x, id)), prompt)
  {
    hide WorldRuns.Inv, CellsClean, KeysOk, JobsOk, FinalsOk;
    HeardIsOk(s, x, id, prompt);
    PutExec(s, x, s.execs[x].(phase := Heard(AnswerOf(s.world.cells[id].acts[s.execs[x].phase.act]).value)), prompt);
  }

  /** The payroll half of every event keeps the invariant. */
  lemma TablesKeep(s: State, e: Event, prompt: bool)
    requires Inv(s, prompt)
    ensures Inv(NextTables(s, e), prompt)
  {
    hide WorldRuns.Inv, CellsClean, KeysOk, JobsOk, FinalsOk;
    match e
    case Submit(employer, source, currency, items) =>
      if items != [] && forall i :: 0 <= i < |items| ==> NewItem(items[i]) { SubmitKeeps(s, employer, source, currency, items, prompt); }
    case Enqueue(j) =>
      if j < |s.jobs| && (s.jobs[j].status == JobPending || s.jobs[j].status == JobQueued) { SetStatusKeeps(s, j, JobQueued, prompt); }
    case StartRead(p, j) => StartReadKeeps(s, p, j, prompt);
    case StartWrite(p) => if p in s.starts && s.starts[p] < |s.jobs| { StartWriteKeeps(s, p, prompt); }
    case Claim(x, j, i, token) =>
      if ItemAt(s, j, i) && s.jobs[j].items[i].status == ItemPending { TakeKeeps(s, x, j, i, token, prompt); }
    case Reclaim(x, j, i, token) =>
      if ItemAt(s, j, i) && s.jobs[j].items[i].status == ItemProcessing { TakeKeeps(s, x, j, i, token, prompt); }
    case Send(x, act) => if WorldEvent(s, e).Some? { PutExec(s, x, s.execs[x].(phase := Waiting(act)), prompt); }
    case Receive(x, id) => if Answering(s, x, id) { ReceiveKeeps(s, x, id, prompt); }
    case ReceiveInvalid(x) =>
      if RequestInvalid(s, x) { PutExec(s, x, s.execs[x].(phase := Heard(ClientError(InvalidRequest))), prompt); }
    case CheckpointStep(x) =>
      if x in s.execs && s.execs[x].phase.Heard? && ItemAt(s, s.execs[x].job, s.execs[x].item) { CheckpointKeeps(s, x, prompt); }
    case DropExec(x) => DropExecKeeps(s, x, prompt);
    case FinalizeRead(f, j) =>
      if j < |s.jobs| && s.jobs[j].completed + s.jobs[j].failed == s.jobs[j].totalItems { FinalizeReadKeeps(s, f, j, prompt); }
    case FinalizeWrite(f) => if f in s.finals { FinalizeWriteKeeps(s, f, prompt); }
    case Elsewhere(_) =>
  }

  lemma StartReadKeeps(s: State, p: nat, j: nat, prompt: bool)
    requires Inv(s, prompt)
    ensures Inv(NextTables(s, StartRead(p, j)), prompt)
  {
    hide WorldRuns.Inv, CellsClean, CleanCell, KeysOk, JobOk, JobItemsOk, FinalOk;
  }

  // ----- the transfer machine moves underneath -----

  /** The guard the branch that refuses an old key tests: the request is handled inside its replay window. */
  predicate TimelyEvent(w: W.World, e: W.Event) {
    e.Step? && e.id in w.cells && e.act in w.cells[e.id].acts && w.cells[e.id].acts[e.act].Handling?
    && w.cells[e.id].rows.record.key.PayrollKey?
    ==> w.now < w.cells[e.id].rows.record.replayExpiresAt
  }

  lemma CellOrigin(w: W.World, e: W.Event, id: nat)
    requires |w.ledger.balances| == |w.ledger.accounts| && id in W.Next(w, e).cells && id !in w.cells
    ensures e.Insert? && e.id == id && e.act in w.intake && W.Next(w, e).cells[id] == W.NewCell(w.intake[e.act], e.act, w.now)
  {
    hide Ledger.PostAfterLookup, Ledger.Next, W.ActStep;
  }

  lemma IntakeOrigin(w: W.World, e: W.Event, a: nat)
    requires |w.ledger.balances| == |w.ledger.accounts| && a in W.Next(w, e).intake
    ensures var i := W.Next(w, e).intake[a];
      || (a in w.intake && i.client == w.intake[a].client && i.key == w.intake[a].key && i.request == w.intake[a].request)
      || (e.Arrive? && i.client == e.client && i.key == e.key && i.request == e.request)
  {
    hide Ledger.PostAfterLookup, Ledger.Next, W.ActStep;
  }

  lemma {:induction false} StepClean(id: nat, c: W.Cell, act: nat, choice: W.Choice, journal: seq<Ledger.Posting>, now: int, prompt: bool)
    requires act in c.acts && CleanCell(c, prompt) && c.rows.record.key.PayrollKey?
    requires prompt && c.acts[act].Handling? ==> now < c.rows.record.replayExpiresAt
    ensures CleanCell(W.ActStep(id, c, act, choice, journal, now), prompt)
  {
    hide W.ActStep;
    var c' := W.ActStep(id, c, act, choice, journal, now);
    StepKeepsRecord(id, c, act, choice, journal, now);
    StepActClean(id, c, act, choice, journal, now, prompt);
    forall a | a in c'.acts && a != act ensures CleanAct(c'.rows, c'.acts[a], prompt) {
      assert CleanAct(c.rows, c.acts[a], prompt);
    }
  }

  lemma {:induction false} StepKeepsRecord(id: nat, c: W.Cell, act: nat, choice: W.Choice, journal: seq<Ledger.Posting>, now: int)
    requires act in c.acts
    ensures var c' := W.ActStep(id, c, act, choice, journal, now);
      && c'.rows.record.key == c.rows.record.key && c'.rows.record.request == c.rows.record.request
      && c'.rows.record.replayExpiresAt == c.rows.record.replayExpiresAt
      && act in c'.acts && c'.acts == c.acts[act := c'.acts[act]]
  {
    hide W.LocalStep;
    WorldTheorems.StepRows(id, c, act, choice, journal, now);
  }

  lemma {:induction false} StepActClean(id: nat, c: W.Cell, act: nat, choice: W.Choice, journal: seq<Ledger.Posting>, now: int, prompt: bool)
    requires act in c.acts && CleanAct(c.rows, c.acts[act], prompt)
    requires prompt && c.acts[act].Handling? ==> now < c.rows.record.replayExpiresAt
    ensures var c' := W.ActStep(id, c, act, choice, journal, now);
      act in c'.acts && CleanAct(c'.rows, c'.acts[act], prompt)
  {
    hide Fail, Complete, Prepare, Transition, ClaimRetry, ResultFor, ValidateWallets, PostingCommand, QuoteClaim;
    StepKeepsRecord(id, c, act, choice, journal, now);
  }

  lemma JoinClean(c: W.Cell, act: nat, request: Request, prompt: bool)
    requires CleanCell(c, prompt) && (c.rows.record.key.PayrollKey? ==> request == c.rows.record.request)
    ensures CleanCell(c.(acts := c.acts[act := W.Handling(request, c.rows.record)]), prompt)
  {
  }

  lemma {:induction false} JoinSameRequest(w: W.World, jobs: seq<Job>, act: nat, id: nat)
    requires KeysOk(w, jobs) && act in w.intake && id in w.cells && W.HasKey(w.cells[id], w.intake[act].client, w.intake[act].key)
    ensures w.cells[id].rows.record.key.PayrollKey? ==> w.intake[act].request == w.cells[id].rows.record.request
  {
  }

  lemma {:induction false} OtherEventsClean(w: W.World, e: W.Event, id: nat, prompt: bool)
    requires |w.ledger.balances| == |w.ledger.accounts| && id in w.cells && id in W.Next(w, e).cells && CleanCell(w.cells[id], prompt)
    requires !e.Step? && !e.FindKey? && !e.InsertLost?
    ensures CleanCell(W.Next(w, e).cells[id], prompt)
  {
    hide Ledger.PostAfterLookup, Ledger.Next, W.ActStep;
  }

  /** Any event leaves one cell as clean as it was. */
  lemma {:induction false} CellStaysClean(w: W.World, e: W.Event, jobs: seq<Job>, id: nat, prompt: bool)
    requires |w.ledger.balances| == |w.ledger.accounts| && KeysOk(w, jobs) && CellsClean(w, prompt)
    requires prompt ==> TimelyEvent(w, e)
    requires id in W.Next(w, e).cells
    ensures CleanCell(W.Next(w, e).cells[id], prompt)
  {
    hide Ledger.PostAfterLookup, Ledger.Next, W.ActStep, KeysOk;
    if id !in w.cells {
      CellOrigin(w, e, id);
    } else {
      assert CleanCell(w.cells[id], prompt);
      match e
      case Step(i, a, choice) =>
        if i == id && a in w.cells[id].acts {
          StepKeepsRecord(id, w.cells[id], a, choice, w.ledger.journal, w.now);
          if w.cells[id].rows.record.key.PayrollKey? { StepClean(id, w.cells[id], a, choice, w.ledger.journal, w.now, prompt); }
        }
      case FindKey(a, found) =>
        if a in w.intake && found == Some(id) && W.HasKey(w.cells[id], w.intake[a].client, w.intake[a].key) {
          JoinSameRequest(w, jobs, a, id);
          JoinClean(w.cells[id], a, w.intake[a].request, prompt);
        }
      case InsertLost(a, i) =>
        if a in w.intake && i == id && W.HasKey(w.cells[id], w.intake[a].client, w.intake[a].key) {
          JoinSameRequest(w, jobs, a, id);
          JoinClean(w.cells[id], a, w.intake[a].request, prompt);
        }
      case _ => OtherEventsClean(w, e, id, prompt);
    }
  }

  /** Transfers that existed still do, under the same key, and the terminal ones as they were. */
  predicate WorldMoves(w: W.World, w': W.World) {
    forall id :: id in w.cells ==> id in w'.cells && WorldTheorems.Persists(w.cells[id].rows, w'.cells[id].rows)
  }

  lemma NextMoves(w: W.World, e: W.Event)
    requires WorldOk(w)
    ensures WorldMoves(w, W.Next(w, e))
  {
    hide W.Next;
    forall id | id in w.cells
      ensures id in W.Next(w, e).cells && WorldTheorems.Persists(w.cells[id].rows, W.Next(w, e).cells[id].rows)
    {
      WorldTheorems.NextRowsEvolve(w, e, id);
    }
  }

  lemma MovedJobs(s: State, w: W.World, prompt: bool)
    requires JobsOk(s, prompt) && ExecsOk(s, prompt) && FinalsOk(s) && WorldMoves(s.world, w)
    ensures JobsOk(s.(world := w), prompt) && ExecsOk(s.(world := w), prompt) && FinalsOk(s.(world := w))
  {
    forall j | 0 <= j < |s.jobs| ensures JobOk(s.jobs[j]) && JobItemsOk(w, s.jobs[j], j, prompt) {
      assert JobOk(s.jobs[j]) && JobItemsOk(s.world, s.jobs[j], j, prompt);
      forall i | 0 <= i < |s.jobs[j].items| ensures ItemOk(w, s.jobs[j], j, i, s.jobs[j].items[i], prompt) {
        assert ItemOk(s.world, s.jobs[j], j, i, s.jobs[j].items[i], prompt);
      }
    }
    forall x | x in s.execs ensures ExecOk(s.(world := w), s.execs[x], prompt) { assert ExecOk(s, s.execs[x], prompt); }
  }

  lemma {:induction false} MovedKeys(w: W.World, e: W.Event, jobs: seq<Job>)
    requires WorldOk(w) && KeysOk(w, jobs) && WorldMoves(w, W.Next(w, e))
    requires e.Arrive? ==> KeyedRequest(jobs, e.client, e.key, e.request)
    ensures KeysOk(W.Next(w, e), jobs)
  {
    hide W.Next, WorldRuns.Inv;
    WorldRuns.InvSizes(w);
    var w' := W.Next(w, e);
    forall id | id in w'.cells
      ensures KeyedRequest(jobs, w'.cells[id].rows.record.client, w'.cells[id].rows.record.key, w'.cells[id].rows.record.request)
    {
      if id !in w.cells { CellOrigin(w, e, id); }
    }
    forall a | a in w'.intake ensures KeyedRequest(jobs, w'.intake[a].client, w'.intake[a].key, w'.intake[a].request) {
      IntakeOrigin(w, e, a);
    }
  }

  /** A step of the transfer machine keeps everything payroll relies on. */
  lemma WorldKeeps(s: State, e: W.Event, prompt: bool)
    requires Inv(s, prompt) && (prompt ==> TimelyEvent(s.world, e))
    requires e.Arrive? ==> KeyedRequest(s.jobs, e.client, e.key, e.request)
    ensures Inv(s.(world := W.Next(s.world, e)), prompt)
  {
    hide W.Next, WorldRuns.Inv, KeysOk, JobsOk, ExecsOk, FinalsOk, CleanCell;
    WorldRuns.InvSizes(s.world);
    WorldRuns.NextKeepsInv(s.world, e);
    NextMoves(s.world, e);
    MovedKeys(s.world, e, s.jobs);
    MovedJobs(s, W.Next(s.world, e), prompt);
    forall id | id in W.Next(s.world, e).cells ensures CleanCell(W.Next(s.world, e).cells[id], prompt) {
      CellStaysClean(s.world, e, s.jobs, id, prompt);
    }
  }

  predicate Timely(s: State, e: Event) { WorldEvent(s, e).Some? ==> TimelyEvent(s.world, WorldEvent(s, e).value) }

  /** Every event of the composed system keeps the invariant; `prompt` is kept by the events inside the window. */
  lemma NextKeepsInv(s: State, e: Event, prompt: bool)
    requires Inv(s, prompt) && (prompt ==> Timely(s, e))
    ensures |s.world.ledger.balances| == |s.world.ledger.accounts| && Inv(Next(s, e), prompt)
  {
    hide W.Next, WorldRuns.Inv, KeysOk, JobsOk, ExecsOk, FinalsOk, CellsClean, NextTables;
    WorldRuns.InvSizes(s.world);
    TablesKeep(s, e, prompt);
    TablesFrame(s, e);
    var t := NextTables(s, e);
    if WorldEvent(s, e).Some? {
      WorldKeeps(t, WorldEvent(s, e).value, prompt);
    }
    assert t.(world := s.world) == t;
  }

  lemma TablesFrame(s: State, e: Event)
    ensures NextTables(s, e).world == s.world
    ensures WorldEvent(s, e).Some? && WorldEvent(s, e).value.Arrive? ==>
      KeyedRequest(NextTables(s, e).jobs, WorldEvent(s, e).value.client, WorldEvent(s, e).value.key, WorldEvent(s, e).value.request)
  {
  }
}
