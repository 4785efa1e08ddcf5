/**
 * Payroll on top of the transfer machine: jobs of items, workers that may lose their lease or
 * crash between any two statements, and the transfer requests they send.  The lease is not
 * modelled here, so nothing proved of this machine depends on it.
 */
module Payroll {
  import opened Common
  import opened Transfers
  import W = World

  datatype JobStatus = JobPending | JobQueued | JobProcessing | JobCompleted | JobPartiallyFailed | JobFailed
  datatype ItemStatus = ItemPending | ItemProcessing | ItemCompleted | ItemFailed

  /** A 4xx answer that carries no transfer. */
  datatype Refusal = InvalidRequest | Conflict(rejection: W.Rejection)

  datatype ItemFailure = TransferFailed(reason: Option<Reason>) | RequestRefused(refusal: Refusal)

  datatype Item = Item(
    recipient: nat, amount: int, status: ItemStatus, token: Option<nat>, attempts: nat, transfer: Option<nat>,
    failure: Option<ItemFailure>)

  datatype Job = Job(
    employer: nat, source: nat, currency: Currency, status: JobStatus, totalItems: nat, totalAmount: int,
    completed: nat, failed: nat, items: seq<Item>)

  /** What one call to the transfer service told the worker. */
  datatype Outcome = Body(response: Response) | ClientError(refusal: Refusal)

  datatype Phase = Ready | Waiting(act: nat) | Heard(outcome: Outcome)

  /** One executeItem call and the item as its worker claimed it. */
  datatype Exec = Exec(job: nat, item: nat, token: nat, phase: Phase)

  /** A finalize call between its read and its write. */
  datatype Final = Final(job: nat, status: JobStatus)

  datatype State = State(
    world: W.World, jobs: seq<Job>, execs: map<nat, Exec>, starts: map<nat, nat>, finals: map<nat, Final>)

  const EMPTY := State(W.START, [], map[], map[], map[])

  // ----- sums -----

  function Amounts(items: seq<Item>): int {
    if items == [] then 0 else Amounts(items[..|items| - 1]) + items[|items| - 1].amount
  }

  function CompletedAmount(items: seq<Item>): int {
    if items == [] then 0 else
      CompletedAmount(items[..|items| - 1]) + if items[|items| - 1].status == ItemCompleted then items[|items| - 1].amount else 0
  }

  function CountOf(items: seq<Item>, s: ItemStatus): nat {
    if items == [] then 0 else CountOf(items[..|items| - 1], s) + if items[|items| - 1].status == s then 1 else 0
  }

  // ----- rows -----

  predicate JobTerminal(s: JobStatus) { s == JobCompleted || s == JobPartiallyFailed || s == JobFailed }

  predicate ItemTerminal(s: ItemStatus) { s == ItemCompleted || s == ItemFailed }

  predicate NewItem(i: Item) {
    i.amount > 0 && i.status == ItemPending && i.token.None? && i.attempts == 0 && i.transfer.None? && i.failure.None?
  }

  function NewJob(employer: nat, source: nat, currency: Currency, items: seq<Item>): Job {
    Job(employer, source, currency, JobPending, |items|, Amounts(items), 0, 0, items)
  }

  function ItemRequest(job: Job, item: Item): Request { DomesticRequest(job.source, item.recipient, item.amount, job.currency) }

  predicate Held(item: Item, token: nat) { item.status == ItemProcessing && item.token == Some(token) }

  /** The item row after a worker that claimed it under `token` has heard `outcome`. */
  function CheckpointItem(item: Item, token: nat, outcome: Outcome): Item {
    if !Held(item, token) then item else
      match outcome
      case Body(r) =>
        if r.status == Completed then item.(status := ItemCompleted, token := None, transfer := Some(r.transfer), failure := None)
        else if r.status == Failed || r.status == Status.Reversed
        then item.(status := ItemFailed, token := None, transfer := Some(r.transfer), failure := Some(TransferFailed(r.failure)))
        else item.(transfer := Some(r.transfer))
      case ClientError(c) => item.(status := ItemFailed, token := None, failure := Some(RequestRefused(c)))
  }

  /** The checkpoint transaction: the fenced item update and, if it hit, the counter in the same transaction. */
  function Checkpoint(job: Job, i: nat, token: nat, outcome: Outcome): Job
    requires i < |job.items|
  {
    var item := CheckpointItem(job.items[i], token, outcome);
    var hit := Held(job.items[i], token);
    job.(items := job.items[i := item],
         completed := job.completed + if hit && item.status == ItemCompleted then 1 else 0,
         failed := job.failed + if hit && item.status == ItemFailed then 1 else 0)
  }

  function FinalStatus(job: Job): JobStatus {
    if job.failed == 0 then JobCompleted else if job.completed == 0 then JobFailed else JobPartiallyFailed
  }

  // ----- events -----

  datatype Event =
    | Submit(employer: nat, source: nat, currency: Currency, items: seq<Item>)
    | Enqueue(job: nat)
    | StartRead(start: nat, job: nat)
    | StartWrite(start: nat)
    | Claim(exec: nat, job: nat, item: nat, token: nat)
    | Reclaim(exec: nat, job: nat, item: nat, token: nat)
    | Send(exec: nat, act: nat)
    | Receive(exec: nat, id: nat)
    | ReceiveInvalid(exec: nat)
    | CheckpointStep(exec: nat)
    | DropExec(exec: nat)
    | FinalizeRead(final: nat, job: nat)
    | FinalizeWrite(final: nat)
    | Elsewhere(event: W.Event)

  /** Only the payroll service sends payroll keys. */
  predicate ElsewhereAllowed(e: W.Event) { e.Arrive? ==> !e.key.PayrollKey? }

  predicate ItemAt(s: State, j: nat, i: nat) { j < |s.jobs| && i < |s.jobs[j].items| }

  /** The row under a new claim. */
  function Taken(item: Item, token: nat): Item {
    item.(status := ItemProcessing, token := Some(token), attempts := item.attempts + 1)
  }

  function TakeItem(s: State, x: nat, j: nat, i: nat, token: nat): State
    requires ItemAt(s, j, i)
  {
    var item := Taken(s.jobs[j].items[i], token);
    s.(jobs := s.jobs[j := s.jobs[j].(items := s.jobs[j].items[i := item])], execs := s.execs[x := Exec(j, i, token, Ready)])
  }

  function ArriveFor(s: State, x: Exec, act: nat): W.Event
    requires ItemAt(s, x.job, x.item)
  {
    W.Arrive(act, s.jobs[x.job].employer, PayrollKey(x.job, x.item), ItemRequest(s.jobs[x.job], s.jobs[x.job].items[x.item]))
  }

  /** What the activation that served the request has answered, if it has. */
  function AnswerOf(a: W.Activation): Option<Outcome> {
    match a
    case Replied(r) => Some(Body(r.body))
    case Rejected(r) => Some(ClientError(Conflict(r)))
    case _ => None
  }

  predicate Answering(s: State, x: nat, id: nat) {
    && x in s.execs && s.execs[x].phase.Waiting? && ItemAt(s, s.execs[x].job, s.execs[x].item)
    && id in s.world.cells && s.execs[x].phase.act in s.world.cells[id].acts
    && W.HasKey(s.world.cells[id], s.jobs[s.execs[x].job].employer, PayrollKey(s.execs[x].job, s.execs[x].item))
    && AnswerOf(s.world.cells[id].acts[s.execs[x].phase.act]).Some?
  }

  predicate RequestInvalid(s: State, x: nat) {
    && x in s.execs && s.execs[x].phase.Ready? && ItemAt(s, s.execs[x].job, s.execs[x].item)
    && !RequestAllowed(ItemRequest(s.jobs[s.execs[x].job], s.jobs[s.execs[x].job].items[s.execs[x].item]))
  }

  /** The step of the transfer machine that a payroll event takes, if any. */
  function WorldEvent(s: State, e: Event): Option<W.Event> {
    match e
    case Send(x, act) =>
      if x in s.execs && s.execs[x].phase.Ready? && ItemAt(s, s.execs[x].job, s.execs[x].item)
      then Some(ArriveFor(s, s.execs[x], act)) else None
    case Elsewhere(we) => if ElsewhereAllowed(we) then Some(we) else None
    case _ => None
  }

  ghost function NextWorld(s: State, e: Event): W.World
    requires |s.world.ledger.balances| == |s.world.ledger.accounts|
  {
    if WorldEvent(s, e).Some? then W.Next(s.world, WorldEvent(s, e).value) else s.world
  }

  /** The payroll tables and workers after an event. */
  function NextTables(s: State, e: Event): State {
    match e
    case Submit(employer, source, currency, items) =>
      if items != [] && forall i :: 0 <= i < |items| ==> NewItem(items[i])
      then s.(jobs := s.jobs + [NewJob(employer, source, currency, items)]) else s
    case Enqueue(j) =>
      if j < |s.jobs| && (s.jobs[j].status == JobPending || s.jobs[j].status == JobQueued)
      then s.(jobs := s.jobs[j := s.jobs[j].(status := JobQueued)]) else s
    case StartRead(p, j) => if j < |s.jobs| && !JobTerminal(s.jobs[j].status) then s.(starts := s.starts[p := j]) else s
    case StartWrite(p) =>
      if p in s.starts && s.starts[p] < |s.jobs|
      then s.(starts := s.starts - {p}, jobs := s.jobs[s.starts[p] := s.jobs[s.starts[p]].(status := JobProcessing)]) else s
    case Claim(x, j, i, token) =>
      if ItemAt(s, j, i) && s.jobs[j].items[i].status == ItemPending then TakeItem(s, x, j, i, token) else s
    case Reclaim(x, j, i, token) =>
      if ItemAt(s, j, i) && s.jobs[j].items[i].status == ItemProcessing then TakeItem(s, x, j, i, token) else s
    case Send(x, act) =>
      if WorldEvent(s, e).Some? then s.(execs := s.execs[x := s.execs[x].(phase := Waiting(act))]) else s
    case Receive(x, id) =>
      if Answering(s, x, id)
      then s.(execs := s.execs[x := s.execs[x].(phase := Heard(AnswerOf(s.world.cells[id].acts[s.execs[x].phase.act]).value))]) else s
    case ReceiveInvalid(x) =>
      if RequestInvalid(s, x) then s.(execs := s.execs[x := s.execs[x].(phase := Heard(ClientError(InvalidRequest)))]) else s
    case CheckpointStep(x) =>
      if x in s.execs && s.execs[x].phase.Heard? && ItemAt(s, s.execs[x].job, s.execs[x].item) then
        var e := s.execs[x];
        s.(execs := s.execs - {x}, jobs := s.jobs[e.job := Checkpoint(s.jobs[e.job], e.item, e.token, e.phase.outcome)])
      else s
    case DropExec(x) => s.(execs := s.execs - {x})
    case FinalizeRead(f, j) =>
      if j < |s.jobs| && s.jobs[j].completed + s.jobs[j].failed == s.jobs[j].totalItems
      then s.(finals := s.finals[f := Final(j, FinalStatus(s.jobs[j]))]) else s
    case FinalizeWrite(f) =>
      if f in s.finals && s.finals[f].job < |s.jobs|
      then s.(finals := s.finals - {f}, jobs := s.jobs[s.finals[f].job := s.jobs[s.finals[f].job].(status := s.finals[f].status)]) else s
    case Elsewhere(_) => s
  }

  ghost function Next(s: State, e: Event): State
    requires |s.world.ledger.balances| == |s.world.ledger.accounts|
  {
    NextTables(s, e).(world := NextWorld(s, e))
  }
}
