/**
 * The worker's loop as it is written: reclaim what an earlier worker left PROCESSING, then claim
 * PENDING items in batches, execute them one by one, and finalize.  The rows are fields that the
 * methods update; the transfer service is a table of answers, one per item.
 */
module PayrollWorker {
  import opened Common
  import opened Payroll
  import opened PayrollInvariant
  import Transfers

  const ITEM_BATCH_SIZE := 100

  datatype WorkerError = LeaseBusy | LeaseLost | TransferNotTerminal | Upstream | ItemsNonterminal

  /** An item as this worker claimed it. */
  datatype ClaimedItem = ClaimedItem(item: nat, token: nat)

  /** What the transfer service answers for each item; None is a 5xx, a timeout or a lost connection. */
  type Answers = nat -> Option<Outcome>

  predicate Definite(o: Option<Outcome>) {
    o.Some? && (o.value.Body? ==> !Transfers.Open(o.value.response.status))
  }

  /** The row says what the service said. */
  predicate Settled(item: Item, o: Option<Outcome>) {
    Definite(o) &&
    match o.value
    case Body(r) =>
      && item.status == (if r.status == Transfers.Completed then ItemCompleted else ItemFailed)
      && item.transfer == Some(r.transfer)
    case ClientError(c) => item.status == ItemFailed && item.failure == Some(RequestRefused(c))
  }

  /** The first `limit` PENDING items from `from` on, in sequence order. */
  function FirstPending(items: seq<Item>, from: nat, limit: nat): (r: seq<nat>)
    requires from <= |items|
    ensures |r| <= limit
    ensures forall n :: 0 <= n < |r| ==> from <= r[n] < |items| && items[r[n]].status == ItemPending
    ensures forall n, m :: 0 <= n < m < |r| ==> r[n] < r[m]
    ensures r == [] && limit > 0 ==> forall i :: from <= i < |items| ==> items[i].status != ItemPending
    decreases |items| - from
  {
    if from == |items| || limit == 0 then []
    else if items[from].status == ItemPending then [from] + FirstPending(items, from + 1, limit - 1)
    else FirstPending(items, from + 1, limit)
  }

  /** No item is left in PROCESSING except those still held in `rest`. */
  predicate OnlyHeld(items: seq<Item>, rest: seq<ClaimedItem>) {
    && (forall n :: 0 <= n < |rest| ==> rest[n].item < |items| && Held(items[rest[n].item], rest[n].token))
    && (forall n, m :: 0 <= n < m < |rest| ==> rest[n].item < rest[m].item)
    && (forall i :: 0 <= i < |items| && items[i].status == ItemProcessing ==> exists n :: 0 <= n < |rest| && rest[n].item == i)
  }

  /** Terminal items are untouched, and whatever has become terminal is what the service said. */
  predicate Honest(items0: seq<Item>, items: seq<Item>, answers: Answers) {
    && |items| == |items0|
    && (forall i :: 0 <= i < |items| ==>
          && SameTerms(items0[i], items[i])
          && (ItemTerminal(items0[i].status) ==> items[i] == items0[i])
          && (!ItemTerminal(items0[i].status) && ItemTerminal(items[i].status) ==> Settled(items[i], answers(i))))
  }

  lemma {:induction false} HonestUpdate(items0: seq<Item>, items: seq<Item>, i: nat, item: Item, answers: Answers)
    requires Honest(items0, items, answers) && i < |items| && !ItemTerminal(items[i].status) && SameTerms(items[i], item)
    requires ItemTerminal(item.status) ==> Settled(item, answers(i))
    ensures Honest(items0, items[i := item], answers)
  {
  }

  predicate NoneProcessing(items: seq<Item>) { forall i :: 0 <= i < |items| ==> items[i].status != ItemProcessing }

  /** No call to the transfer service fails and the lease is never found lost. */
  ghost predicate Faultless(answers: Answers, leaseLost: nat -> bool) {
    (forall i :: Definite(answers(i))) && (forall k :: !leaseLost(k))
  }

  /** `job` is `start` with exactly these items claimed, in this order, under the tokens of `batch`. */
  predicate ClaimedFrom(start: Job, job: Job, batch: seq<ClaimedItem>, items: seq<nat>) {
    && SameJob(start, job) && job == start.(items := job.items) && |batch| == |items|
    && (forall n :: 0 <= n < |items| ==> batch[n].item == items[n] < |job.items|)
    && (forall i :: 0 <= i < |job.items| && i !in items ==> job.items[i] == start.items[i])
    && (forall n :: 0 <= n < |items| ==> start.items[items[n]].status == ItemPending
                                         && job.items[items[n]] == Taken(start.items[items[n]], batch[n].token))
  }

  /** Every token on the rows was handed out before `next`. */
  predicate TokensBelow(items: seq<Item>, next: nat) {
    forall i :: 0 <= i < |items| && items[i].token.Some? ==> items[i].token.value < next
  }

  function TokenBound(items: seq<Item>): (next: nat)
    ensures TokensBelow(items, next)
  {
    if items == [] then 0 else
      var next := TokenBound(items[..|items| - 1]);
      var last := items[|items| - 1].token;
      assert forall i :: 0 <= i < |items| - 1 ==> items[i] == items[..|items| - 1][i];
      if last.Some? && last.value >= next then last.value + 1 else next
  }

  /** The tokens of a batch are distinct and were on no row before. */
  predicate NewTokens(items: seq<Item>, batch: seq<ClaimedItem>) {
    && (forall n, m :: 0 <= n < m < |batch| ==> batch[n].token != batch[m].token)
    && (forall n, i :: 0 <= n < |batch| && 0 <= i < |items| ==> items[i].token != Some(batch[n].token))
  }

  lemma {:induction false} NumberedTokensAreNew(items: seq<Item>, batch: seq<ClaimedItem>, next: nat)
    requires TokensBelow(items, next) && forall n :: 0 <= n < |batch| ==> batch[n].token == next + n
    ensures NewTokens(items, batch)
  {
  }

  class PayrollProcessor {
    var job: Job
    var polls: nat       // how often the renewal timer's flag has been read
    var nextToken: nat   // stands for randomUUID

    constructor (job: Job)
      ensures this.job == job && (JobOk(job) ==> Valid())
    {
      this.job := job;
      nextToken, polls := TokenBound(job.items), 0;
    }

    ghost predicate Valid() reads this { JobOk(job) && TokensBelow(job.items, nextToken) }

    /** The conditional update of one claim. */
    method Take(i: nat) returns (held: ClaimedItem)
      requires Valid() && i < |job.items| && !ItemTerminal(job.items[i].status)
      modifies this`job, this`nextToken
      ensures Valid() && held.item == i && held.token == old(nextToken) && nextToken == old(nextToken) + 1
      ensures job == old(job).(items := old(job.items)[i := Taken(old(job.items)[i], held.token)])
    {
      held := ClaimedItem(i, nextToken);
      nextToken := nextToken + 1;
      var item := Taken(job.items[i], held.token);
      AmountsUpdate(job.items, i, item);
      CountUpdate(job.items, i, item, ItemCompleted);
      CountUpdate(job.items, i, item, ItemFailed);
      job := job.(items := job.items[i := item]);
    }

    /** Claims the next batch: exactly the first PENDING items, in order, at most ITEM_BATCH_SIZE of them. */
    method ClaimPendingBatch() returns (batch: seq<ClaimedItem>)
      requires Valid() && forall i :: 0 <= i < |job.items| ==> job.items[i].status != ItemProcessing
      modifies this`job, this`nextToken
      ensures Valid() && OnlyHeld(job.items, batch) && ClaimedFrom(old(job), job, batch, FirstPending(old(job.items), 0, ITEM_BATCH_SIZE))
      ensures NewTokens(old(job.items), batch)
    {
      hide JobOk, FirstPending, NewTokens, TokensBelow, ClaimedFrom, OnlyHeld;
      var candidates := FirstPending(job.items, 0, ITEM_BATCH_SIZE);
      batch := [];
      var n := 0;
      NothingYet(job);
      while n < |candidates|
        invariant 0 <= n <= |candidates| && Valid() && OnlyHeld(job.items, batch)
        invariant ClaimedFrom(old(job), job, batch, candidates[..n])
        invariant |batch| == n && nextToken == old(nextToken) + n
        invariant forall m :: 0 <= m < n ==> batch[m].token == old(nextToken) + m
      {
        var i := candidates[n];
        assert i !in candidates[..n];
        ghost var before := job;
        StillPending(old(job), job, batch, candidates[..n], i);
        var held := Take(i);
        ClaimedMore(old(job), before, batch, candidates[..n], i, held.token);
        batch := batch + [held];
        assert candidates[..n] + [i] == candidates[..n + 1];
        n := n + 1;
      }
      assert candidates[..n] == candidates;
      NumberedTokensAreNew(old(job.items), batch, old(nextToken));
    }

    /** The checkpoint transaction of one item, or the error that stops the worker. */
    method ExecuteItem(held: ClaimedItem, answer: Option<Outcome>) returns (error: Option<WorkerError>)
      requires Valid() && held.item < |job.items|
      modifies this`job
      ensures Valid() && SameJob(old(job), job) && job.status == old(job.status)
      ensures job == if answer.None? then old(job) else Checkpoint(old(job), held.item, held.token, answer.value)
      ensures error.None? <==> Definite(answer)
      ensures error.None? && Held(old(job.items[held.item]), held.token) ==> Settled(job.items[held.item], answer)
    {
      match answer
      case None => error := Some(Upstream);
      case Some(o) =>
        CheckpointItemOnly(o, held);
        error := if o.Body? && Transfers.Open(o.response.status) then Some(TransferNotTerminal) else None;
    }

    method CheckpointItemOnly(o: Outcome, held: ClaimedItem)
      requires Valid() && held.item < |job.items|
      modifies this`job
      ensures Valid() && SameJob(old(job), job) && job == Checkpoint(old(job), held.item, held.token, o)
    {
      var i := held.item;
      var item := job.items[i];
      if item.status == ItemProcessing && item.token == Some(held.token) {
        var next := CheckpointItem(item, held.token, o);
        AmountsUpdate(job.items, i, next);
        CountUpdate(job.items, i, next, ItemCompleted);
        CountUpdate(job.items, i, next, ItemFailed);
        job := job.(items := job.items[i := next]);
        if next.status == ItemCompleted {
          job := job.(completed := job.completed + 1);
        } else if next.status == ItemFailed {
          job := job.(failed := job.failed + 1);
        }
      } else {
        assert job.items[i := item] == job.items;
      }
    }

    /** Executes the held items in order; stops at the first error or when the lease is found lost. */
    method ExecuteAll(batch: seq<ClaimedItem>, answers: Answers, leaseLost: nat -> bool, ghost items0: seq<Item>)
      returns (error: Option<WorkerError>)
      requires Valid() && OnlyHeld(job.items, batch) && Honest(items0, job.items, answers)
      modifies this`job, this`polls
      ensures Valid() && SameJob(old(job), job) && Honest(items0, job.items, answers)
      ensures error.None? ==> NoneProcessing(job.items) && CountOf(job.items, ItemPending) == CountOf(old(job.items), ItemPending)
      ensures Faultless(answers, leaseLost) ==> error.None?
    {
      hide JobOk, Honest, OnlyHeld, Settled;
      error := None;
      var n := 0;
      assert batch[0..] == batch;
      while n < |batch| && error.None?
        invariant 0 <= n <= |batch|
        invariant Valid() && SameJob(old(job), job) && Honest(items0, job.items, answers)
        invariant error.None? ==> OnlyHeld(job.items, batch[n..]) && CountOf(job.items, ItemPending) == CountOf(old(job.items), ItemPending)
        invariant Faultless(answers, leaseLost) ==> error.None?
        decreases if error.None? then |batch| - n else 0
      {
        polls := polls + 1;
        if leaseLost(polls - 1) {
          error := Some(LeaseLost);
        } else {
          ghost var before := job;
          HeldFirst(job.items, batch[n..]);
          error := ExecuteItem(batch[n], answers(batch[n].item));
          Executed(items0, before, job, batch[n..], answers, error.None?);
          assert batch[n + 1..] == batch[n..][1..];
          n := n + 1;
        }
      }
      if error.None? { NoneHeld(job.items, batch[n..]); }
    }

    /** Reclaims the items an earlier worker left PROCESSING and executes each of them. */
    method ReconcileClaimedItems(answers: Answers, ghost items0: seq<Item>) returns (error: Option<WorkerError>)
      requires Valid() && Honest(items0, job.items, answers)
      modifies this`job, this`nextToken
      ensures Valid() && SameJob(old(job), job) && Honest(items0, job.items, answers)
      ensures error.None? ==> NoneProcessing(job.items)
      ensures (forall i :: Definite(answers(i))) ==> error.None?
    {
      hide JobOk, Honest;
      error := None;
      var i := 0;
      while i < |job.items| && error.None?
        invariant 0 <= i <= |job.items|
        invariant Valid() && SameJob(old(job), job) && Honest(items0, job.items, answers)
        invariant error.None? ==> forall k :: 0 <= k < i ==> job.items[k].status != ItemProcessing
        invariant (forall k :: Definite(answers(k))) ==> error.None?
        decreases |job.items| - i
      {
        if job.items[i].status == ItemProcessing {
          ghost var before := job.items;
          var held := Take(i);
          HonestUpdate(items0, before, i, Taken(before[i], held.token), answers);
          ghost var taken := job.items;
          error := ExecuteItem(held, answers(i));
          HonestUpdate(items0, taken, i, job.items[i], answers);
          assert job.items == taken[i := job.items[i]];
        }
        i := i + 1;
      }
    }

    /** Reads the counters and writes the status they give, if they say that every item is terminal. */
    method Finalize() returns (error: Option<WorkerError>)
      requires Valid()
      modifies this`job
      ensures Valid() && error.None? <==> AllTerminal(old(job.items))
      ensures job == if error.None? then old(job).(status := FinalStatus(old(job))) else old(job)
    {
      CountsBound(job.items);
      if job.completed + job.failed != job.totalItems {
        error := Some(ItemsNonterminal);
      } else {
        error := None;
        job := job.(status :=
          if job.failed == 0 then JobCompleted else if job.completed == 0 then JobFailed else JobPartiallyFailed);
      }
    }

    /**
     * One run of a worker, from whatever rows it finds.  It always ends.  It never rewrites a terminal item, and
     * every item it settles carries what the service said.  Without faults it ends with every item terminal and
     * the job in its final status.
     */
    method Process(acquired: bool, answers: Answers, leaseLost: nat -> bool) returns (error: Option<WorkerError>)
      requires Valid()
      modifies this
      ensures Valid() && SameJob(old(job), job) && Honest(old(job.items), job.items, answers)
      ensures JobTerminal(old(job.status)) ==> error.None? && job == old(job)
      ensures !JobTerminal(old(job.status)) && !acquired ==> error == Some(LeaseBusy) && job == old(job)
      ensures error.None? && !JobTerminal(old(job.status)) ==>
        && AllTerminal(job.items) && job.status == FinalStatus(job)
        && (forall i :: 0 <= i < |job.items| && !ItemTerminal(old(job.items[i]).status) ==> Settled(job.items[i], answers(i)))
      ensures acquired && Faultless(answers, leaseLost) ==> error.None?
    {
      hide JobOk, Honest, OnlyHeld, Settled, FirstPending, ClaimedFrom;
      error := None;
      HonestStart(job.items, answers);
      if JobTerminal(job.status) { return; }
      if !acquired { return Some(LeaseBusy); }
      ghost var items0 := job.items;
      Reopened(job);
      job := job.(status := JobProcessing);
      error := ReconcileClaimedItems(answers, items0);
      if error.None? { error := Drain(answers, leaseLost, items0); }
      if error.None? {
        error := Finalize();
        HonestEnd(items0, job.items, answers);
      }
    }

    /** The batch loop; every turn that claims something leaves fewer PENDING items. */
    method Drain(answers: Answers, leaseLost: nat -> bool, ghost items0: seq<Item>) returns (error: Option<WorkerError>)
      requires Valid() && Honest(items0, job.items, answers) && NoneProcessing(job.items)
      modifies this
      ensures Valid() && SameJob(old(job), job) && Honest(items0, job.items, answers)
      ensures error.None? ==> AllTerminal(job.items)
      ensures Faultless(answers, leaseLost) ==> error.None?
    {
      hide JobOk, Honest, OnlyHeld, Settled, FirstPending, ClaimedFrom;
      error := None;
      var done := false;
      while !done && error.None?
        invariant Valid() && SameJob(old(job), job) && Honest(items0, job.items, answers)
        invariant error.None? ==> NoneProcessing(job.items)
        invariant error.None? && done ==> AllTerminal(job.items)
        invariant Faultless(answers, leaseLost) ==> error.None?
        decreases if error.None? then 1 else 0, CountOf(job.items, ItemPending), if done then 0 else 1
      {
        ghost var before := job;
        polls := polls + 1;
        if leaseLost(polls - 1) {
          error := Some(LeaseLost);
        } else {
          var batch := ClaimPendingBatch();
          BatchClaimed(items0, before, job, batch, answers);
          if |batch| == 0 {
            done := true;
          } else {
            error := ExecuteAll(batch, answers, leaseLost, items0);
          }
        }
      }
    }
  }

  // ----- proofs about batches -----

  lemma {:induction false} HonestStart(items: seq<Item>, answers: Answers)
    ensures Honest(items, items, answers)
  {
  }

  lemma {:induction false} HonestEnd(items0: seq<Item>, items: seq<Item>, answers: Answers)
    requires Honest(items0, items, answers) && AllTerminal(items)
    ensures |items| == |items0| && forall i :: 0 <= i < |items| && !ItemTerminal(items0[i].status) ==> Settled(items[i], answers(i))
  {
  }

  lemma Reopened(job: Job)
    requires JobOk(job)
    ensures JobOk(job.(status := JobProcessing)) && SameJob(job, job.(status := JobProcessing))
  {
  }

  lemma NothingYet(job: Job)
    requires NoneProcessing(job.items)
    ensures ClaimedFrom(job, job, [], []) && OnlyHeld(job.items, [])
  {
  }

  lemma StillPending(start: Job, job: Job, batch: seq<ClaimedItem>, items: seq<nat>, i: nat)
    requires ClaimedFrom(start, job, batch, items) && i !in items && i < |start.items| && start.items[i].status == ItemPending
    ensures |job.items| == |start.items| && job.items[i].status == ItemPending
  {
  }

  lemma {:induction false} ClaimedMore(start: Job, job: Job, batch: seq<ClaimedItem>, items: seq<nat>, i: nat, token: nat)
    requires ClaimedFrom(start, job, batch, items) && OnlyHeld(job.items, batch)
    requires i < |job.items| && i !in items && start.items[i].status == ItemPending
    requires forall n :: 0 <= n < |items| ==> items[n] < i
    ensures var job' := job.(items := job.items[i := Taken(job.items[i], token)]);
      && ClaimedFrom(start, job', batch + [ClaimedItem(i, token)], items + [i])
      && OnlyHeld(job'.items, batch + [ClaimedItem(i, token)])
  {
    var job' := job.(items := job.items[i := Taken(job.items[i], token)]);
    var batch' := batch + [ClaimedItem(i, token)];
    assert batch'[|batch|].item == i;
    forall k | 0 <= k < |job'.items| && job'.items[k].status == ItemProcessing
      ensures exists n :: 0 <= n < |batch'| && batch'[n].item == k
    {
      if k != i {
        var n :| 0 <= n < |batch| && batch[n].item == k;
        assert batch'[n].item == k;
      }
    }
    forall k | 0 <= k < |job.items| && k !in items + [i] ensures job'.items[k] == start.items[k] {
      assert i in items + [i];
      assert forall n :: n in items ==> n in items + [i];
    }
  }

  /** What one batch leaves to do: nothing was claimed and every item is terminal, or fewer items are PENDING. */
  lemma {:induction false} BatchClaimed(items0: seq<Item>, before: Job, after: Job, batch: seq<ClaimedItem>, answers: Answers)
    requires Honest(items0, before.items, answers) && NoneProcessing(before.items)
    requires ClaimedFrom(before, after, batch, FirstPending(before.items, 0, ITEM_BATCH_SIZE)) && OnlyHeld(after.items, batch)
    ensures SameJob(before, after) && Honest(items0, after.items, answers)
    ensures batch == [] ==> AllTerminal(after.items) && NoneProcessing(after.items) && after.items == before.items
    ensures batch != [] ==> CountOf(after.items, ItemPending) < CountOf(before.items, ItemPending)
  {
    hide Settled, Honest, FirstPending, OnlyHeld, ClaimedFrom, CountOf;
    var items := FirstPending(before.items, 0, ITEM_BATCH_SIZE);
    ClaimedIsHonest(items0, before, after, batch, items, answers);
    if batch == [] { NothingClaimed(before, after, items); } else { SomethingClaimed(before, after, batch, items); }
  }

  lemma {:induction false} ClaimedIsHonest(
    items0: seq<Item>, before: Job, after: Job, batch: seq<ClaimedItem>, items: seq<nat>, answers: Answers)
    requires Honest(items0, before.items, answers) && ClaimedFrom(before, after, batch, items)
    ensures SameJob(before, after) && Honest(items0, after.items, answers) && |batch| == |items|
  {
    hide Settled;
    forall i | 0 <= i < |after.items|
      ensures SameTerms(items0[i], after.items[i])
      ensures ItemTerminal(items0[i].status) ==> after.items[i] == items0[i]
      ensures !ItemTerminal(items0[i].status) && ItemTerminal(after.items[i].status) ==> Settled(after.items[i], answers(i))
    {
      if i in items {
        var n :| 0 <= n < |items| && items[n] == i;
        assert after.items[items[n]] == Taken(before.items[items[n]], batch[n].token);
      }
    }
  }

  lemma {:induction false} NothingClaimed(before: Job, after: Job, items: seq<nat>)
    requires ClaimedFrom(before, after, [], items) && NoneProcessing(before.items)
    requires items == [] ==> forall i :: 0 <= i < |before.items| ==> before.items[i].status != ItemPending
    ensures after.items == before.items && AllTerminal(after.items)
  {
    assert after.items == before.items;
  }

  lemma {:induction false} SomethingClaimed(before: Job, after: Job, batch: seq<ClaimedItem>, items: seq<nat>)
    requires ClaimedFrom(before, after, batch, items) && batch != []
    ensures CountOf(after.items, ItemPending) < CountOf(before.items, ItemPending)
  {
    assert after.items[items[0]] == Taken(before.items[items[0]], batch[0].token);
    forall k | 0 <= k < |after.items| && after.items[k].status == ItemPending ensures before.items[k].status == ItemPending {
      if k in items {
        var n :| 0 <= n < |items| && items[n] == k;
        assert after.items[items[n]] == Taken(before.items[items[n]], batch[n].token);
      }
    }
    FewerPending(before.items, after.items, items[0]);
  }

  lemma {:induction false} HeldFirst(items: seq<Item>, rest: seq<ClaimedItem>)
    requires OnlyHeld(items, rest) && rest != []
    ensures rest[0].item < |items| && Held(items[rest[0].item], rest[0].token)
  {
  }

  lemma {:induction false} NoneHeld(items: seq<Item>, rest: seq<ClaimedItem>)
    requires OnlyHeld(items, rest) && rest == []
    ensures NoneProcessing(items)
  {
  }

  lemma {:induction false} PendingMonotone(before: seq<Item>, after: seq<Item>)
    requires |after| == |before| && forall i :: 0 <= i < |after| && after[i].status == ItemPending ==> before[i].status == ItemPending
    ensures CountOf(after, ItemPending) <= CountOf(before, ItemPending)
  {
    if before != [] { PendingMonotone(before[..|before| - 1], after[..|after| - 1]); }
  }

  lemma {:induction false} FewerPending(before: seq<Item>, after: seq<Item>, i: nat)
    requires |after| == |before| && i < |before| && before[i].status == ItemPending && after[i].status != ItemPending
    requires forall k :: 0 <= k < |after| && after[k].status == ItemPending ==> before[k].status == ItemPending
    ensures CountOf(after, ItemPending) < CountOf(before, ItemPending)
  {
    CountUpdate(before, i, after[i], ItemPending);
    PendingMonotone(before[i := after[i]], after);
  }

  /** One execution settles the first held item and touches nothing else. */
  lemma {:induction false} Executed(items0: seq<Item>, before: Job, after: Job, rest: seq<ClaimedItem>, answers: Answers, settled: bool)
    requires Honest(items0, before.items, answers) && OnlyHeld(before.items, rest) && rest != []
    requires var o := answers(rest[0].item);
      && settled == Definite(o)
      && after == if o.None? then before else Checkpoint(before, rest[0].item, rest[0].token, o.value)
    ensures Honest(items0, after.items, answers)
    ensures settled ==> OnlyHeld(after.items, rest[1..]) && CountOf(after.items, ItemPending) == CountOf(before.items, ItemPending)
  {
    var i := rest[0].item;
    assert Held(before.items[i], rest[0].token);
    if answers(i).Some? {
      HonestUpdate(items0, before.items, i, after.items[i], answers);
      CountUpdate(before.items, i, after.items[i], ItemPending);
      assert after.items == before.items[i := after.items[i]];
    }
    if settled { StillHeld(before.items, after.items, rest); }
  }

  lemma {:induction false} StillHeld(before: seq<Item>, after: seq<Item>, rest: seq<ClaimedItem>)
    requires OnlyHeld(before, rest) && rest != [] && |after| == |before|
    requires after == before[rest[0].item := after[rest[0].item]] && after[rest[0].item].status != ItemProcessing
    ensures OnlyHeld(after, rest[1..])
  {
    forall k | 0 <= k < |after| && after[k].status == ItemProcessing
      ensures exists n :: 0 <= n < |rest[1..]| && rest[1..][n].item == k
    {
      var n :| 0 <= n < |rest| && rest[n].item == k;
      assert rest[1..][n - 1].item == k;
    }
  }
}
