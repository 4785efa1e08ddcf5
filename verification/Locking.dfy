/**
 * The locks of the posting engine.  A poster locks its balances one at a time in ascending account order,
 * then waits on the unique keys of its posting while it holds them all, and starts over after a
 * serialization failure, three attempts in all.  Any number of posters run at once.
 */
module Locking {
  import opened Common
  import opened Order
  import Ledger

  datatype Resource = BalanceRow(account: nat) | ReferenceKey(reference: nat) | ReversalKey(original: nat)

  const MAX_ATTEMPTS := 3

  /** Balances before reference keys before reversal keys, each in ascending order. */
  predicate Before(a: Resource, b: Resource) {
    match a
    case BalanceRow(x) => !b.BalanceRow? || x < b.account
    case ReferenceKey(x) => b.ReversalKey? || (b.ReferenceKey? && x < b.reference)
    case ReversalKey(x) => b.ReversalKey? && x < b.original
  }

  predicate InOrder(plan: seq<Resource>) { forall i, j :: 0 <= i < j < |plan| ==> Before(plan[i], plan[j]) }

  function BalanceRows(ids: seq<nat>): seq<Resource> { seq(|ids|, i requires 0 <= i < |ids| => BalanceRow(ids[i])) }

  /** What one posting locks: the distinct accounts of its entries in order, its reference, and the posting it reverses. */
  function PlanOf(accounts: set<nat>, reference: nat, reverses: Option<nat>): seq<Resource> {
    BalanceRows(Sorted(accounts)) + [ReferenceKey(reference)] + if reverses.Some? then [ReversalKey(reverses.value)] else []
  }

  /** The plan of every posting follows the one global order. */
  lemma PlansAreInOrder(accounts: set<nat>, reference: nat, reverses: Option<nat>)
    ensures InOrder(PlanOf(accounts, reference, reverses))
  {
    SortedAscends(accounts);
  }

  /** What the transaction of a posting locks: its balances first, then its unique keys. */
  function PlanFor(r: Ledger.Resolved): seq<Resource> { PlanOf(Ledger.AccountsOf(r.entries), r.reference, r.reverses) }

  lemma {:induction false} RowsOf(ids: seq<nat>, r: Resource)
    ensures r in BalanceRows(ids) <==> r.BalanceRow? && r.account in ids
  {
    if r.BalanceRow? && r.account in ids {
      var i :| 0 <= i < |ids| && ids[i] == r.account;
      assert BalanceRows(ids)[i] == r;
    }
  }

  /** It is the balances of exactly the accounts of its entries, and exactly the keys its commit will take. */
  lemma {:induction false} PlanCovers(posting: Ledger.Resolved, r: Resource)
    ensures InOrder(PlanFor(posting))
    ensures r in PlanFor(posting) <==>
      match r
      case BalanceRow(a) => Ledger.Touches(posting.entries, a)
      case ReferenceKey(k) => k == posting.reference
      case ReversalKey(k) => posting.reverses == Some(k)
  {
    hide Sorted, Ledger.Touches, InOrder, BalanceRows;
    var accounts := Ledger.AccountsOf(posting.entries);
    PlansAreInOrder(accounts, posting.reference, posting.reverses);
    RowsOf(Sorted(accounts), r);
    InPlan(BalanceRows(Sorted(accounts)), posting.reference, posting.reverses, r);
  }

  lemma {:induction false} InPlan(rows: seq<Resource>, reference: nat, reverses: Option<nat>, r: Resource)
    ensures r in rows + [ReferenceKey(reference)] + (if reverses.Some? then [ReversalKey(reverses.value)] else [])
      <==> r in rows || r == ReferenceKey(reference) || (reverses.Some? && r == ReversalKey(reverses.value))
  {
  }

  datatype Poster = Poster(plan: seq<Resource>, held: nat, attempts: nat, done: bool)

  /** The posters, and the unique keys of what has been committed. */
  datatype State = State(posters: seq<Poster>, taken: set<Resource>)

  predicate PosterOk(p: Poster) { InOrder(p.plan) && p.held <= |p.plan| && (!p.done ==> p.attempts >= 1) }

  predicate StateOk(s: State) { forall i :: 0 <= i < |s.posters| ==> PosterOk(s.posters[i]) }

  predicate Holds(p: Poster, r: Resource) { !p.done && p.held <= |p.plan| && r in p.plan[..p.held] }

  predicate Free(s: State, i: nat, r: Resource) { forall k :: 0 <= k < |s.posters| && k != i ==> !Holds(s.posters[k], r) }

  datatype Step = Lock(poster: nat) | Violate(poster: nat) | Commit(poster: nat) | Abort(poster: nat) | GiveUp(poster: nat)

  predicate Running(s: State, i: nat) { i < |s.posters| && !s.posters[i].done }

  predicate Enabled(s: State, step: Step) {
    && Running(s, step.poster)
    && var p := s.posters[step.poster];
       match step
       case Lock(i) => p.held < |p.plan| && Free(s, i, p.plan[p.held]) && p.plan[p.held] !in s.taken
       case Violate(i) => p.held < |p.plan| && Free(s, i, p.plan[p.held]) && p.plan[p.held] in s.taken
       case Commit(_) => p.held == |p.plan|
       case Abort(_) => true
       case GiveUp(_) => true
  }

  function Keys(plan: seq<Resource>): set<Resource> { set r | r in plan && !r.BalanceRow? }

  function Finish(p: Poster): Poster { p.(done := true) }

  /** A serialization failure: everything is released, and the loop tries again at most three times. */
  function Restart(p: Poster): Poster {
    if p.attempts <= 1 then p.(done := true) else p.(held := 0, attempts := p.attempts - 1)
  }

  function Next(s: State, step: Step): State
    requires Enabled(s, step)
  {
    var i := step.poster;
    var p := s.posters[i];
    match step
    case Lock(_) => s.(posters := s.posters[i := p.(held := p.held + 1)])
    case Commit(_) => State(s.posters[i := Finish(p)], s.taken + Keys(p.plan))
    case Abort(_) => s.(posters := s.posters[i := Restart(p)])
    case _ => s.(posters := s.posters[i := Finish(p)])
  }

  lemma NextKeepsOk(s: State, step: Step)
    requires StateOk(s) && Enabled(s, step)
    ensures StateOk(Next(s, step))
  {
  }

  /** No lock has two holders, and no one holds a key that has been committed. */
  predicate Exclusive(s: State) {
    && (forall i, k :: 0 <= i < |s.posters| && 0 <= k < |s.posters| && i != k ==>
          forall n :: 0 <= n < s.posters[i].held && n < |s.posters[i].plan| && !s.posters[i].done ==>
            !Holds(s.posters[k], s.posters[i].plan[n]))
    && (forall i, n :: 0 <= i < |s.posters| && 0 <= n < s.posters[i].held && n < |s.posters[i].plan| && !s.posters[i].done ==>
          s.posters[i].plan[n] !in s.taken)
  }

  lemma NextKeepsExclusive(s: State, step: Step)
    requires StateOk(s) && Exclusive(s) && Enabled(s, step)
    ensures Exclusive(Next(s, step))
  {
    match step
    case Lock(i) => LockKeepsExclusive(s, i);
    case Commit(i) => CommitKeepsExclusive(s, i);
    case _ => ReleaseKeepsExclusive(s, step.poster, Next(s, step).posters[step.poster]);
  }

  lemma LockKeepsExclusive(s: State, i: nat)
    requires StateOk(s) && Exclusive(s) && Enabled(s, Lock(i))
    ensures Exclusive(Next(s, Lock(i)))
  {
    var p, s' := s.posters[i], Next(s, Lock(i));
    assert p.plan[..p.held + 1] == p.plan[..p.held] + [p.plan[p.held]];
    forall k, n | 0 <= k < |s.posters| && k != i && 0 <= n < s.posters[k].held && n < |s.posters[k].plan| && !s.posters[k].done
      ensures !Holds(s'.posters[i], s.posters[k].plan[n])
    {
      assert s.posters[k].plan[n] in s.posters[k].plan[..s.posters[k].held];
    }
  }

  /** A poster that lets go of all it holds. */
  lemma ReleaseKeepsExclusive(s: State, i: nat, p: Poster)
    requires Exclusive(s) && i < |s.posters| && (p.done || p.held == 0)
    ensures Exclusive(s.(posters := s.posters[i := p]))
  {
    assert forall r :: !Holds(p, r);
  }

  lemma CommitKeepsExclusive(s: State, i: nat)
    requires StateOk(s) && Exclusive(s) && Enabled(s, Commit(i))
    ensures Exclusive(Next(s, Commit(i)))
  {
    var p := s.posters[i];
    forall k, n | 0 <= k < |s.posters| && k != i && 0 <= n < s.posters[k].held && n < |s.posters[k].plan| && !s.posters[k].done
      ensures s.posters[k].plan[n] !in Keys(p.plan)
    {
      assert !Holds(p, s.posters[k].plan[n]);
      assert p.plan[..p.held] == p.plan;
    }
  }

  // ----- no deadlock -----

  predicate Waiting(s: State, i: nat) { Running(s, i) && s.posters[i].held < |s.posters[i].plan| }

  function Wanted(s: State, i: nat): Resource
    requires Waiting(s, i)
  {
    s.posters[i].plan[s.posters[i].held]
  }

  /** Poster `i` waits for a lock that poster `k` holds. */
  predicate WaitsFor(s: State, i: nat, k: nat) { Waiting(s, i) && k < |s.posters| && k != i && Holds(s.posters[k], Wanted(s, i)) }

  /** Whoever is waited for is past that resource, so it wants a later one or nothing more. */
  lemma WaitedForIsAhead(s: State, i: nat, k: nat)
    requires StateOk(s) && WaitsFor(s, i, k)
    ensures Running(s, k) && (Waiting(s, k) ==> Before(Wanted(s, i), Wanted(s, k)))
  {
    var q := s.posters[k];
    assert PosterOk(q);
    var n :| 0 <= n < q.held && q.plan[..q.held][n] == Wanted(s, i);
    assert q.plan[n] == Wanted(s, i);
  }

  /** A chain of posters, each waiting for the next, never closes into a cycle. */
  lemma {:induction false} NoWaitCycle(s: State, chain: seq<nat>)
    requires StateOk(s) && |chain| >= 2
    requires forall n :: 0 <= n < |chain| - 1 ==> WaitsFor(s, chain[n], chain[n + 1])
    ensures chain[0] != chain[|chain| - 1] && Waiting(s, chain[0])
    ensures Waiting(s, chain[|chain| - 1]) ==> Before(Wanted(s, chain[0]), Wanted(s, chain[|chain| - 1]))
    decreases |chain|
  {
    var m := |chain| - 2;
    WaitedForIsAhead(s, chain[m], chain[m + 1]);
    if |chain| > 2 {
      var shorter := chain[..m + 1];
      forall n | 0 <= n < |shorter| - 1 ensures WaitsFor(s, shorter[n], shorter[n + 1]) {
        assert WaitsFor(s, chain[n], chain[n + 1]);
      }
      NoWaitCycle(s, shorter);
      assert WaitsFor(s, chain[0], chain[1]);
    }
  }

  /** Among the first `n` posters, `i` waits for the resource that comes last. */
  predicate LastWaiter(s: State, i: nat, n: nat) {
    i < n && Waiting(s, i) && forall k :: 0 <= k < n && Waiting(s, k) ==> !Before(Wanted(s, i), Wanted(s, k))
  }

  lemma {:induction false} LastWaiterExists(s: State, n: nat)
    requires exists i :: 0 <= i < n && Waiting(s, i)
    ensures exists i :: 0 <= i < n && LastWaiter(s, i, n)
    decreases n
  {
    hide Waiting, Wanted;
    if exists i :: 0 <= i < n - 1 && Waiting(s, i) {
      LastWaiterExists(s, n - 1);
      var i :| 0 <= i < n - 1 && LastWaiter(s, i, n - 1);
      if Waiting(s, n - 1) && Before(Wanted(s, i), Wanted(s, n - 1)) {
        assert LastWaiter(s, n - 1, n);
      } else {
        assert LastWaiter(s, i, n);
      }
    } else {
      assert LastWaiter(s, n - 1, n);
    }
  }

  predicate Productive(step: Step) { step.Lock? || step.Violate? || step.Commit? }

  /** While any poster is running, some poster can lock, commit or be refused by a unique key: never a deadlock. */
  lemma NeverDeadlocked(s: State, i: nat)
    requires StateOk(s) && Running(s, i)
    ensures exists step :: Productive(step) && Enabled(s, step)
  {
    if exists k :: 0 <= k < |s.posters| && Running(s, k) && !Waiting(s, k) {
      var k :| 0 <= k < |s.posters| && Running(s, k) && !Waiting(s, k);
      assert PosterOk(s.posters[k]);
      assert Enabled(s, Commit(k));
    } else {
      assert Waiting(s, i);
      LastWaiterExists(s, |s.posters|);
      var p :| 0 <= p < |s.posters| && LastWaiter(s, p, |s.posters|);
      forall k | 0 <= k < |s.posters| && k != p ensures !Holds(s.posters[k], Wanted(s, p)) {
        if WaitsFor(s, p, k) { WaitedForIsAhead(s, p, k); }
      }
      assert Free(s, p, Wanted(s, p));
      assert Enabled(s, if Wanted(s, p) in s.taken then Violate(p) else Lock(p));
    }
  }

  // ----- every schedule ends -----

  /** Locks and attempts a poster has left. */
  function Remaining(p: Poster): int { if p.done then 0 else p.attempts * (|p.plan| + 2) - p.held }

  function TotalRemaining(posters: seq<Poster>): int {
    if posters == [] then 0 else TotalRemaining(posters[..|posters| - 1]) + Remaining(posters[|posters| - 1])
  }

  lemma {:induction false} TotalUpdate(posters: seq<Poster>, i: nat, p: Poster)
    requires i < |posters|
    ensures TotalRemaining(posters[i := p]) == TotalRemaining(posters) - Remaining(posters[i]) + Remaining(p)
  {
    var n := |posters| - 1;
    if i == n {
      assert posters[i := p][..n] == posters[..n];
    } else {
      assert posters[i := p][..n] == posters[..n][i := p];
      TotalUpdate(posters[..n], i, p);
    }
  }

  lemma {:induction false} TotalIsNonNegative(posters: seq<Poster>)
    requires forall i :: 0 <= i < |posters| ==> PosterOk(posters[i])
    ensures TotalRemaining(posters) >= 0
  {
    if posters != [] {
      TotalIsNonNegative(posters[..|posters| - 1]);
      RemainingIsNonNegative(posters[|posters| - 1]);
    }
  }

  lemma RemainingIsNonNegative(p: Poster)
    requires PosterOk(p)
    ensures Remaining(p) >= 0 && (!p.done ==> Remaining(p) >= 2)
  {
    if !p.done { assert p.attempts * (|p.plan| + 2) >= 1 * (|p.plan| + 2); }
  }

  lemma RestartSpends(p: Poster)
    requires PosterOk(p) && !p.done
    ensures Remaining(Restart(p)) < Remaining(p)
  {
    RemainingIsNonNegative(p);
    if p.attempts > 1 { assert (p.attempts - 1) * (|p.plan| + 2) == p.attempts * (|p.plan| + 2) - (|p.plan| + 2); }
  }

  lemma StepSpends(s: State, step: Step)
    requires StateOk(s) && Enabled(s, step)
    ensures TotalRemaining(Next(s, step).posters) < TotalRemaining(s.posters)
  {
    hide TotalRemaining, InOrder, Restart, Free;
    var i := step.poster;
    var p := s.posters[i];
    assert PosterOk(p);
    RemainingIsNonNegative(p);
    RestartSpends(p);
    TotalUpdate(s.posters, i, Next(s, step).posters[i]);
  }

  ghost predicate Schedule(s: State, steps: seq<Step>)
    decreases |steps|
  {
    steps == [] || (Enabled(s, steps[0]) && Schedule(Next(s, steps[0]), steps[1..]))
  }

  /** No schedule is longer than the locks and attempts its posters have left. */
  lemma {:induction false} SchedulesEnd(s: State, steps: seq<Step>)
    requires StateOk(s) && Schedule(s, steps)
    ensures |steps| <= TotalRemaining(s.posters)
    decreases |steps|
  {
    if steps == [] {
      TotalIsNonNegative(s.posters);
    } else {
      StepSpends(s, steps[0]);
      NextKeepsOk(s, steps[0]);
      SchedulesEnd(Next(s, steps[0]), steps[1..]);
    }
  }

  predicate Fresh(p: Poster) { p.held == 0 && p.attempts == MAX_ATTEMPTS && !p.done }

  function TotalLocks(posters: seq<Poster>): nat {
    if posters == [] then 0 else TotalLocks(posters[..|posters| - 1]) + |posters[|posters| - 1].plan|
  }

  lemma {:induction false} FreshTotal(posters: seq<Poster>)
    requires forall i :: 0 <= i < |posters| ==> Fresh(posters[i])
    ensures TotalRemaining(posters) == MAX_ATTEMPTS * (TotalLocks(posters) + 2 * |posters|)
  {
    if posters != [] { FreshTotal(posters[..|posters| - 1]); }
  }

  /** Posters that all start with three attempts finish within three times their locks and two more steps each. */
  lemma {:induction false} FreshSchedulesEnd(s: State, steps: seq<Step>)
    requires StateOk(s) && Schedule(s, steps) && forall i :: 0 <= i < |s.posters| ==> Fresh(s.posters[i])
    ensures |steps| <= MAX_ATTEMPTS * (TotalLocks(s.posters) + 2 * |s.posters|)
  {
    SchedulesEnd(s, steps);
    FreshTotal(s.posters);
  }

  // ----- locks over whole schedules -----

  ghost function After(s: State, steps: seq<Step>): State
    requires Schedule(s, steps)
    decreases |steps|
  {
    if steps == [] then s else After(Next(s, steps[0]), steps[1..])
  }

  /**
   * From posters that hold nothing yet, every schedule keeps each lock with one holder and every committed key free
   * of holders, so no commit ever takes a key that another has taken.
   */
  lemma {:induction false} SchedulesExclusive(s: State, steps: seq<Step>)
    requires StateOk(s) && Schedule(s, steps) && forall i :: 0 <= i < |s.posters| ==> Fresh(s.posters[i])
    ensures StateOk(After(s, steps)) && Exclusive(After(s, steps))
    ensures forall i: nat :: Enabled(After(s, steps), Commit(i)) ==> Keys(After(s, steps).posters[i].plan) !! After(s, steps).taken
  {
    ScheduleKeeps(s, steps);
    forall i: nat | Enabled(After(s, steps), Commit(i)) ensures Keys(After(s, steps).posters[i].plan) !! After(s, steps).taken {
      CommitTakesFree(After(s, steps), i);
    }
  }

  lemma {:induction false} ScheduleKeeps(s: State, steps: seq<Step>)
    requires StateOk(s) && Exclusive(s) && Schedule(s, steps)
    ensures StateOk(After(s, steps)) && Exclusive(After(s, steps))
    decreases |steps|
  {
    hide Exclusive, Enabled;
    if steps != [] {
      NextKeepsOk(s, steps[0]);
      NextKeepsExclusive(s, steps[0]);
      ScheduleKeeps(Next(s, steps[0]), steps[1..]);
    }
  }

  lemma CommitTakesFree(s: State, i: nat)
    requires Exclusive(s) && Enabled(s, Commit(i))
    ensures Keys(s.posters[i].plan) !! s.taken
  {
    var p := s.posters[i];
    forall r | r in Keys(p.plan) ensures r !in s.taken {
      var n :| 0 <= n < |p.plan| && p.plan[n] == r;
      assert p.plan[n] !in s.taken;
    }
  }
}
