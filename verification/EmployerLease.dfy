/** The employer lease: one timed key per employer, written only under the token that holds it. */
module EmployerLease {
  datatype Entry = Entry(token: nat, expiresAt: int)

  type Keys = map<nat, Entry>

  /** A key past its time to live no longer exists. */
  predicate Live(keys: Keys, employer: nat, now: int) { employer in keys && now < keys[employer].expiresAt }

  predicate HeldBy(keys: Keys, employer: nat, token: nat, now: int) { Live(keys, employer, now) && keys[employer].token == token }

  datatype Op =
    | Acquire(employer: nat, token: nat, ttl: nat)
    | Renew(employer: nat, token: nat, ttl: nat)
    | Release(employer: nat, token: nat)

  /** Set-if-absent, compare-and-extend, compare-and-delete. */
  function Apply(keys: Keys, op: Op, now: int): (Keys, bool) {
    match op
    case Acquire(e, t, ttl) =>
      if Live(keys, e, now) then (keys, false) else (keys[e := Entry(t, now + ttl)], true)
    case Renew(e, t, ttl) =>
      if HeldBy(keys, e, t, now) then (keys[e := Entry(t, now + ttl)], true) else (keys, false)
    case Release(e, t) =>
      if HeldBy(keys, e, t, now) then (keys - {e}, true) else (keys, false)
  }

  datatype Timed = Timed(op: Op, at: int)

  function Run(keys: Keys, ops: seq<Timed>): Keys {
    if ops == [] then keys else Apply(Run(keys, ops[..|ops| - 1]), ops[|ops| - 1].op, ops[|ops| - 1].at).0
  }

  predicate OwnRenewal(op: Op, employer: nat, token: nat) { op.Renew? && op.employer == employer && op.token == token }

  /** When the holder's lease ends: its latest renewal moves the end, nothing else does. */
  function Deadline(until: int, ops: seq<Timed>, employer: nat, token: nat): int {
    if ops == [] then until else
      var last := ops[|ops| - 1];
      if OwnRenewal(last.op, employer, token) then last.at + last.op.ttl else Deadline(until, ops[..|ops| - 1], employer, token)
  }

  lemma HolderStays(keys: Keys, op: Op, at: int, employer: nat, token: nat, until: int)
    requires employer in keys && keys[employer] == Entry(token, until) && at < until && op != Release(employer, token)
    ensures var (after, ok) := Apply(keys, op, at);
      && employer in after && after[employer] == Entry(token, if OwnRenewal(op, employer, token) then at + op.ttl else until)
      && (op.employer == employer ==> (ok <==> OwnRenewal(op, employer, token)))
  {
  }

  /** Every operation happens before the deadline the holder has by then, and the holder never releases. */
  predicate InTime(until: int, ops: seq<Timed>, employer: nat, token: nat) {
    forall k :: 0 <= k < |ops| ==> ops[k].at < Deadline(until, ops[..k], employer, token) && ops[k].op != Release(employer, token)
  }

  lemma {:induction false} InTimePrefix(until: int, ops: seq<Timed>, employer: nat, token: nat, n: nat)
    requires InTime(until, ops, employer, token) && n <= |ops|
    ensures InTime(until, ops[..n], employer, token)
  {
    hide Deadline;
    forall k | 0 <= k < n
      ensures ops[..n][k].at < Deadline(until, ops[..n][..k], employer, token) && ops[..n][k].op != Release(employer, token)
    {
      assert ops[..n][..k] == ops[..k];
    }
  }

  lemma {:induction false} HolderKeeps(keys: Keys, ops: seq<Timed>, employer: nat, token: nat, until: int)
    requires employer in keys && keys[employer] == Entry(token, until) && InTime(until, ops, employer, token)
    ensures employer in Run(keys, ops) && Run(keys, ops)[employer] == Entry(token, Deadline(until, ops, employer, token))
  {
    hide Apply;
    if ops != [] {
      var n := |ops| - 1;
      InTimePrefix(until, ops, employer, token, n);
      HolderKeeps(keys, ops[..n], employer, token, until);
      HolderStays(Run(keys, ops[..n]), ops[n].op, ops[n].at, employer, token, Deadline(until, ops[..n], employer, token));
    }
  }

  /**
   * While the holder keeps renewing in time and does not release, the lease stays with it whatever others do: its own
   * renewals are the only operations on the key that succeed.
   */
  lemma {:induction false} ExclusiveUntilDeadline(keys: Keys, ops: seq<Timed>, employer: nat, token: nat, until: int)
    requires employer in keys && keys[employer] == Entry(token, until) && InTime(until, ops, employer, token)
    ensures employer in Run(keys, ops) && Run(keys, ops)[employer] == Entry(token, Deadline(until, ops, employer, token))
    ensures forall k :: 0 <= k < |ops| && ops[k].op.employer == employer ==>
      (Apply(Run(keys, ops[..k]), ops[k].op, ops[k].at).1 <==> OwnRenewal(ops[k].op, employer, token))
  {
    hide Apply, Run, Deadline;
    HolderKeeps(keys, ops, employer, token, until);
    forall k | 0 <= k < |ops| && ops[k].op.employer == employer
      ensures Apply(Run(keys, ops[..k]), ops[k].op, ops[k].at).1 <==> OwnRenewal(ops[k].op, employer, token)
    {
      InTimePrefix(until, ops, employer, token, k);
      HolderKeeps(keys, ops[..k], employer, token, until);
      HolderStays(Run(keys, ops[..k]), ops[k].op, ops[k].at, employer, token, Deadline(until, ops[..k], employer, token));
    }
  }

  predicate Stored(keys: Keys, employer: nat, token: nat) { employer in keys && keys[employer].token == token }

  /** A token that is not stored comes back only by an acquire of its own. */
  lemma {:induction false} StaysUnstored(keys: Keys, ops: seq<Timed>, employer: nat, token: nat)
    requires !Stored(keys, employer, token)
    requires forall k :: 0 <= k < |ops| ==> !(ops[k].op.Acquire? && ops[k].op.employer == employer && ops[k].op.token == token)
    ensures !Stored(Run(keys, ops), employer, token)
  {
    if ops != [] { StaysUnstored(keys, ops[..|ops| - 1], employer, token); }
  }

  /**
   * A worker that has lost its lease finds out: once another token has been acquired, the old one, which is never
   * acquired again, holds at no later moment and every renewal or release under it fails.
   */
  lemma {:induction false} LostForGood(keys: Keys, taken: Timed, ops: seq<Timed>, employer: nat, token: nat, k: nat)
    requires taken.op.Acquire? && taken.op.employer == employer && taken.op.token != token && Apply(keys, taken.op, taken.at).1
    requires forall n :: 0 <= n < |ops| ==> !(ops[n].op.Acquire? && ops[n].op.employer == employer && ops[n].op.token == token)
    requires k <= |ops|
    ensures var later := Run(Apply(keys, taken.op, taken.at).0, ops[..k]);
      && (forall now :: !HeldBy(later, employer, token, now))
      && (k < |ops| && ops[k].op.employer == employer && ops[k].op.token == token ==> !Apply(later, ops[k].op, ops[k].at).1)
  {
    StaysUnstored(Apply(keys, taken.op, taken.at).0, ops[..k], employer, token);
  }

  class LeaseStore {
    var keys: Keys

    constructor ()
      ensures keys == map[]
    {
      keys := map[];
    }

    method Acquire(employer: nat, token: nat, ttl: nat, now: int) returns (ok: bool)
      modifies this
      ensures (keys, ok) == Apply(old(keys), Op.Acquire(employer, token, ttl), now)
      ensures ok <==> !Live(old(keys), employer, now)
      ensures ok && ttl > 0 ==> HeldBy(keys, employer, token, now)
    {
      if employer in keys && keys[employer].expiresAt <= now { keys := keys - {employer}; }
      ok := employer !in keys;
      if ok { keys := keys[employer := Entry(token, now + ttl)]; }
      else { assert keys == old(keys); }
      assert ok ==> keys == old(keys)[employer := Entry(token, now + ttl)];
    }

    method Renew(employer: nat, token: nat, ttl: nat, now: int) returns (ok: bool)
      modifies this
      ensures (keys, ok) == Apply(old(keys), Op.Renew(employer, token, ttl), now)
      ensures ok <==> HeldBy(old(keys), employer, token, now)
    {
      ok := employer in keys && now < keys[employer].expiresAt && keys[employer].token == token;
      if ok { keys := keys[employer := keys[employer].(expiresAt := now + ttl)]; }
    }

    method Release(employer: nat, token: nat, now: int) returns (ok: bool)
      modifies this
      ensures (keys, ok) == Apply(old(keys), Op.Release(employer, token), now)
      ensures ok ==> !Live(keys, employer, now)
      ensures !ok ==> keys == old(keys)
    {
      ok := employer in keys && now < keys[employer].expiresAt && keys[employer].token == token;
      if ok { keys := keys - {employer}; }
    }
  }
}
