/**
 * Submitting a payroll job: the command is checked and brought into a canonical order, so that a resubmission
 * under the same key is recognised whatever order its items come in, and one key never makes two jobs.
 */
module PayrollSubmit {
  import opened Common
  import P = Payroll

  /** External ids are compared by code units; an id is its rank in that order. */
  datatype Line = Line(externalId: nat, recipient: nat, amount: int)

  datatype Command = Command(source: nat, currency: nat, lines: seq<Line>)

  datatype Failure =
    | TooLarge | DuplicateItem | InvalidAmount | WalletRefused | PayloadMismatch | KeyExpired | QueueUnavailable | DatabaseError

  const MAX_ITEMS := 15_000
  const REPLAY_WINDOW_MS := 24 * 60 * 60 * 1_000

  // ----- checking -----

  predicate HasId(lines: seq<Line>, id: nat) { exists i :: 0 <= i < |lines| && lines[i].externalId == id }

  /** The first problem met from left to right; a zero amount passes here, because the test is one of sign. */
  function Problem(lines: seq<Line>): Option<Failure> {
    if lines == [] then None else
      var before, last := lines[..|lines| - 1], lines[|lines| - 1];
      if Problem(before).Some? then Problem(before)
      else if HasId(before, last.externalId) then Some(DuplicateItem)
      else if last.amount < 0 then Some(InvalidAmount)
      else None
  }

  predicate UniqueIds(lines: seq<Line>) { forall i, j :: 0 <= i < j < |lines| ==> lines[i].externalId != lines[j].externalId }

  lemma {:induction false} ProblemPrefix(lines: seq<Line>, n: nat)
    requires n <= |lines| && Problem(lines[..n]).Some?
    ensures Problem(lines) == Problem(lines[..n])
    decreases |lines|
  {
    if n == |lines| {
      assert lines[..n] == lines;
    } else {
      assert lines[..|lines| - 1][..n] == lines[..n];
      ProblemPrefix(lines[..|lines| - 1], n);
    }
  }

  lemma {:induction false} NoProblemIff(lines: seq<Line>)
    ensures Problem(lines).None? <==> UniqueIds(lines) && forall i :: 0 <= i < |lines| ==> lines[i].amount >= 0
  {
    if lines != [] {
      var before := lines[..|lines| - 1];
      NoProblemIff(before);
      assert forall i :: 0 <= i < |before| ==> before[i] == lines[i];
      if Problem(lines).None? { assert forall i :: 0 <= i < |before| ==> before[i].externalId != lines[|lines| - 1].externalId; }
    }
  }

  /** The line that stops the check: all before it are fine, and it repeats an id, or else its amount is negative. */
  predicate StopsAt(lines: seq<Line>, n: nat, f: Failure) {
    && n < |lines| && UniqueIds(lines[..n]) && (forall i :: 0 <= i < n ==> lines[i].amount >= 0)
    && (if exists i :: 0 <= i < n && lines[i].externalId == lines[n].externalId then f == DuplicateItem
        else lines[n].amount < 0 && f == InvalidAmount)
  }

  lemma {:induction false} ProblemStops(lines: seq<Line>)
    requires Problem(lines).Some?
    ensures exists n: nat :: StopsAt(lines, n, Problem(lines).value)
  {
    var n := |lines| - 1;
    var before := lines[..n];
    if Problem(before).Some? {
      ProblemStops(before);
      var m: nat :| StopsAt(before, m, Problem(before).value);
      assert before[..m] == lines[..m];
      assert StopsAt(lines, m, Problem(lines).value);
    } else {
      NoProblemIff(before);
      assert forall i :: 0 <= i < n ==> before[i] == lines[i];
      assert StopsAt(lines, n, Problem(lines).value);
    }
  }

  // ----- the canonical order -----

  function Insert(l: Line, sorted: seq<Line>): seq<Line> {
    if sorted == [] || l.externalId <= sorted[0].externalId then [l] + sorted else [sorted[0]] + Insert(l, sorted[1..])
  }

  /** [...items].sort(compareItems) */
  function SortLines(lines: seq<Line>): seq<Line> {
    if lines == [] then [] else Insert(lines[0], SortLines(lines[1..]))
  }

  predicate Ascending(lines: seq<Line>) { forall i, j :: 0 <= i < j < |lines| ==> lines[i].externalId < lines[j].externalId }

  lemma {:induction false} InsertElements(l: Line, sorted: seq<Line>)
    ensures multiset(Insert(l, sorted)) == multiset(sorted) + multiset{l}
    ensures forall r :: r in Insert(l, sorted) <==> r == l || r in sorted
  {
    if sorted != [] && l.externalId > sorted[0].externalId {
      assert sorted == [sorted[0]] + sorted[1..];
      InsertElements(l, sorted[1..]);
    }
  }

  lemma {:induction false} InsertKeeps(l: Line, sorted: seq<Line>)
    requires Ascending(sorted) && forall i :: 0 <= i < |sorted| ==> sorted[i].externalId != l.externalId
    ensures Ascending(Insert(l, sorted))
  {
    if sorted != [] && l.externalId > sorted[0].externalId {
      InsertKeeps(l, sorted[1..]);
      InsertElements(l, sorted[1..]);
      Lead(sorted[0], Insert(l, sorted[1..]));
    }
  }

  lemma {:induction false} Lead(first: Line, rest: seq<Line>)
    requires Ascending(rest) && forall r :: r in rest ==> first.externalId < r.externalId
    ensures Ascending([first] + rest)
  {
    forall i, j | 0 <= i < j < |[first] + rest| ensures ([first] + rest)[i].externalId < ([first] + rest)[j].externalId {
      assert ([first] + rest)[j] == rest[j - 1] && rest[j - 1] in rest;
    }
  }

  lemma {:induction false} SortedIs(lines: seq<Line>)
    requires UniqueIds(lines)
    ensures Ascending(SortLines(lines)) && multiset(SortLines(lines)) == multiset(lines)
  {
    if lines != [] {
      assert lines == [lines[0]] + lines[1..];
      SortedIs(lines[1..]);
      forall i | 0 <= i < |SortLines(lines[1..])| ensures SortLines(lines[1..])[i].externalId != lines[0].externalId {
        assert SortLines(lines[1..])[i] in multiset(lines[1..]);
        var k :| 0 <= k < |lines[1..]| && lines[1..][k] == SortLines(lines[1..])[i];
        assert lines[k + 1].externalId != lines[0].externalId;
      }
      InsertKeeps(lines[0], SortLines(lines[1..]));
      InsertElements(lines[0], SortLines(lines[1..]));
    }
  }

  /** Two ascending lists of the same lines are the same list. */
  lemma {:induction false} AscendingUnique(a: seq<Line>, b: seq<Line>)
    requires Ascending(a) && Ascending(b) && multiset(a) == multiset(b)
    ensures a == b
    decreases |a|
  {
    assert |multiset(a)| == |a| && |multiset(b)| == |b|;
    if a != [] {
      SameFirst(a, b);
      assert a == [a[0]] + a[1..] && b == [b[0]] + b[1..];
      assert multiset(a[1..]) == multiset(a) - multiset{a[0]} == multiset(b[1..]);
      AscendingUnique(a[1..], b[1..]);
    }
  }

  lemma {:induction false} SameFirst(a: seq<Line>, b: seq<Line>)
    requires Ascending(a) && Ascending(b) && multiset(a) == multiset(b) && a != [] && b != []
    ensures a[0] == b[0]
  {
    assert a[0] in multiset(b) && b[0] in multiset(a);
    FirstIsLeast(a, b[0]);
    FirstIsLeast(b, a[0]);
  }

  lemma {:induction false} FirstIsLeast(a: seq<Line>, x: Line)
    requires Ascending(a) && x in a
    ensures a[0].externalId <= x.externalId && (a[0].externalId == x.externalId ==> a[0] == x)
  {
    var i :| 0 <= i < |a| && a[i] == x;
  }

  /** The hash of a command: its canonical form. */
  function Canonical(c: Command): Command { c.(lines := SortLines(c.lines)) }

  /** Accepted commands have the same hash exactly when they ask for the same lines, in whatever order. */
  lemma HashIgnoresOrder(a: Command, b: Command)
    requires UniqueIds(a.lines) && UniqueIds(b.lines)
    ensures Canonical(a) == Canonical(b) <==> a.source == b.source && a.currency == b.currency && multiset(a.lines) == multiset(b.lines)
  {
    SortedIs(a.lines);
    SortedIs(b.lines);
    if multiset(a.lines) == multiset(b.lines) { AscendingUnique(SortLines(a.lines), SortLines(b.lines)); }
  }

  // ----- submitting -----

  function ItemOf(l: Line): P.Item { P.Item(l.recipient, l.amount, P.ItemPending, None, 0, None, None) }

  function ItemsOf(lines: seq<Line>): (items: seq<P.Item>)
    ensures |items| == |lines| && forall i :: 0 <= i < |items| ==> items[i] == ItemOf(lines[i])
  {
    seq(|lines|, i requires 0 <= i < |lines| => ItemOf(lines[i]))
  }

  datatype Slot = Slot(employer: nat, key: nat)

  datatype Record = Record(hash: Command, job: nat, replayExpiresAt: int)

  /** normalizeCommand: size, then one pass with the ids seen so far, then a sorted copy. */
  method NormalizeCommand(c: Command) returns (r: Result<Command, Failure>)
    ensures r == if Refusal(c).Some? then Err(Refusal(c).value) else Ok(Canonical(c))
  {
    if |c.lines| > MAX_ITEMS { return Err(TooLarge); }
    var seen: set<nat> := {};
    var n := 0;
    while n < |c.lines|
      invariant 0 <= n <= |c.lines| && Problem(c.lines[..n]).None?
      invariant forall id :: id in seen <==> HasId(c.lines[..n], id)
    {
      var line := c.lines[n];
      var longer := c.lines[..n + 1];
      assert longer[..n] == c.lines[..n] && longer[n] == line;
      if line.externalId in seen {
        ProblemPrefix(c.lines, n + 1);
        return Err(DuplicateItem);
      }
      if line.amount < 0 {
        ProblemPrefix(c.lines, n + 1);
        return Err(InvalidAmount);
      }
      forall id ensures HasId(longer, id) <==> HasId(c.lines[..n], id) || id == line.externalId {
        if HasId(c.lines[..n], id) {
          var i :| 0 <= i < n && c.lines[..n][i].externalId == id;
          assert longer[i].externalId == id;
        }
      }
      seen := seen + {line.externalId};
      n := n + 1;
    }
    assert c.lines[..n] == c.lines;
    r := Ok(Canonical(c));
  }

  function Total(lines: seq<Line>): int {
    if lines == [] then 0 else Total(lines[..|lines| - 1]) + lines[|lines| - 1].amount
  }

  /** The CHECKs of a job and its items: at least one line, and every amount and the total positive and in range. */
  predicate RowsFit(lines: seq<Line>) {
    lines != [] && (forall i :: 0 <= i < |lines| ==> 0 < lines[i].amount < NUMERIC_LIMIT) && Total(lines) < NUMERIC_LIMIT
  }

  /** What normalizeCommand refuses. */
  function Refusal(c: Command): Option<Failure> { if |c.lines| > MAX_ITEMS then Some(TooLarge) else Problem(c.lines) }

  /** A replay: the payload first, then the window, then the job, enqueued again while it is PENDING; no other job changes. */
  predicate ReplayedAs(
    before: seq<P.Job>, after: seq<P.Job>, record: Record, hash: Command, queueUp: bool, now: int, r: Result<nat, Failure>)
    requires record.job < |before|
  {
    var j := record.job;
    if record.hash != hash then r == Err(PayloadMismatch) && after == before
    else if record.replayExpiresAt <= now then r == Err(KeyExpired) && after == before
    else if before[j].status != P.JobPending then r == Ok(j) && after == before
    else if queueUp then r == Ok(j) && after == before[j := before[j].(status := P.JobQueued)]
    else r == Err(QueueUnavailable) && after == before
  }

  /**
   * A creation: one new job after the others, with one PENDING item for each line, in their order and to their
   * recipients; it is QUEUED if the queue is up.
   */
  predicate CreatedAs(before: seq<P.Job>, after: seq<P.Job>, s: Slot, hash: Command, queueUp: bool, r: Result<nat, Failure>) {
    && |after| == |before| + 1 && after[..|before|] == before
    && r == (if queueUp then Ok(|before|) else Err(QueueUnavailable))
    && var job := after[|before|];
       && job.employer == s.employer && job.source == hash.source && job.currency == hash.currency
       && job.status == (if queueUp then P.JobQueued else P.JobPending)
       && job.totalItems == |hash.lines| && job.totalAmount == Total(hash.lines) && job.completed == 0 && job.failed == 0
       && |job.items| == |hash.lines|
       && forall i :: 0 <= i < |job.items| ==>
            && job.items[i].recipient == hash.lines[i].recipient && job.items[i].amount == hash.lines[i].amount
            && job.items[i].status == P.ItemPending && job.items[i].token.None? && job.items[i].attempts == 0
            && job.items[i].transfer.None? && job.items[i].failure.None?
  }

  lemma {:induction false} ItemsTotal(lines: seq<Line>)
    ensures P.Amounts(ItemsOf(lines)) == Total(lines)
  {
    if lines != [] {
      assert ItemsOf(lines)[..|lines| - 1] == ItemsOf(lines[..|lines| - 1]);
      ItemsTotal(lines[..|lines| - 1]);
    }
  }

  class PayrollDesk {
    var jobs: seq<P.Job>
    var records: map<Slot, Record>

    constructor ()
      ensures Valid() && jobs == [] && records == map[]
    {
      jobs, records := [], map[];
    }

    /** One record per job: distinct keys name distinct jobs, each of its employer and with the lines that were hashed. */
    ghost predicate Valid() reads this {
      && (forall s :: s in records ==>
            && records[s].job < |jobs| && jobs[records[s].job].employer == s.employer
            && jobs[records[s].job].source == records[s].hash.source && jobs[records[s].job].currency == records[s].hash.currency
            && |jobs[records[s].job].items| == |records[s].hash.lines|)
      && (forall s, t :: s in records && t in records && records[s].job == records[t].job ==> s == t)
    }

    /** replay: the payload first, then the window, then the job, which is enqueued again while it is PENDING. */
    method Replay(s: Slot, hash: Command, queueUp: bool, now: int) returns (r: Result<nat, Failure>)
      requires Valid() && s in records
      modifies this`jobs
      ensures Valid() && ReplayedAs(old(jobs), jobs, records[s], hash, queueUp, now, r)
    {
      var record := records[s];
      if record.hash != hash { return Err(PayloadMismatch); }
      if record.replayExpiresAt <= now { return Err(KeyExpired); }
      if jobs[record.job].status == P.JobPending {
        var queued := EnsureEnqueued(record.job, queueUp);
        if !queued { return Err(QueueUnavailable); }
      }
      r := Ok(record.job);
    }

    /** ensureEnqueued: the status follows the queue; a job whose enqueueing failed stays as it is. */
    method EnsureEnqueued(j: nat, queueUp: bool) returns (queued: bool)
      requires Valid() && j < |jobs|
      modifies this`jobs
      ensures Valid() && queued == queueUp
      ensures jobs == if queueUp && (old(jobs)[j].status == P.JobPending || old(jobs)[j].status == P.JobQueued)
                      then old(jobs)[j := old(jobs)[j].(status := P.JobQueued)] else old(jobs)
    {
      queued := queueUp;
      if queued && (jobs[j].status == P.JobPending || jobs[j].status == P.JobQueued) {
        jobs := jobs[j := jobs[j].(status := P.JobQueued)];
      }
    }

    /**
     * The creating transaction, on whatever the tables have become since the key was looked up: the CHECKs on the
     * amounts come first, a key taken in between is answered by a replay of the job that won it, and only a new job
     * is enqueued.
     */
    method Create(s: Slot, hash: Command, queueUp: bool, now: int) returns (r: Result<nat, Failure>)
      requires Valid()
      modifies this
      ensures Valid()
      ensures !RowsFit(hash.lines) ==> r == Err(DatabaseError) && jobs == old(jobs) && records == old(records)
      ensures RowsFit(hash.lines) && s in old(records) ==>
        records == old(records) && ReplayedAs(old(jobs), jobs, records[s], hash, queueUp, now, r)
      ensures RowsFit(hash.lines) && s !in old(records) ==>
        && records == old(records)[s := Record(hash, |old(jobs)|, now + REPLAY_WINDOW_MS)]
        && CreatedAs(old(jobs), jobs, s, hash, queueUp, r)
    {
      if !RowsFit(hash.lines) { return Err(DatabaseError); }
      if s in records {
        r := Replay(s, hash, queueUp, now);
        return;
      }
      var j := |jobs|;
      ItemsTotal(hash.lines);
      jobs := jobs + [P.NewJob(s.employer, hash.source, hash.currency, ItemsOf(hash.lines))];
      records := records[s := Record(hash, j, now + REPLAY_WINDOW_MS)];
      var queued := EnsureEnqueued(j, queueUp);
      r := if queued then Ok(j) else Err(QueueUnavailable);
    }

    /** submit: under a used key it is a replay; otherwise the wallet is checked and the job is created. */
    method Submit(s: Slot, c: Command, walletOk: bool, queueUp: bool, now: int) returns (r: Result<nat, Failure>)
      requires Valid()
      modifies this
      ensures Valid()
      ensures Refusal(c).Some? ==> r == Err(Refusal(c).value) && jobs == old(jobs) && records == old(records)
      ensures Refusal(c).None? && s in old(records) ==>
        records == old(records) && ReplayedAs(old(jobs), jobs, records[s], Canonical(c), queueUp, now, r)
      ensures Refusal(c).None? && s !in old(records) && !(walletOk && RowsFit(c.lines)) ==>
        r == Err(if walletOk then DatabaseError else WalletRefused) && jobs == old(jobs) && records == old(records)
      ensures Refusal(c).None? ==> Ascending(Canonical(c).lines) && multiset(Canonical(c).lines) == multiset(c.lines)
      ensures Refusal(c).None? && s !in old(records) && walletOk && RowsFit(c.lines) ==>
        && records == old(records)[s := Record(Canonical(c), |old(jobs)|, now + REPLAY_WINDOW_MS)]
        && CreatedAs(old(jobs), jobs, s, Canonical(c), queueUp, r)
    {
      var normalized := NormalizeCommand(c);
      if normalized.Err? { return Err(normalized.error); }
      NoProblemIff(c.lines);
      SortedIs(c.lines);
      if s in records {
        r := Replay(s, normalized.value, queueUp, now);
        return;
      }
      if !walletOk { return Err(WalletRefused); }
      SameRows(c.lines, normalized.value.lines);
      r := Create(s, normalized.value, queueUp, now);
    }
  }

  lemma {:induction false} TotalOfConcat(a: seq<Line>, l: Line, b: seq<Line>)
    ensures Total(a + [l] + b) == Total(a + b) + l.amount
    decreases |b|
  {
    if b == [] {
      assert a + [l] + b == a + [l] && (a + [l])[..|a|] == a && a + b == a;
    } else {
      var n := |b| - 1;
      assert (a + [l] + b)[..|a| + 1 + n] == a + [l] + b[..n] && (a + b)[..|a| + n] == a + b[..n];
      TotalOfConcat(a, l, b[..n]);
    }
  }

  function Without(b: seq<Line>, k: nat): seq<Line>
    requires k < |b|
  {
    b[..k] + b[k + 1..]
  }

  lemma {:induction false} WithoutOne(b: seq<Line>, k: nat)
    requires k < |b|
    ensures multiset(Without(b, k)) == multiset(b) - multiset{b[k]} && |Without(b, k)| == |b| - 1
    ensures Total(b) == Total(Without(b, k)) + b[k].amount
  {
    hide Total;
    assert b == b[..k] + [b[k]] + b[k + 1..];
    TotalOfConcat(b[..k], b[k], b[k + 1..]);
  }

  /** The total does not depend on the order of the lines. */
  lemma {:induction false} TotalOfMultiset(a: seq<Line>, b: seq<Line>)
    requires multiset(a) == multiset(b)
    ensures Total(a) == Total(b)
    decreases |a|
  {
    assert |multiset(a)| == |a| && |multiset(b)| == |b|;
    if a != [] {
      hide Total, Without;
      assert a[0] in multiset(b);
      var k :| 0 <= k < |b| && b[k] == a[0];
      WithoutOne(a, 0);
      WithoutOne(b, k);
      TotalOfMultiset(Without(a, 0), Without(b, k));
    }
  }

  lemma {:induction false} SameRows(a: seq<Line>, b: seq<Line>)
    requires multiset(a) == multiset(b)
    ensures RowsFit(a) <==> RowsFit(b)
  {
    assert |multiset(a)| == |a| && |multiset(b)| == |b|;
    TotalOfMultiset(a, b);
    forall i | 0 <= i < |a| ensures a[i] in b { assert a[i] in multiset(b); }
    forall i | 0 <= i < |b| ensures b[i] in a { assert b[i] in multiset(a); }
  }
}
