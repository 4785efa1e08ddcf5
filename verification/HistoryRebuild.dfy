/**
 * The rebuild of the denormalised history: transfers in id order, a batch at a time, each one's rows
 * upserted and its stray rows deleted.  From any rows that respect the foreign key it ends with exactly
 * the rows that the definition of the projection asks for.
 */
module HistoryRebuild {
  import opened Common
  import opened Transfers
  import opened TransferStore
  import opened Order

  const MAX_BATCH := 2_000

  datatype Counts = Counts(scanned: nat, written: nat, removed: nat)

  /** The projection asks for this row. */
  predicate Wanted(transfers: map<nat, Transfer>, r: HistoryRef) {
    r.transfer in transfers && r.key in ExpectedRows(transfers[r.transfer])
  }

  /** The whole history is the union of the expected rows of all transfers. */
  ghost predicate IsProjection(transfers: map<nat, Transfer>, history: HistoryTable) {
    && (forall r :: r in history <==> Wanted(transfers, r))
    && (forall r :: r in history ==> history[r] == ExpectedRows(transfers[r.transfer])[r.key])
  }

  /** The rows of the given transfers that the projection does not ask for. */
  function Strays(transfers: map<nat, Transfer>, history: HistoryTable, ids: set<nat>): set<HistoryRef> {
    set r | r in history && r.transfer in ids && !Wanted(transfers, r)
  }

  function Keys(id: nat, rows: History): set<HistoryRef> { set k | k in rows :: HistoryRef(id, k) }

  /** The rows the projection asks for, of the given transfers. */
  function Due(transfers: map<nat, Transfer>, ids: set<nat>): set<HistoryRef>
    requires ids <= transfers.Keys
  {
    set id, k | id in ids && k in ExpectedRows(transfers[id]) :: HistoryRef(id, k)
  }

  lemma {:induction false} KeysCount(id: nat, rows: History)
    ensures |Keys(id, rows)| == |rows|
    decreases |rows|
  {
    if rows != map[] {
      var k :| k in rows;
      var rest := rows - {k};
      assert rows.Keys == rest.Keys + {k};
      KeysCount(id, rest);
      assert Keys(id, rows) == Keys(id, rest) + {HistoryRef(id, k)};
    }
  }

  lemma StraysGrow(transfers: map<nat, Transfer>, history: HistoryTable, ids: set<nat>, id: nat)
    requires id !in ids
    ensures |Strays(transfers, history, ids + {id})| == |Strays(transfers, history, ids)| + |Strays(transfers, history, {id})|
  {
    assert Strays(transfers, history, ids + {id}) == Strays(transfers, history, ids) + Strays(transfers, history, {id});
  }

  lemma DueGrows(transfers: map<nat, Transfer>, ids: set<nat>, id: nat)
    requires ids <= transfers.Keys && id in transfers && id !in ids
    ensures |Due(transfers, ids + {id})| == |Due(transfers, ids)| + |ExpectedRows(transfers[id])|
  {
    KeysCount(id, ExpectedRows(transfers[id]));
    assert Due(transfers, ids + {id}) == Due(transfers, ids) + Keys(id, ExpectedRows(transfers[id]));
  }

  /** Rows of `done` transfers are as the projection wants them, all others as they were. */
  ghost predicate Halfway(transfers: map<nat, Transfer>, before: HistoryTable, history: HistoryTable, done: set<nat>) {
    && (forall r :: r in history <==> if r.transfer in done then Wanted(transfers, r) else r in before)
    && (forall r :: r in history ==>
          history[r] == if r.transfer in done then ExpectedRows(transfers[r.transfer])[r.key] else before[r])
  }

  /** The next ids in order, at most `take` of them. */
  ghost predicate IsBatch(ids: set<nat>, after: Option<nat>, batch: seq<nat>, take: nat) {
    && |batch| <= take
    && (forall n :: 0 <= n < |batch| ==> batch[n] in ids && (after.Some? ==> after.value < batch[n]))
    && (forall n, m :: 0 <= n < m < |batch| ==> batch[n] < batch[m])
    && (forall i :: i in ids && (after.Some? ==> after.value < i) ==>
          i in batch || (|batch| == take && forall n :: 0 <= n < |batch| ==> batch[n] < i))
  }

  class HistoryProjection {
    var transfers: map<nat, Transfer>
    var history: HistoryTable

    /** The foreign key of the history table. */
    ghost predicate Valid() reads this { forall r :: r in history ==> r.transfer in transfers }

    constructor (transfers: map<nat, Transfer>, history: HistoryTable)
      requires forall r :: r in history ==> r.transfer in transfers
      ensures Valid() && this.transfers == transfers && this.history == history
    {
      this.transfers, this.history := transfers, history;
    }

    /** transfer.findMany: id greater than `after`, ascending, `take` rows. */
    method FindBatch(after: Option<nat>, take: nat) returns (batch: seq<nat>)
      ensures IsBatch(transfers.Keys, after, batch, take)
    {
      batch := [];
      var todo := set i | i in transfers && (after.Some? ==> after.value < i);
      var left := todo;
      while left != {} && |batch| < take
        invariant |batch| <= take && Split(todo, batch, left)
        decreases |left|
      {
        hide Split, IsLeast;
        LeastExists(left);
        var m :| m in left && IsLeast(left, m);
        SplitMore(todo, batch, left, m);
        batch := batch + [m];
        left := left - {m};
      }
      BatchIs(transfers.Keys, after, batch, take, todo, left);
    }

    /** One transfer: its rows upserted, its other rows deleted. */
    method Project(id: nat) returns (written: nat, removed: nat)
      requires Valid() && id in transfers
      modifies this`history
      ensures Valid() && Halfway(transfers, old(history), history, {id})
      ensures written == |ExpectedRows(transfers[id])|
      ensures removed == |Strays(transfers, old(history), {id})|
    {
      var rows := ExpectedRows(transfers[id]);
      ghost var before := history;
      written := 0;
      var left := rows.Keys;
      while left != {}
        invariant left <= rows.Keys && written + |left| == |rows.Keys|
        invariant forall r :: r in history <==> r in before || (r.transfer == id && r.key in rows && r.key !in left)
        invariant forall r :: r in history ==>
          history[r] == if r.transfer == id && r.key in rows && r.key !in left then rows[r.key] else before[r]
        decreases |left|
      {
        var k :| k in left;
        history := history[HistoryRef(id, k) := rows[k]];
        left := left - {k};
        written := written + 1;
      }
      var strays := set r | r in history && r.transfer == id && r.key !in rows;
      assert strays == Strays(transfers, before, {id});
      removed := |strays|;
      history := map r | r in history && r !in strays :: history[r];
    }

    /** The transaction of one batch, whose ids are new. */
    method ProjectBatch(batch: seq<nat>, ghost before: HistoryTable, ghost done: set<nat>) returns (counts: Counts)
      requires Valid() && done <= transfers.Keys && Halfway(transfers, before, history, done)
      requires forall n :: 0 <= n < |batch| ==> batch[n] in transfers && batch[n] !in done
      requires forall n, m :: 0 <= n < m < |batch| ==> batch[n] < batch[m]
      modifies this`history
      ensures Valid() && Halfway(transfers, before, history, done + Ids(batch))
      ensures Tally(transfers, before, done, counts, done + Ids(batch))
    {
      hide Halfway, Strays, Due, ExpectedRows, Ids, Tally;
      counts := Counts(0, 0, 0);
      var n := 0;
      NothingYet(transfers, before, done, batch);
      while n < |batch|
        invariant 0 <= n <= |batch| && Valid()
        invariant Halfway(transfers, before, history, done + Ids(batch[..n]))
        invariant Tally(transfers, before, done, counts, done + Ids(batch[..n]))
      {
        var id := batch[n];
        ghost var sofar := done + Ids(batch[..n]);
        ghost var middle := history;
        IdsMore(batch, n, done);
        var written, removed := Project(id);
        HalfwayMore(transfers, before, middle, history, sofar, id);
        TallyMore(transfers, before, done, counts, sofar, id, written, removed);
        counts := Counts(counts.scanned + 1, counts.written + written, counts.removed + removed);
        n := n + 1;
      }
      assert batch[..n] == batch;
    }

    /** rebuild: any batch size within its bounds, any rows to start from. */
    method Rebuild(batchSize: nat) returns (r: Result<Counts, ()>)
      requires Valid()
      modifies this`history
      ensures r.Ok? <==> 1 <= batchSize <= MAX_BATCH
      ensures r.Err? ==> history == old(history)
      ensures r.Ok? ==> Valid() && IsProjection(transfers, history)
      ensures r.Ok? ==> r.value.scanned == |transfers.Keys| && r.value.written == |history|
                        && r.value.removed == |Strays(transfers, old(history), transfers.Keys)|
    {
      if batchSize < 1 || batchSize > MAX_BATCH { return Err(()); }
      var counts := Counts(0, 0, 0);
      var after: Option<nat> := None;
      ghost var done: set<nat> := {};
      var batch := FindBatch(after, batchSize);
      Untouched(transfers, history);
      while |batch| > 0
        invariant Valid() && done <= transfers.Keys && Halfway(transfers, old(history), history, done)
        invariant UpTo(transfers.Keys, done, after) && IsBatch(transfers.Keys, after, batch, batchSize)
        invariant Tally(transfers, old(history), {}, counts, done)
        decreases |transfers.Keys - done|
      {
        NextIds(transfers.Keys, done, after, batch, batchSize);
        var more := ProjectBatch(batch, old(history), done);
        TallySum(transfers, old(history), counts, more, done, done + Ids(batch));
        counts := Counts(counts.scanned + more.scanned, counts.written + more.written, counts.removed + more.removed);
        assert transfers.Keys - (done + Ids(batch)) <= transfers.Keys - done - {batch[0]};
        Shrinks(transfers.Keys - (done + Ids(batch)), transfers.Keys - done, batch[0]);
        done := done + Ids(batch);
        after := Some(batch[|batch| - 1]);
        batch := FindBatch(after, batchSize);
      }
      AllDone(transfers.Keys, done, after, batchSize);
      Finished(transfers, old(history), history, counts);
      r := Ok(counts);
    }
  }

  // ----- the proofs -----

  function Ids(batch: seq<nat>): set<nat> { set i | i in batch }

  /** The counts are exactly what happened between `from` and `to`. */
  ghost predicate Tally(transfers: map<nat, Transfer>, before: HistoryTable, from: set<nat>, counts: Counts, to: set<nat>) {
    && from <= transfers.Keys && to <= transfers.Keys
    && counts.scanned + |from| == |to|
    && counts.written + |Due(transfers, from)| == |Due(transfers, to)|
    && counts.removed + |Strays(transfers, before, from)| == |Strays(transfers, before, to)|
  }

  lemma {:induction false} NothingYet(transfers: map<nat, Transfer>, before: HistoryTable, done: set<nat>, batch: seq<nat>)
    requires done <= transfers.Keys
    ensures done + Ids(batch[..0]) == done && Tally(transfers, before, done, Counts(0, 0, 0), done)
  {
  }

  lemma {:induction false} IdsMore(batch: seq<nat>, n: nat, done: set<nat>)
    requires n < |batch| && batch[n] !in done && forall k, m :: 0 <= k < m < |batch| ==> batch[k] < batch[m]
    ensures batch[n] !in done + Ids(batch[..n]) && done + Ids(batch[..n]) + {batch[n]} == done + Ids(batch[..n + 1])
  {
    assert batch[..n + 1] == batch[..n] + [batch[n]];
  }

  /** The ids taken so far, in order, and those still to take, all beyond them. */
  predicate Split(todo: set<nat>, batch: seq<nat>, left: set<nat>) {
    && todo == Ids(batch) + left
    && (forall n, m :: 0 <= n < m < |batch| ==> batch[n] < batch[m])
    && (forall n, j :: 0 <= n < |batch| && j in left ==> batch[n] < j)
  }

  lemma {:induction false} SplitMore(todo: set<nat>, batch: seq<nat>, left: set<nat>, m: nat)
    requires Split(todo, batch, left) && m in left && IsLeast(left, m)
    ensures Split(todo, batch + [m], left - {m})
  {
    assert Ids(batch + [m]) == Ids(batch) + {m};
  }

  lemma {:induction false} BatchIs(ids: set<nat>, after: Option<nat>, batch: seq<nat>, take: nat, todo: set<nat>, left: set<nat>)
    requires todo == (set i | i in ids && (after.Some? ==> after.value < i)) && Split(todo, batch, left)
    requires |batch| <= take && (left == {} || |batch| == take)
    ensures IsBatch(ids, after, batch, take)
  {
    forall n | 0 <= n < |batch| ensures batch[n] in todo { assert batch[n] in Ids(batch); }
    forall i | i in ids && (after.Some? ==> after.value < i) && i !in batch
      ensures |batch| == take && forall n :: 0 <= n < |batch| ==> batch[n] < i
    {
      assert i in todo && i in left;
      forall n | 0 <= n < |batch| ensures batch[n] < i { assert batch[n] in batch; }
    }
  }

  lemma TallyMore(transfers: map<nat, Transfer>, before: HistoryTable, from: set<nat>, counts: Counts, sofar: set<nat>, id: nat,
                  written: nat, removed: nat)
    requires Tally(transfers, before, from, counts, sofar) && id in transfers && id !in sofar
    requires written == |ExpectedRows(transfers[id])| && removed == |Strays(transfers, before, {id})|
    ensures Tally(transfers, before, from, Counts(counts.scanned + 1, counts.written + written, counts.removed + removed), sofar + {id})
  {
    hide ExpectedRows;
    StraysGrow(transfers, before, sofar, id);
    DueGrows(transfers, sofar, id);
  }

  lemma TallySum(transfers: map<nat, Transfer>, before: HistoryTable, a: Counts, b: Counts, middle: set<nat>, to: set<nat>)
    requires Tally(transfers, before, {}, a, middle) && Tally(transfers, before, middle, b, to)
    ensures Tally(transfers, before, {}, Counts(a.scanned + b.scanned, a.written + b.written, a.removed + b.removed), to)
  {
  }

  lemma Untouched(transfers: map<nat, Transfer>, history: HistoryTable)
    ensures Halfway(transfers, history, history, {}) && Tally(transfers, history, {}, Counts(0, 0, 0), {})
  {
  }

  /** Another transfer is done; its strays were still the ones it had at the start. */
  lemma HalfwayMore(transfers: map<nat, Transfer>, before: HistoryTable, middle: HistoryTable, after: HistoryTable, done: set<nat>, id: nat)
    requires Halfway(transfers, before, middle, done) && id !in done && Halfway(transfers, middle, after, {id})
    ensures Halfway(transfers, before, after, done + {id})
    ensures Strays(transfers, middle, {id}) == Strays(transfers, before, {id})
  {
    hide ExpectedRows;
  }

  /** Everything up to the cursor is done, and nothing beyond it. */
  predicate UpTo(ids: set<nat>, done: set<nat>, after: Option<nat>) {
    forall i :: i in ids ==> (i in done <==> after.Some? && i <= after.value)
  }

  lemma {:induction false} NextIds(ids: set<nat>, done: set<nat>, after: Option<nat>, batch: seq<nat>, take: nat)
    requires UpTo(ids, done, after) && IsBatch(ids, after, batch, take) && batch != []
    ensures forall n :: 0 <= n < |batch| ==> batch[n] !in done
    ensures UpTo(ids, done + Ids(batch), Some(batch[|batch| - 1]))
  {
    var last := batch[|batch| - 1];
    forall n | 0 <= n < |batch| ensures batch[n] <= last {
      if n < |batch| - 1 { assert batch[n] < batch[|batch| - 1]; }
    }
    assert last in batch;
    forall i | i in ids ensures i in done + Ids(batch) <==> i <= last {
      assert i !in done && i !in batch ==> last < i;
    }
  }

  lemma AllDone(ids: set<nat>, done: set<nat>, after: Option<nat>, take: nat)
    requires UpTo(ids, done, after) && IsBatch(ids, after, [], take) && take > 0 && done <= ids
    ensures done == ids
  {
  }

  lemma Shrinks(a: set<nat>, b: set<nat>, x: nat)
    requires a <= b - {x} && x in b
    ensures |a| < |b|
  {
    SubsetCount(a, b - {x});
  }

  lemma Finished(transfers: map<nat, Transfer>, before: HistoryTable, history: HistoryTable, counts: Counts)
    requires Halfway(transfers, before, history, transfers.Keys) && (forall r :: r in history ==> r.transfer in transfers)
    requires Tally(transfers, before, {}, counts, transfers.Keys)
    ensures IsProjection(transfers, history) && counts.written == |history|
    ensures counts.scanned == |transfers.Keys| && counts.removed == |Strays(transfers, before, transfers.Keys)|
  {
    hide ExpectedRows;
    assert Due(transfers, {}) == {} && Strays(transfers, before, {}) == {};
    forall r | r in history ensures r in Due(transfers, transfers.Keys) {
      assert r == HistoryRef(r.transfer, r.key);
    }
    assert history.Keys == Due(transfers, transfers.Keys);
  }

  /** The projection has no strays, so a rebuild that starts from it removes nothing. */
  lemma SecondRunRemovesNothing(transfers: map<nat, Transfer>, history: HistoryTable)
    requires IsProjection(transfers, history)
    ensures |Strays(transfers, history, transfers.Keys)| == 0
  {
    assert Strays(transfers, history, transfers.Keys) == {};
  }

  /** There is one projection, so a rebuild that starts from it also changes nothing. */
  lemma ProjectionIsUnique(transfers: map<nat, Transfer>, a: HistoryTable, b: HistoryTable)
    requires IsProjection(transfers, a) && IsProjection(transfers, b)
    ensures a == b
  {
    assert a.Keys == b.Keys;
  }

  /** The projection is what each transfer's own rows say it is. */
  lemma ProjectionByTransfer(transfers: map<nat, Transfer>, history: HistoryTable)
    requires forall r :: r in history ==> r.transfer in transfers
    ensures IsProjection(transfers, history) <==> forall id :: id in transfers ==> HistoryOf(history, id) == ExpectedRows(transfers[id])
  {
    hide ExpectedRows;
    forall id: nat ensures forall k: HistoryKey :: k in HistoryOf(history, id) <==> HistoryRef(id, k) in history { HistoryOfAt(history, id); }
    if forall id :: id in transfers ==> HistoryOf(history, id) == ExpectedRows(transfers[id]) {
      forall r: HistoryRef ensures r in history <==> Wanted(transfers, r) {
        assert r == HistoryRef(r.transfer, r.key);
        if r.transfer in transfers { assert HistoryOf(history, r.transfer) == ExpectedRows(transfers[r.transfer]); }
      }
      forall r | r in history ensures history[r] == ExpectedRows(transfers[r.transfer])[r.key] {
        HistoryOfAt(history, r.transfer);
        assert HistoryOf(history, r.transfer) == ExpectedRows(transfers[r.transfer]);
        assert r == HistoryRef(r.transfer, r.key);
      }
    }
    if IsProjection(transfers, history) {
      forall id | id in transfers ensures HistoryOf(history, id) == ExpectedRows(transfers[id]) {
        HistoryOfAt(history, id);
      }
    }
  }
}
