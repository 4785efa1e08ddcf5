/**
 * The audit hash chain: one append-only chain per stream, with its head kept beside it, and the verifier
 * that replays it.  A digest is the very value that is hashed, so it is injective and never its own
 * ancestor.  Storage may hand metadata back with its keys permuted.
 */
module AuditChain {
  import opened Common
  import opened AuditJson
  import opened Order

  datatype Digest =
    | Genesis
    | Hash(previous: Digest, stream: nat, sequence: nat, action: nat, entityType: nat, entityId: nat, actor: Option<nat>,
           occurredAt: int, metadata: Json)

  datatype Record = Record(
    eventId: nat, stream: nat, sequence: nat, action: nat, entityType: nat, entityId: nat, actor: Option<nat>,
    occurredAt: int, metadata: Json, previous: Digest, current: Digest)

  datatype Head = Head(lastSequence: nat, lastHash: Digest)

  /** A normalized event; its metadata has been sanitized. */
  datatype Event = Event(
    eventId: nat, stream: nat, action: nat, entityType: nat, entityId: nat, actor: Option<nat>, occurredAt: int, metadata: Json)

  datatype Log = Log(heads: map<nat, Head>, records: seq<Record>)

  datatype AuditFailure = EventIdReused | StreamNotFound

  const FRESH := Head(0, Genesis)
  const EMPTY := Log(map[], [])

  function AsMetadata(j: Json): Json { if j.Obj? then j else Obj([], map[]) }

  function HashOf(r: Record, previous: Digest): Digest {
    Hash(previous, r.stream, r.sequence, r.action, r.entityType, r.entityId, r.actor, r.occurredAt, SortObject(AsMetadata(r.metadata)))
  }

  // ----- a correct chain -----

  function LastHash(rs: seq<Record>): Digest { if rs == [] then Genesis else rs[|rs| - 1].current }

  predicate Links(rs: seq<Record>, n: nat)
    requires n < |rs|
  {
    && rs[n].sequence == n + 1 && rs[n].previous == (if n == 0 then Genesis else rs[n - 1].current)
    && rs[n].current == HashOf(rs[n], rs[n].previous)
  }

  /** Sequences from 1 without a gap, each record linked to the one before and hashed as it reads. */
  predicate ChainOk(rs: seq<Record>) { forall n :: 0 <= n < |rs| ==> Links(rs, n) }

  function HeadOf(rs: seq<Record>): Head { Head(|rs|, LastHash(rs)) }

  lemma {:induction false} ChainExtends(rs: seq<Record>, n: nat)
    requires n < |rs|
    ensures ChainOk(rs[..n + 1]) <==> ChainOk(rs[..n]) && Links(rs, n)
  {
    hide HashOf;
    if ChainOk(rs[..n + 1]) {
      forall k | 0 <= k < n ensures Links(rs[..n], k) { assert Links(rs[..n + 1], k); }
      assert Links(rs[..n + 1], n);
    }
    if ChainOk(rs[..n]) && Links(rs, n) {
      var longer := rs[..n + 1];
      forall k | 0 <= k < |longer| ensures Links(longer, k) { if k < n { assert Links(rs[..n], k); } }
    }
  }

  lemma {:induction false} NothingIsOk(rs: seq<Record>)
    requires rs == []
    ensures ChainOk(rs)
  {
  }

  /** The verifier's loop; what it reports is exactly the longest correct prefix. */
  method VerifyRecords(rs: seq<Record>, head: Head) returns (valid: bool, recordsChecked: nat, firstInvalid: Option<nat>)
    ensures valid <==> ChainOk(rs) && head == HeadOf(rs)
    ensures valid <==> firstInvalid.None?
    ensures firstInvalid.Some? ==> 1 <= firstInvalid.value <= |rs| + 1 && ChainOk(rs[..firstInvalid.value - 1])
    ensures firstInvalid.Some? && firstInvalid.value <= |rs| ==> !Links(rs, firstInvalid.value - 1)
    ensures recordsChecked == if firstInvalid.Some? && firstInvalid.value <= |rs| then firstInvalid.value else |rs|
  {
    hide HashOf, ChainOk;
    assert ChainOk(rs[..0]) by { NothingIsOk(rs[..0]); }
    var expectedSequence := 1;
    var previousHash := Genesis;
    recordsChecked := 0;
    firstInvalid := None;
    var n := 0;
    while n < |rs| && firstInvalid.None?
      invariant 0 <= n <= |rs|
      invariant firstInvalid.None? ==> recordsChecked == n && expectedSequence == n + 1 && ChainOk(rs[..n]) && previousHash == LastHash(rs[..n])
      invariant firstInvalid.Some? ==>
        n < |rs| && firstInvalid.value == n + 1 && recordsChecked == n + 1 && ChainOk(rs[..n]) && !Links(rs, n)
      decreases |rs| - n, if firstInvalid.None? then 1 else 0
    {
      var record := rs[n];
      recordsChecked := recordsChecked + 1;
      ChainExtends(rs, n);
      if record.sequence != expectedSequence || record.previous != previousHash {
        firstInvalid := Some(expectedSequence);
      } else if HashOf(record, previousHash) != record.current {
        firstInvalid := Some(record.sequence);
      } else {
        previousHash := record.current;
        expectedSequence := expectedSequence + 1;
        assert rs[..n + 1][n] == record;
        n := n + 1;
      }
    }
    if firstInvalid.None? {
      assert rs[..n] == rs;
      if head.lastSequence != expectedSequence - 1 || head.lastHash != previousHash { firstInvalid := Some(expectedSequence); }
    } else {
      NotLinked(rs, n);
    }
    valid := firstInvalid.None?;
  }

  lemma {:induction false} NotLinked(rs: seq<Record>, n: nat)
    requires n < |rs| && !Links(rs, n)
    ensures !ChainOk(rs)
  {
  }

  // ----- tamper evidence -----

  /** Everything but the event id and the storage order of the metadata keys. */
  predicate SameHashed(a: Record, b: Record) {
    && a.stream == b.stream && a.sequence == b.sequence && a.action == b.action && a.entityType == b.entityType
    && a.entityId == b.entityId && a.actor == b.actor && a.occurredAt == b.occurredAt
    && SortObject(AsMetadata(a.metadata)) == SortObject(AsMetadata(b.metadata))
    && a.previous == b.previous && a.current == b.current
  }

  /** Two record lists that verify against the same last hash agree, record by record, on every hashed field. */
  lemma {:induction false} TamperEvidence(a: seq<Record>, b: seq<Record>)
    requires ChainOk(a) && ChainOk(b) && LastHash(a) == LastHash(b)
    ensures |a| == |b| && forall n :: 0 <= n < |a| ==> SameHashed(a[n], b[n])
    decreases |a|
  {
    hide SortObject;
    assert |a| > 0 ==> Links(a, |a| - 1);
    assert |b| > 0 ==> Links(b, |b| - 1);
    if a != [] && b != [] {
      var m, n := |a| - 1, |b| - 1;
      SameLast(a, b);
      ChainExtends(a, m);
      ChainExtends(b, n);
      assert a[..m + 1] == a && b[..n + 1] == b;
      TamperEvidence(a[..m], b[..n]);
      forall k | 0 <= k < |a| ensures SameHashed(a[k], b[k]) {
        if k < m { assert a[..m][k] == a[k] && b[..n][k] == b[k]; }
      }
    }
  }

  lemma {:induction false} SameLast(a: seq<Record>, b: seq<Record>)
    requires a != [] && b != [] && Links(a, |a| - 1) && Links(b, |b| - 1) && LastHash(a) == LastHash(b)
    ensures SameHashed(a[|a| - 1], b[|b| - 1]) && LastHash(a[..|a| - 1]) == LastHash(b[..|b| - 1])
  {
  }

  // ----- appending -----

  function StreamRecords(records: seq<Record>, s: nat): seq<Record> {
    if records == [] then [] else
      var last := records[|records| - 1];
      StreamRecords(records[..|records| - 1], s) + if last.stream == s then [last] else []
  }

  function FindEvent(records: seq<Record>, id: nat): (r: Option<nat>)
    ensures r.Some? ==> r.value < |records| && records[r.value].eventId == id
    ensures r.None? ==> forall i :: 0 <= i < |records| ==> records[i].eventId != id
  {
    if records == [] then None else
      var r := FindEvent(records[..|records| - 1], id);
      if r.None? && records[|records| - 1].eventId == id then Some(|records| - 1) else r
  }

  function HeadIn(l: Log, s: nat): Head { if s in l.heads then l.heads[s] else FRESH }

  /** The record written under the stream lock; the hash covers the event, the row holds what storage makes of it. */
  function NewRecord(head: Head, e: Event, stored: Json): Record {
    Record(e.eventId, e.stream, head.lastSequence + 1, e.action, e.entityType, e.entityId, e.actor, e.occurredAt, stored,
           head.lastHash,
           Hash(head.lastHash, e.stream, head.lastSequence + 1, e.action, e.entityType, e.entityId, e.actor, e.occurredAt,
                SortObject(e.metadata)))
  }

  /** The append transaction: the stream row is created and locked, and the event id is looked up under the lock. */
  function Commit(l: Log, e: Event, stored: Json): Log {
    var head := HeadIn(l, e.stream);
    if FindEvent(l.records, e.eventId).Some? then l.(heads := l.heads[e.stream := head])
    else
      var r := NewRecord(head, e, stored);
      Log(l.heads[e.stream := Head(r.sequence, r.current)], l.records + [r])
  }

  predicate Identical(r: Record, e: Event, acceptOperatorRetry: bool) {
    && r.stream == e.stream && r.action == e.action && r.entityType == e.entityType && r.entityId == e.entityId && r.actor == e.actor
    && (acceptOperatorRetry || r.occurredAt == e.occurredAt)
    && SortObject(AsMetadata(r.metadata)) == SortObject(e.metadata)
  }

  function Resolve(r: Record, e: Event, acceptOperatorRetry: bool): Result<Record, AuditFailure> {
    if Identical(r, e, acceptOperatorRetry) then Ok(r) else Err(EventIdReused)
  }

  /** The whole call: a lookup first, then the transaction, and the row found or written is compared with the event. */
  function Append(l: Log, e: Event, stored: Json, acceptOperatorRetry: bool): (Log, Result<Record, AuditFailure>) {
    match FindEvent(l.records, e.eventId)
    case Some(i) => (l, Resolve(l.records[i], e, acceptOperatorRetry))
    case None =>
      var l' := Commit(l, e, stored);
      (l', Resolve(l'.records[|l.records|], e, acceptOperatorRetry))
  }

  // ----- runs: transactions in the order of their locks -----

  /** One committed transaction; a concurrent call is a lookup at some earlier moment and then one of these. */
  datatype Op = Op(event: Event, stored: Json)

  /** The event has been sanitized and storage only permutes keys. */
  ghost predicate OpOk(o: Op) {
    o.event.metadata.Obj? && FullySorted(o.event.metadata) && Permuted(o.event.metadata, o.stored) && WellFormed(o.stored)
  }

  ghost function Run(ops: seq<Op>): Log {
    if ops == [] then EMPTY else
      var l := Run(ops[..|ops| - 1]);
      var o := ops[|ops| - 1];
      if OpOk(o) then Commit(l, o.event, o.stored) else l
  }

  predicate EventsOnce(records: seq<Record>) { forall i, j :: 0 <= i < j < |records| ==> records[i].eventId != records[j].eventId }

  ghost predicate LogOk(l: Log) {
    && EventsOnce(l.records)
    && (forall s: nat :: ChainOk(StreamRecords(l.records, s)) && HeadIn(l, s) == HeadOf(StreamRecords(l.records, s)))
  }

  lemma {:induction false} StreamGrows(records: seq<Record>, r: Record, s: nat)
    ensures StreamRecords(records + [r], s) == StreamRecords(records, s) + if r.stream == s then [r] else []
  {
    assert (records + [r])[..|records|] == records;
  }

  lemma {:induction false} ChainPlus(rs: seq<Record>, r: Record)
    requires ChainOk(rs)
    ensures ChainOk(rs + [r]) <==>
      r.sequence == |rs| + 1 && r.previous == LastHash(rs) && r.current == HashOf(r, r.previous)
  {
    assert (rs + [r])[..|rs|] == rs && (rs + [r])[..|rs| + 1] == rs + [r];
    ChainExtends(rs + [r], |rs|);
  }

  /** A committed record reads as it was hashed exactly when storage has not disturbed the sorted form of its metadata. */
  lemma CommitLinks(l: Log, e: Event, stored: Json)
    requires LogOk(l) && FindEvent(l.records, e.eventId).None?
    ensures var rs := StreamRecords(Commit(l, e, stored).records, e.stream);
      && HeadIn(Commit(l, e, stored), e.stream) == HeadOf(rs)
      && (ChainOk(rs) <==> SortObject(AsMetadata(stored)) == SortObject(e.metadata))
  {
    hide SortObject, AsMetadata, FindEvent, ChainOk, StreamRecords;
    var rs := StreamRecords(l.records, e.stream);
    var r := NewRecord(HeadIn(l, e.stream), e, stored);
    StreamGrows(l.records, r, e.stream);
    ChainPlus(rs, r);
  }

  lemma CommitKeeps(l: Log, o: Op)
    requires LogOk(l) && OpOk(o) && Stable(o.event.metadata)
    ensures LogOk(Commit(l, o.event, o.stored))
  {
    var e := o.event;
    FullySortedIsWellFormed(e.metadata);
    SortIgnoresOrder(e.metadata, o.stored);
    CommitKeepsStable(l, e, o.stored);
  }

  lemma CommitKeepsStable(l: Log, e: Event, stored: Json)
    requires LogOk(l) && SortObject(AsMetadata(stored)) == SortObject(e.metadata)
    ensures LogOk(Commit(l, e, stored))
  {
    hide HashOf, SortObject, AsMetadata, ChainOk;
    if FindEvent(l.records, e.eventId).None? {
      CommitLinks(l, e, stored);
      var l' := Commit(l, e, stored);
      forall s: nat ensures ChainOk(StreamRecords(l'.records, s)) && HeadIn(l', s) == HeadOf(StreamRecords(l'.records, s)) {
        StreamGrows(l.records, l'.records[|l.records|], s);
        if s != e.stream { assert StreamRecords(l'.records, s) == StreamRecords(l.records, s); }
      }
    }
  }

  /**
   * Every interleaving of appends and retries gives chains the verifier accepts, contiguous and with one record
   * per event, whatever storage does to key order, as long as no object hides in an array inside an array.
   */
  lemma {:induction false} RunsVerify(ops: seq<Op>)
    requires forall n :: 0 <= n < |ops| ==> Stable(ops[n].event.metadata)
    ensures LogOk(Run(ops))
  {
    if ops != [] {
      var o := ops[|ops| - 1];
      RunsVerify(ops[..|ops| - 1]);
      if OpOk(o) { CommitKeeps(Run(ops[..|ops| - 1]), o); }
    }
  }

  /** Otherwise storage has an order of the keys for which the very next verification fails. */
  lemma {:induction false} UnstableEventBreaksVerify(ops: seq<Op>, e: Event)
    requires forall n :: 0 <= n < |ops| ==> Stable(ops[n].event.metadata)
    requires e.metadata.Obj? && FullySorted(e.metadata) && !Stable(e.metadata) && FindEvent(Run(ops).records, e.eventId).None?
    ensures OpOk(Op(e, Scramble(e.metadata)))
    ensures !ChainOk(StreamRecords(Run(ops + [Op(e, Scramble(e.metadata))]).records, e.stream))
  {
    var o := Op(e, Scramble(e.metadata));
    assert (ops + [o])[..|ops|] == ops;
    FullySortedIsWellFormed(e.metadata);
    ScrambleIsPermuted(e.metadata);
    UnstableSortsApart(e.metadata);
    RunsVerify(ops);
    CommitLinks(Run(ops), e, o.stored);
  }

  /** The fields {1: 0, 2: 0}. */
  const FIELDS: map<nat, Json> := map[1 := Scalar(0), 2 := Scalar(0)]
  const PAIR := Obj([1, 2], FIELDS)

  /** An object with accepted keys in order and accepted values is accepted as it is. */
  lemma {:induction false} AcceptedAsIs(j: Json, depth: nat, rules: Rules)
    requires j.Obj? && depth <= MAX_DEPTH && |j.fields| <= MAX_KEYS && j.order == Sorted(j.fields.Keys)
    requires forall k :: k in j.fields ==> rules.key(k) && SanitizeValue(j.fields[k], depth + 1, rules) == Some(j.fields[k])
    ensures SanitizeObject(j, depth, rules) == Some(j)
  {
    hide SanitizeValue, Sorted;
    var r := SanitizeObject(j, depth, rules);
    assert r.Some?;
    assert r.value.fields.Keys == j.fields.Keys;
    assert r.value.fields == j.fields;
  }

  lemma {:induction false} PairIsSanitized(rules: Rules)
    requires rules.key(1) && rules.key(2) && rules.scalar(0)
    ensures SanitizeValue(PAIR, 3, rules) == Some(PAIR)
  {
    assert FIELDS.Keys == {1, 2};
    TwoKeys();
    assert |FIELDS| == |FIELDS.Keys| == 2;
    assert forall k :: k in FIELDS ==> FIELDS[k] == Scalar(0);
    assert SanitizeValue(Scalar(0), 4, rules) == Some(Scalar(0));
    AcceptedAsIs(PAIR, 3, rules);
  }

  lemma PairIsSorted()
    ensures FullySorted(PAIR) && !Rigid(PAIR)
  {
    assert FIELDS.Keys == {1, 2};
    TwoKeys();
    assert forall k :: k in FIELDS ==> FullySorted(FIELDS[k]);
    assert |FIELDS| == |FIELDS.Keys| == 2;
  }

  const NESTED := Obj([0], map[0 := Arr([Arr([PAIR])])])

  /** Such metadata is accepted: an object inside an array inside an array passes the sanitizer as it is. */
  lemma {:induction false} NestedArraysAreAccepted(rules: Rules)
    requires rules.key(0) && rules.key(1) && rules.key(2) && rules.scalar(0)
    ensures SanitizeObject(NESTED, 0, rules) == Some(NESTED) && FullySorted(NESTED) && !Stable(NESTED)
  {
    PairIsSanitized(rules);
    OneItem(PAIR, 2, rules);
    OneItem(Arr([PAIR]), 1, rules);
    NestedIsSanitized(rules);
    NestedIsUnstable();
  }

  lemma {:induction false} NestedIsSanitized(rules: Rules)
    requires rules.key(0) && SanitizeValue(Arr([Arr([PAIR])]), 1, rules) == Some(Arr([Arr([PAIR])]))
    ensures SanitizeObject(NESTED, 0, rules) == Some(NESTED)
  {
    hide SanitizeValue;
    TwoKeys();
    var f := NESTED.fields;
    assert f.Keys == {0};
    assert |f| == |f.Keys| == 1;
    AcceptedAsIs(NESTED, 0, rules);
  }

  lemma NestedIsUnstable()
    ensures FullySorted(NESTED) && !Stable(NESTED)
  {
    PairIsSorted();
    TwoKeys();
    var f := NESTED.fields;
    assert f.Keys == {0};
    SortedArray(PAIR);
    SortedArray(Arr([PAIR]));
    LooseArray(PAIR);
    assert !StableValue(f[0]) by { assert f[0].items[0] == Arr([PAIR]); }
  }

  lemma {:induction false} SortedArray(v: Json)
    requires FullySorted(v)
    ensures FullySorted(Arr([v]))
  {
    assert forall i :: 0 <= i < |[v]| ==> [v][i] == v;
  }

  lemma {:induction false} LooseArray(v: Json)
    requires !Rigid(v)
    ensures !Rigid(Arr([v]))
  {
    assert Arr([v]).items[0] == v;
  }

  lemma {:induction false} OneItem(v: Json, depth: nat, rules: Rules)
    requires depth <= MAX_DEPTH && SanitizeValue(v, depth + 1, rules) == Some(v)
    ensures SanitizeValue(Arr([v]), depth, rules) == Some(Arr([v]))
  {
    var r := SanitizeValue(Arr([v]), depth, rules);
    assert forall i :: 0 <= i < |[v]| ==> [v][i] == v;
    assert r.Some?;
    assert r.value.items == [v];
  }

  lemma TwoKeys()
    ensures Sorted({1, 2}) == [1, 2] && Sorted({0}) == [0]
  {
    assert {1, 2} - {1} == {2} && {2} - {2} == {} && {0} - {0} == {};
    LeastExists({1, 2});
    LeastExists({2});
    LeastExists({0});
    assert IsLeast({1, 2}, 1) && IsLeast({2}, 2) && IsLeast({0}, 0);
    assert Sorted({2}) == [2];
  }

  // ----- retries -----

  lemma {:induction false} FindEventStable(records: seq<Record>, more: seq<Record>, id: nat)
    requires FindEvent(records, id).Some?
    ensures FindEvent(records + more, id) == FindEvent(records, id)
    decreases |more|
  {
    if more == [] {
      assert records + more == records;
    } else {
      assert (records + more)[..|records + more| - 1] == records + more[..|more| - 1];
      FindEventStable(records, more[..|more| - 1], id);
    }
  }

  lemma {:induction false} RecordsGrow(ops: seq<Op>, n: nat)
    requires n <= |ops|
    ensures Run(ops[..n]).records <= Run(ops).records
    decreases |ops|
  {
    if n == |ops| {
      assert ops[..n] == ops;
    } else {
      assert ops[..|ops| - 1][..n] == ops[..n];
      RecordsGrow(ops[..|ops| - 1], n);
    }
  }

  /** Once an event is recorded, the same event is answered with its record for ever, and other data is refused. */
  lemma {:induction false} RetriesAreAnswered(ops: seq<Op>, n: nat, e: Event, stored: Json, acceptOperatorRetry: bool)
    requires n <= |ops| && FindEvent(Run(ops[..n]).records, e.eventId).Some?
    ensures var i := FindEvent(Run(ops[..n]).records, e.eventId).value;
      && i < |Run(ops).records| && Run(ops).records[i] == Run(ops[..n]).records[i]
      && Append(Run(ops), e, stored, acceptOperatorRetry) == (Run(ops), Resolve(Run(ops).records[i], e, acceptOperatorRetry))
  {
    RecordsGrow(ops, n);
    var a, b := Run(ops[..n]).records, Run(ops).records;
    FindEventStable(a, b[|a|..], e.eventId);
    assert a + b[|a|..] == b;
  }

  /**
   * Under an event id that is recorded nothing is written, and the record is the answer exactly when the event is the
   * same data: the same stream, action, entity and actor, the same metadata in whatever key order, and, unless an
   * operator retries, the same time.  Any other data is refused.
   */
  lemma {:induction false} UsedIdDecides(l: Log, e: Event, stored: Json, acceptOperatorRetry: bool, i: nat)
    requires EventsOnce(l.records) && i < |l.records| && l.records[i].eventId == e.eventId
    ensures var r := l.records[i];
      Append(l, e, stored, acceptOperatorRetry) ==
        (l, if r.stream == e.stream && r.action == e.action && r.entityType == e.entityType && r.entityId == e.entityId
               && r.actor == e.actor && (r.occurredAt == e.occurredAt || acceptOperatorRetry)
               && SortObject(if r.metadata.Obj? then r.metadata else Obj([], map[])) == SortObject(e.metadata)
            then Ok(r) else Err(EventIdReused))
  {
    hide SortObject;
    assert FindEvent(l.records, e.eventId) == Some(i);
  }

  /** A first append of a stable event writes one record, with the data of the event at the head of its stream, and answers with it. */
  lemma FirstAppendSucceeds(l: Log, o: Op, acceptOperatorRetry: bool)
    requires OpOk(o) && Stable(o.event.metadata) && FindEvent(l.records, o.event.eventId).None?
    ensures var (l', answer) := Append(l, o.event, o.stored, acceptOperatorRetry);
      && |l'.records| == |l.records| + 1 && l'.records[..|l.records|] == l.records && answer == Ok(l'.records[|l.records|])
      && var r, e := answer.value, o.event;
         && r.eventId == e.eventId && r.stream == e.stream && r.action == e.action && r.entityType == e.entityType
         && r.entityId == e.entityId && r.actor == e.actor && r.occurredAt == e.occurredAt && r.metadata == o.stored
         && r.sequence == HeadIn(l, e.stream).lastSequence + 1 && r.previous == HeadIn(l, e.stream).lastHash
  {
    FullySortedIsWellFormed(o.event.metadata);
    SortIgnoresOrder(o.event.metadata, o.stored);
  }

  // ----- the service -----

  class AuditLog {
    var heads: map<nat, Head>
    var records: seq<Record>

    constructor ()
      ensures State() == EMPTY
    {
      heads, records := map[], [];
    }

    ghost function State(): Log reads this { Log(heads, records) }

    /** The transaction under the stream lock: the record that is there already, or a new one at the head of its stream. */
    method AppendTransaction(e: Event, stored: Json) returns (created: Record)
      modifies this
      ensures State() == Commit(old(State()), e, stored)
      ensures var found := FindEvent(old(records), e.eventId);
        if found.Some? then created == old(records)[found.value] && records == old(records)
        else records == old(records) + [created]
    {
      hide FindEvent, SortObject;
      if e.stream !in heads { heads := heads[e.stream := FRESH]; }
      var head := heads[e.stream];
      var existing := FindEvent(records, e.eventId);
      if existing.Some? {
        assert heads == old(heads)[e.stream := head];
        return records[existing.value];
      }
      var sequence := head.lastSequence + 1;
      var currentHash := Hash(head.lastHash, e.stream, sequence, e.action, e.entityType, e.entityId, e.actor, e.occurredAt,
                              SortObject(e.metadata));
      created := Record(e.eventId, e.stream, sequence, e.action, e.entityType, e.entityId, e.actor, e.occurredAt, stored,
                        head.lastHash, currentHash);
      records := records + [created];
      heads := heads[e.stream := Head(sequence, currentHash)];
      assert heads == old(heads)[e.stream := Head(sequence, currentHash)];
    }

    /** appendNormalized: a lookup, the transaction, and the comparison of the record with the event. */
    method AppendNormalized(e: Event, stored: Json, acceptOperatorRetry: bool) returns (r: Result<Record, AuditFailure>)
      modifies this
      ensures (State(), r) == Append(old(State()), e, stored, acceptOperatorRetry)
    {
      hide FindEvent, Identical, SortObject;
      var prior := FindEvent(records, e.eventId);
      if prior.Some? { return Resolve(records[prior.value], e, acceptOperatorRetry); }
      var record := AppendTransaction(e, stored);
      r := Resolve(record, e, acceptOperatorRetry);
    }

    /** verify: the records of one stream against its head, read as one snapshot. */
    method Verify(s: nat) returns (r: Result<(bool, nat, Option<nat>), AuditFailure>)
      ensures r.Err? <==> s !in heads
      ensures r.Ok? ==> (r.value.0 <==> ChainOk(StreamRecords(records, s)) && heads[s] == HeadOf(StreamRecords(records, s)))
      ensures r.Ok? && LogOk(State()) ==> r.value == (true, |StreamRecords(records, s)|, None)
    {
      if s !in heads { return Err(StreamNotFound); }
      var valid, checked, firstInvalid := VerifyRecords(StreamRecords(records, s), heads[s]);
      r := Ok((valid, checked, firstInvalid));
      assert LogOk(State()) ==> HeadIn(State(), s) == HeadOf(StreamRecords(records, s));
    }
  }
}
