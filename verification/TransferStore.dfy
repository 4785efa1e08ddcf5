/**
 * The tables of the transfer service and the transactions that write them in place.  The three
 * tables are fields; each method is one transaction and is proved to be the row function of
 * module Transfers on its own transfer and to leave every other transfer alone.
 */
module TransferStore {
  import opened Common
  import opened Transfers
  import Fx

  datatype HistoryRef = HistoryRef(transfer: nat, key: HistoryKey)

  type HistoryTable = map<HistoryRef, HistoryRow>

  /** The history rows of one transfer. */
  function HistoryOf(table: HistoryTable, id: nat): History {
    map r | r in table && r.transfer == id :: r.key := table[r]
  }

  lemma HistoryOfAt(table: HistoryTable, id: nat)
    ensures forall k: HistoryKey :: k in HistoryOf(table, id) <==> HistoryRef(id, k) in table
    ensures forall k :: k in HistoryOf(table, id) ==> HistoryOf(table, id)[k] == table[HistoryRef(id, k)]
  {
    forall k: HistoryKey | HistoryRef(id, k) in table ensures k in HistoryOf(table, id) {
      assert HistoryRef(id, k).key == k;
    }
  }

  /** Tables that agree on a transfer give it the same history. */
  lemma SameHistory(a: HistoryTable, b: HistoryTable, id: nat)
    requires forall k: HistoryKey :: HistoryRef(id, k) in a <==> HistoryRef(id, k) in b
    requires forall k: HistoryKey :: HistoryRef(id, k) in a ==> a[HistoryRef(id, k)] == b[HistoryRef(id, k)]
    ensures HistoryOf(a, id) == HistoryOf(b, id)
  {
    HistoryOfAt(a, id);
    HistoryOfAt(b, id);
  }

  /** An update of the rows of one transfer is the update of its history, and of no other. */
  lemma StatusSet(h: HistoryTable, h': HistoryTable, id: nat, from: Option<Status>, to: Status)
    requires h'.Keys == h.Keys
    requires forall r :: r in h ==>
      h'[r] == (if r.transfer == id && (from.None? || h[r].status == from.value) then h[r].(status := to) else h[r])
    ensures HistoryOf(h', id) == if from.None? then SetStatus(HistoryOf(h, id), to) else SetStatusWhere(HistoryOf(h, id), from.value, to)
    ensures forall j :: j != id ==> HistoryOf(h', j) == HistoryOf(h, j)
  {
    HistoryOfAt(h, id);
    HistoryOfAt(h', id);
    forall j: nat | j != id ensures HistoryOf(h', j) == HistoryOf(h, j) { SameHistory(h', h, j); }
  }

  lemma NoRows(h: HistoryTable, id: nat)
    requires forall r :: r in h ==> r.transfer != id
    ensures HistoryOf(h, id) == map[]
  {
  }

  function Put(h: HistoryTable, id: nat, rows: History): HistoryTable {
    h + map k | k in rows :: HistoryRef(id, k) := rows[k]
  }

  lemma RowsPut(h: HistoryTable, id: nat, rows: History)
    ensures HistoryOf(Put(h, id, rows), id) == HistoryOf(h, id) + rows
    ensures forall j :: j != id ==> HistoryOf(Put(h, id, rows), j) == HistoryOf(h, j)
    ensures forall r :: r in Put(h, id, rows) ==> r in h || r.transfer == id
  {
    HistoryOfAt(h, id);
    HistoryOfAt(Put(h, id, rows), id);
    forall k: HistoryKey ensures k in rows <==> HistoryRef(id, k) in (map k | k in rows :: HistoryRef(id, k) := rows[k]) {
      if k in rows { assert HistoryRef(id, k).key == k; }
    }
    forall j: nat | j != id ensures HistoryOf(Put(h, id, rows), j) == HistoryOf(h, j) { SameHistory(Put(h, id, rows), h, j); }
  }

  lemma CreatedRows(client: nat, key: Key, request: Request, now: int)
    ensures var t := NewTransfer(client, request, now);
      ClaimRows(client, key, request, now) ==
        Rows(t, Record(client, key, request, RecordProcessing, None, now + REPLAY_WINDOW_MS),
             if request.DomesticRequest?
             then map[HistoryKey(t.sender, Sender) := HistoryRow(t.recipient, Pending, request.amount, request.currency, None, now),
                      HistoryKey(t.recipient, Recipient) := HistoryRow(t.sender, Pending, request.amount, request.currency, None, now)]
             else map[])
  {
  }

  predicate UniqueKeys(records: map<nat, Record>) {
    forall i, j :: i in records && j in records && records[i].client == records[j].client && records[i].key == records[j].key ==> i == j
  }

  lemma KeyKept(records: map<nat, Record>, id: nat, r: Record)
    requires UniqueKeys(records) && id in records && records[id].client == r.client && records[id].key == r.key
    ensures UniqueKeys(records[id := r])
  {
  }

  lemma KeyAdded(records: map<nat, Record>, id: nat, r: Record)
    requires UniqueKeys(records) && id !in records
    requires forall i :: i in records ==> !(records[i].client == r.client && records[i].key == r.key)
    ensures UniqueKeys(records[id := r])
  {
  }

  class TransferTables {
    var transfers: map<nat, Transfer>
    var records: map<nat, Record>
    var history: HistoryTable

    constructor ()
      ensures Valid() && transfers == map[] && records == map[] && history == map[]
    {
      transfers, records, history := map[], map[], map[];
    }

    ghost predicate Valid() reads this {
      && transfers.Keys == records.Keys
      && (forall r :: r in history ==> r.transfer in transfers)
      && UniqueKeys(records)
    }

    ghost function RowsAt(id: nat): Rows
      requires Valid() && id in transfers
      reads this
    {
      Rows(transfers[id], records[id], HistoryOf(history, id))
    }

    /** Every transfer but `id` has the rows it had. */
    twostate predicate OthersKept(id: nat)
      reads this
    {
      forall j :: j in old(transfers) && j != id && j in old(records) ==>
        && j in transfers && transfers[j] == old(transfers)[j] && j in records && records[j] == old(records)[j]
        && HistoryOf(history, j) == HistoryOf(old(history), j)
    }

    /** transactionHistory.updateMany: the rows of one transfer, or those of them in one status. */
    method SetHistoryStatus(id: nat, from: Option<Status>, to: Status)
      modifies this`history
      ensures history.Keys == old(history.Keys)
      ensures HistoryOf(history, id) == if from.None? then SetStatus(HistoryOf(old(history), id), to)
                                        else SetStatusWhere(HistoryOf(old(history), id), from.value, to)
      ensures forall j :: j != id ==> HistoryOf(history, j) == HistoryOf(old(history), j)
    {
      ghost var before := history;
      history := map r | r in history ::
        if r.transfer == id && (from.None? || history[r].status == from.value) then history[r].(status := to) else history[r];
      StatusSet(before, history, id, from, to);
    }

    /** transactionHistory.createMany for one transfer. */
    method AddHistory(id: nat, rows: History)
      modifies this`history
      ensures HistoryOf(history, id) == HistoryOf(old(history), id) + rows
      ensures forall j :: j != id ==> HistoryOf(history, j) == HistoryOf(old(history), j)
      ensures forall r :: r in history ==> r in old(history) || r.transfer == id
    {
      RowsPut(history, id, rows);
      history := Put(history, id, rows);
    }

    method FindByKey(client: nat, key: Key) returns (found: Option<nat>)
      requires Valid()
      ensures found.Some? ==> found.value in records && records[found.value].client == client && records[found.value].key == key
      ensures found.None? ==> forall i :: i in records ==> !(records[i].client == client && records[i].key == key)
    {
      if i :| i in records && records[i].client == client && records[i].key == key {
        found := Some(i);
      } else {
        found := None;
      }
    }

    /** claim: the transfer of the key if there is one, otherwise all rows of a new transfer in one transaction. */
    method Claim(client: nat, key: Key, request: Request, id: nat, now: int) returns (claimed: (bool, nat))
      requires Valid() && id !in transfers
      modifies this
      ensures Valid() && claimed.1 in transfers && OthersKept(id)
      ensures records[claimed.1].client == client && records[claimed.1].key == key
      ensures claimed.0 <==> !exists i :: i in old(records) && old(records)[i].client == client && old(records)[i].key == key
      ensures claimed.0 ==> claimed.1 == id && transfers.Keys == old(transfers.Keys) + {id} && RowsAt(id) == ClaimRows(client, key, request, now)
      ensures !claimed.0 ==> transfers == old(transfers) && records == old(records) && history == old(history)
    {
      hide UniqueKeys, HistoryOf, SetStatus, SetStatusWhere;
      var existing := FindByKey(client, key);
      if existing.Some? { return (false, existing.value); }
      Create(client, key, request, id, now);
      claimed := (true, id);
    }

    /** The transaction that creates a transfer, its record and, if domestic, its two history rows. */
    method Create(client: nat, key: Key, request: Request, id: nat, now: int)
      requires Valid() && id !in transfers
      requires forall i :: i in records ==> !(records[i].client == client && records[i].key == key)
      modifies this
      ensures Valid() && transfers.Keys == old(transfers.Keys) + {id} && OthersKept(id)
      ensures RowsAt(id) == ClaimRows(client, key, request, now)
    {
      hide UniqueKeys, HistoryOf, NewTransfer, ClaimRows;
      var t := NewTransfer(client, request, now);
      NoRows(history, id);
      CreatedRows(client, key, request, now);
      transfers := transfers[id := t];
      var record := Record(client, key, request, RecordProcessing, None, now + REPLAY_WINDOW_MS);
      KeyAdded(records, id, record);
      records := records[id := record];
      if request.DomesticRequest? {
        var rows := map[HistoryKey(t.sender, Sender) := HistoryRow(t.recipient, Pending, request.amount, request.currency, None, now),
                        HistoryKey(t.recipient, Recipient) := HistoryRow(t.sender, Pending, request.amount, request.currency, None, now)];
        AddHistory(id, rows);
        assert map[] + rows == rows;
      }
    }

    /** transition: PENDING to PROCESSING, with the history rows that were PENDING. */
    method Transition(id: nat, now: int)
      requires Valid() && id in transfers
      modifies this
      ensures Valid() && transfers.Keys == old(transfers.Keys) && OthersKept(id)
      ensures RowsAt(id) == Transfers.Transition(old(RowsAt(id)), now)
    {
      hide UniqueKeys, HistoryOf, SetStatus, SetStatusWhere;
      var t := transfers[id];
      if t.status == Pending {
        transfers := transfers[id := t.(status := Processing, version := t.version + 1, updatedAt := now)];
        SetHistoryStatus(id, Some(Pending), Processing);
      }
    }

    /** The preparation of an international transfer from the row read before its quote was consumed. */
    method Prepare(id: nat, snap: Transfer, terms: Fx.Terms, now: int) returns (prepared: bool)
      requires Valid() && id in transfers
      modifies this
      ensures Valid() && transfers.Keys == old(transfers.Keys) && OthersKept(id)
      ensures RowsAt(id) == Transfers.Prepare(old(RowsAt(id)), snap, terms, now)
      ensures prepared <==> Preparable(old(transfers[id]))
    {
      hide UniqueKeys, HistoryOf, SetStatus, SetStatusWhere;
      var t := transfers[id];
      prepared := t.status == Pending && t.targetAmount.None? && t.rate.None?;
      if prepared {
        transfers := transfers[id := t.(targetAmount := Some(terms.targetAmount), rate := Some(terms.rate), status := Processing,
                                        version := t.version + 1, updatedAt := now)];
        AddHistory(id, map[
          HistoryKey(snap.sender, Sender) :=
            HistoryRow(snap.recipient, Processing, snap.sourceAmount, snap.sourceCurrency, snap.quote, snap.createdAt),
          HistoryKey(snap.recipient, Recipient) :=
            HistoryRow(snap.sender, Processing, terms.targetAmount, snap.targetCurrency, snap.quote, snap.createdAt)]);
      }
    }

    /** complete: transfer, history and record in one transaction, only from PROCESSING. */
    method Complete(id: nat, posting: nat, now: int) returns (reply: Reply)
      requires Valid() && id in transfers
      modifies this
      ensures Valid() && transfers.Keys == old(transfers.Keys) && OthersKept(id)
      ensures RowsAt(id) == Transfers.Complete(id, old(RowsAt(id)), posting, now)
      ensures reply == ResultFor(id, RowsAt(id).transfer)
    {
      hide UniqueKeys, HistoryOf, SetStatus, SetStatusWhere;
      var t := transfers[id];
      if t.status == Processing {
        transfers := transfers[id := t.(status := Completed, posting := Some(posting), completedAt := Some(now),
                                        version := t.version + 1, updatedAt := now)];
        SetHistoryStatus(id, None, Completed);
        var body := ToResponse(id, transfers[id]);
        var record := records[id].(state := RecordCompleted, stored := Some(Reply(201, body)));
        KeyKept(records, id, record);
        records := records[id := record];
      }
      reply := if transfers[id].status == Completed then Reply(201, ToResponse(id, transfers[id])) else ResultFor(id, transfers[id]);
    }

    /** fail: from PENDING or PROCESSING; the record only while it is PROCESSING. */
    method Fail(id: nat, http: nat, reason: Reason, now: int) returns (reply: Reply)
      requires Valid() && id in transfers
      modifies this
      ensures Valid() && transfers.Keys == old(transfers.Keys) && OthersKept(id)
      ensures RowsAt(id) == Transfers.Fail(id, old(RowsAt(id)), http, reason, now)
      ensures reply == if Open(old(transfers[id]).status) then Reply(http, ToResponse(id, RowsAt(id).transfer))
                       else ResultFor(id, RowsAt(id).transfer)
    {
      hide UniqueKeys, HistoryOf, SetStatus, SetStatusWhere, ToResponse, ResultFor;
      var t := transfers[id];
      var failed := t.status == Pending || t.status == Processing;
      if failed {
        transfers := transfers[id := t.(status := Failed, failure := Some(reason), version := t.version + 1, updatedAt := now)];
        SetHistoryStatus(id, None, Failed);
      }
      var body := ToResponse(id, transfers[id]);
      if failed && records[id].state == RecordProcessing {
        var record := records[id].(state := RecordFailed, stored := Some(Reply(http, body)));
        KeyKept(records, id, record);
        records := records[id := record];
      }
      reply := if failed then Reply(http, body) else ResultFor(id, transfers[id]);
    }

    /** claimProcessingRetry: the optimistic version check, with the staleness guard unless forced. */
    method ClaimRetry(id: nat, snap: Transfer, staleBefore: Option<int>, now: int) returns (claimed: bool)
      requires Valid() && id in transfers
      modifies this`transfers
      ensures Valid() && transfers.Keys == old(transfers.Keys) && OthersKept(id)
      ensures RowsAt(id) == Transfers.ClaimRetry(old(RowsAt(id)), snap, staleBefore, now)
      ensures claimed <==> Retryable(old(transfers[id]), snap, staleBefore)
    {
      hide UniqueKeys, HistoryOf, SetStatus, SetStatusWhere;
      var t := transfers[id];
      claimed := t.status == Processing && t.version == snap.version && (staleBefore.Some? ==> t.updatedAt <= staleBefore.value);
      if claimed {
        transfers := transfers[id := t.(version := t.version + 1, updatedAt := now)];
      }
    }
  }
}
