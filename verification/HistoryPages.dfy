/**
 * Seek pagination of a wallet's history.  A page is one read of the table as it is at that moment;
 * between two reads rows may come and go.  Times are microseconds, and a cursor keeps only the
 * milliseconds that its ISO text carries.
 */
module HistoryPages {
  import opened Common
  import Order
  import Transfers

  datatype Row = Row(occurredAt: nat, id: nat)

  type Table = set<Row>

  const MAX_LIMIT := 100
  const MS := 1_000

  /** The row order of the query, as in ("occurred_at", "id") < (...). */
  predicate Below(a: Row, b: Row) { a.occurredAt < b.occurredAt || (a.occurredAt == b.occurredAt && a.id < b.id) }

  predicate IsMax(t: Table, m: Row) { m in t && forall r :: r in t && r != m ==> Below(r, m) }

  lemma {:induction false} HasMax(t: Table)
    requires t != {}
    ensures exists m :: IsMax(t, m)
    decreases |t|
  {
    var x :| x in t;
    if t - {x} == {} {
      assert t == {x} + (t - {x});
      assert IsMax(t, x);
    } else {
      HasMax(t - {x});
      var n :| IsMax(t - {x}, n);
      var m := if Below(x, n) then n else x;
      forall r | r in t && r != m ensures Below(r, m) {
        if r != x && r != n { assert r in t - {x} && Below(r, n); }
      }
      assert IsMax(t, m);
    }
  }

  ghost function Max(t: Table): (m: Row)
    requires t != {}
    ensures IsMax(t, m)
  {
    HasMax(t);
    var m :| IsMax(t, m);
    m
  }

  /** The table in the order of the query. */
  ghost function Sorted(t: Table): (s: seq<Row>)
    ensures |s| == |t|
    decreases |t|
  {
    if t == {} then [] else [Max(t)] + Sorted(t - {Max(t)})
  }

  predicate Descending(s: seq<Row>) { forall i, j :: 0 <= i < j < |s| ==> Below(s[j], s[i]) }

  lemma {:induction false} SortedIs(t: Table)
    ensures Descending(Sorted(t)) && forall r :: r in Sorted(t) <==> r in t
    decreases |t|
  {
    if t != {} {
      var m := Max(t);
      SortedIs(t - {m});
      Prepend(m, Sorted(t - {m}));
    }
  }

  lemma {:induction false} Prepend(m: Row, s: seq<Row>)
    requires Descending(s) && forall r :: r in s ==> Below(r, m)
    ensures Descending([m] + s)
  {
    forall i, j | 0 <= i < j < |[m] + s| ensures Below(([m] + s)[j], ([m] + s)[i]) {
      assert ([m] + s)[j] == s[j - 1] && s[j - 1] in s;
    }
  }

  /** A table has one descending enumeration. */
  lemma {:induction false} SortedUnique(t: Table, s: seq<Row>)
    requires Descending(s) && forall r :: r in s <==> r in t
    ensures s == Sorted(t)
    decreases |t|
  {
    if t == {} {
      assert multiset(s) == multiset{} by { assert forall r :: r in s ==> r in t; }
    } else {
      var m := Max(t);
      assert m in s;
      assert s[0] == m by { assert s[0] in t; }
      forall r ensures r in s[1..] <==> r in t - {m} {
        if r in s && r != m {
          var i :| 0 <= i < |s| && s[i] == r;
          assert s[1..][i - 1] == r;
        }
      }
      SortedUnique(t - {m}, s[1..]);
      assert s == [m] + s[1..];
    }
  }

  // ----- one page -----

  datatype Page = Page(items: seq<Row>, next: Option<Row>)

  /** What a cursor carries after its time has passed through an ISO string. */
  function Cursor(r: Row): Row { r.(occurredAt := r.occurredAt / MS * MS) }

  predicate Aligned(t: Table) { forall r :: r in t ==> r.occurredAt % MS == 0 }

  /** No row of the table falls between another one and its cursor. */
  predicate Safe(t: Table) { forall m, r :: m in t && r in t && Below(r, m) ==> Below(r, Cursor(m)) }

  lemma {:induction false} AlignedIsSafe(t: Table)
    requires Aligned(t)
    ensures Safe(t)
  {
    forall m | m in t ensures Cursor(m) == m { assert m.occurredAt % MS == 0; }
  }

  /** A history row as the query sees it: its time is the creation time of its transfer, in whole milliseconds. */
  function RowOf(h: Transfers.HistoryRow, id: nat): Row
    requires h.occurredAt >= 0
  {
    Row(h.occurredAt * MS, id)
  }

  /** So every table of projected history rows can be paged safely. */
  lemma {:induction false} ProjectionIsSafe(rows: map<nat, Transfers.HistoryRow>)
    requires forall id :: id in rows ==> rows[id].occurredAt >= 0
    ensures Safe(set id | id in rows :: RowOf(rows[id], id))
  {
    AlignedIsSafe(set id | id in rows :: RowOf(rows[id], id));
  }

  function Visible(t: Table, after: Option<Row>): Table { set r | r in t && (after.Some? ==> Below(r, after.value)) }

  /** One read: limit + 1 rows are fetched, the extra one only tells whether there is more. */
  ghost function ReadPage(t: Table, after: Option<Row>, limit: nat): Page {
    var rows := Sorted(Visible(t, after));
    var fetched := if |rows| > limit + 1 then rows[..limit + 1] else rows;
    var hasMore := |fetched| > limit;
    var items := if hasMore then fetched[..limit] else fetched;
    Page(items, if hasMore && items != [] then Some(Cursor(items[|items| - 1])) else None)
  }

  predicate Follows(s: seq<Row>, after: Option<Row>) { after.Some? ==> forall r :: r in s ==> Below(r, after.value) }

  lemma PageFacts(t: Table, after: Option<Row>, limit: nat)
    requires limit >= 1
    ensures var p := ReadPage(t, after, limit);
      && Descending(p.items) && |p.items| <= limit && Follows(p.items, after) && (forall r :: r in p.items ==> r in t)
      && (p.next.None? ==> p.items == Sorted(Visible(t, after)))
      && (p.next.Some? ==>
            && p.items != [] && p.next == Some(Cursor(p.items[|p.items| - 1])) && p.items[|p.items| - 1] in t
            && (forall r :: r in Visible(t, after) && r !in p.items ==> Below(r, p.items[|p.items| - 1])))
  {
    hide Sorted, Visible;
    var s := Sorted(Visible(t, after));
    SortedIs(Visible(t, after));
    VisibleRows(t, after);
    var p := ReadPage(t, after, limit);
    assert p.items == s || p.items == s[..limit];
    PrefixOf(s, p.items);
    if p.next.Some? {
      var last := p.items[|p.items| - 1];
      assert last in p.items;
      forall r | r in Visible(t, after) && r !in p.items ensures Below(r, last) {
        PastPrefix(s, |p.items|, r);
      }
    }
  }

  /**
   * A page is the highest rows that the cursor lets through, at most `limit` of them, and it names a next page exactly
   * when it has left some out; that one starts after its last row.
   */
  lemma PageDecides(t: Table, after: Option<Row>, limit: nat)
    requires limit >= 1
    ensures var p := ReadPage(t, after, limit);
      && (forall r :: r in p.items ==> r in t && (after.Some? ==> Below(r, after.value)))
      && (forall m, r :: m in p.items && r in Visible(t, after) && r !in p.items ==> Below(r, m))
      && (p.next.Some? <==> exists r :: r in Visible(t, after) && r !in p.items)
      && (p.next.Some? ==> |p.items| == limit && p.next == Some(Cursor(p.items[limit - 1])))
  {
    hide Sorted, Visible, IsMax;
    var v := Visible(t, after);
    var s := Sorted(v);
    SortedIs(v);
    VisibleRows(t, after);
    var p := ReadPage(t, after, limit);
    if |s| > limit {
      assert p.items == s[..limit];
      assert s[limit] in v && s[limit] !in p.items;
      forall m, r | m in p.items && r in v && r !in p.items ensures Below(r, m) {
        PastPrefix(s, limit, r);
        if m != s[limit - 1] { assert Below(s[limit - 1], m); }
      }
    } else {
      assert p.items == s;
    }
  }

  /** What a cursor lets through is below the row it was made from, and not that row. */
  lemma BelowCursor(m: Row, r: Row)
    requires Below(r, Cursor(m))
    ensures Below(r, m) && r != m
  {
  }

  lemma VisibleRows(t: Table, after: Option<Row>)
    ensures forall r :: r in Visible(t, after) <==> r in t && (after.Some? ==> Below(r, after.value))
  {
  }

  lemma {:induction false} PrefixOf(s: seq<Row>, p: seq<Row>)
    requires p <= s
    ensures forall r :: r in p ==> r in s
    ensures Descending(s) ==> Descending(p)
  {
    forall r | r in p ensures r in s {
      var i :| 0 <= i < |p| && p[i] == r;
      assert s[i] == r;
    }
    if Descending(s) {
      forall i, j | 0 <= i < j < |p| ensures Below(p[j], p[i]) { assert Below(s[j], s[i]); }
    }
  }

  /** What a prefix of a descending list leaves out lies below its last row. */
  lemma {:induction false} PastPrefix(s: seq<Row>, n: nat, r: Row)
    requires Descending(s) && 0 < n <= |s| && r in s && r !in s[..n]
    ensures Below(r, s[n - 1])
  {
    assert s == s[..n] + s[n..];
    var i :| 0 <= i < |s[n..]| && s[n..][i] == r;
    assert s[n + i] == r;
  }

  // ----- a walk -----

  datatype Read = Read(table: Table, limit: nat)

  predicate LimitsOk(pageReads: seq<Read>) { forall k :: 0 <= k < |pageReads| ==> 1 <= pageReads[k].limit <= MAX_LIMIT }

  /** All that is ever in the table while it is read, taken together, can be paged safely. */
  predicate SafeThroughout(pageReads: seq<Read>, all: Table) {
    Safe(all) && forall k :: 0 <= k < |pageReads| ==> pageReads[k].table <= all
  }

  /** The items returned by following the cursors through these reads, from `after` on. */
  ghost function Walk(pageReads: seq<Read>, after: Option<Row>): seq<Row>
    decreases |pageReads|
  {
    if pageReads == [] then [] else
      var p := ReadPage(pageReads[0].table, after, pageReads[0].limit);
      if p.next.None? then p.items else p.items + Walk(pageReads[1..], p.next)
  }

  /** Some read of the walk returned no next cursor. */
  ghost predicate Completes(pageReads: seq<Read>, after: Option<Row>)
    decreases |pageReads|
  {
    pageReads != [] &&
    var p := ReadPage(pageReads[0].table, after, pageReads[0].limit);
    p.next.None? || Completes(pageReads[1..], p.next)
  }

  /** Whatever happens to the table between reads, and whatever its times, a walk returns strictly descending rows, so none twice. */
  lemma {:induction false} WalkDescends(pageReads: seq<Read>, after: Option<Row>)
    requires LimitsOk(pageReads)
    ensures Descending(Walk(pageReads, after)) && Follows(Walk(pageReads, after), after)
    decreases |pageReads|
  {
    if pageReads != [] {
      var p := ReadPage(pageReads[0].table, after, pageReads[0].limit);
      PageFacts(pageReads[0].table, after, pageReads[0].limit);
      if p.next.Some? {
        var rest := Walk(pageReads[1..], p.next);
        WalkDescends(pageReads[1..], p.next);
        forall r | r in rest ensures Below(r, p.items[|p.items| - 1]) { BelowCursor(p.items[|p.items| - 1], r); }
        Join(p.items, rest);
      }
    }
  }

  lemma {:induction false} Join(a: seq<Row>, b: seq<Row>)
    requires Descending(a) && Descending(b) && a != [] && Follows(b, Some(a[|a| - 1]))
    ensures Descending(a + b)
    ensures forall r :: r in b ==> Below(r, a[0])
  {
    forall i, j | 0 <= i < j < |a + b| ensures Below((a + b)[j], (a + b)[i]) {
      if j >= |a| {
        assert (a + b)[j] == b[j - |a|] && b[j - |a|] in b;
        if i < |a| - 1 { assert Below(a[|a| - 1], a[i]); }
      }
    }
    if |a| > 1 { assert Below(a[|a| - 1], a[0]); }
  }

  /** In a completed walk every row that was there at each read, and after the start, is returned. */
  lemma {:induction false} WalkFinds(pageReads: seq<Read>, all: Table, after: Option<Row>, r: Row)
    requires LimitsOk(pageReads) && SafeThroughout(pageReads, all) && Completes(pageReads, after)
    requires forall k :: 0 <= k < |pageReads| ==> r in pageReads[k].table
    requires after.Some? ==> Below(r, after.value)
    ensures r in Walk(pageReads, after)
    decreases |pageReads|
  {
    var t := pageReads[0].table;
    var p := ReadPage(t, after, pageReads[0].limit);
    PageFacts(t, after, pageReads[0].limit);
    assert r in t;
    if p.next.None? {
      SortedIs(Visible(t, after));
    } else if r !in p.items {
      assert r in Visible(t, after) && r in all && p.items[|p.items| - 1] in all;
      WalkFinds(pageReads[1..], all, p.next, r);
    }
  }

  predicate Once(s: seq<Row>, r: Row) {
    (exists i :: 0 <= i < |s| && s[i] == r) && forall i, j :: 0 <= i < j < |s| && s[i] == r ==> s[j] != r
  }

  /** A row present throughout a completed walk from the start appears in it exactly once. */
  lemma {:induction false} PresentRowsAppearOnce(pageReads: seq<Read>, all: Table, r: Row)
    requires LimitsOk(pageReads) && SafeThroughout(pageReads, all) && Completes(pageReads, None)
    requires forall k :: 0 <= k < |pageReads| ==> r in pageReads[k].table
    ensures Once(Walk(pageReads, None), r)
  {
    WalkFinds(pageReads, all, None, r);
    WalkDescends(pageReads, None);
  }

  lemma {:induction false} FixedWalk(pageReads: seq<Read>, t: Table, after: Option<Row>)
    requires LimitsOk(pageReads) && Completes(pageReads, after) && forall k :: 0 <= k < |pageReads| ==> pageReads[k].table == t
    ensures forall r :: r in Walk(pageReads, after) ==> r in Visible(t, after)
    decreases |pageReads|
  {
    var p := ReadPage(t, after, pageReads[0].limit);
    PageFacts(t, after, pageReads[0].limit);
    if p.next.None? {
      SortedIs(Visible(t, after));
    } else {
      FixedWalk(pageReads[1..], t, p.next);
      var last := p.items[|p.items| - 1];
      assert last in p.items;
      forall r | r in Walk(pageReads[1..], p.next) ensures r in Visible(t, after) { BelowCursor(last, r); }
    }
  }

  /** On a safe table that does not change, the pages of a completed walk concatenate to the whole sorted table. */
  lemma {:induction false} PagesConcatenate(pageReads: seq<Read>, t: Table)
    requires LimitsOk(pageReads) && Safe(t) && Completes(pageReads, None) && forall k :: 0 <= k < |pageReads| ==> pageReads[k].table == t
    ensures Walk(pageReads, None) == Sorted(t)
  {
    WalkDescends(pageReads, None);
    FixedWalk(pageReads, t, None);
    forall r | r in t ensures r in Walk(pageReads, None) { WalkFinds(pageReads, t, None, r); }
    SortedUnique(t, Walk(pageReads, None));
  }

  /** Enough reads of a fixed table complete the walk: each page but the last makes progress. */
  lemma {:induction false} WalkCompletes(pageReads: seq<Read>, t: Table, after: Option<Row>)
    requires LimitsOk(pageReads) && (forall k :: 0 <= k < |pageReads| ==> pageReads[k].table == t)
    requires |pageReads| > |Visible(t, after)|
    ensures Completes(pageReads, after)
    decreases |pageReads|
  {
    var p := ReadPage(t, after, pageReads[0].limit);
    PageFacts(t, after, pageReads[0].limit);
    if p.next.Some? {
      var last := p.items[|p.items| - 1];
      assert last in p.items && last in Visible(t, after);
      forall r | r in Visible(t, p.next) ensures r in Visible(t, after) - {last} { BelowCursor(last, r); }
      Order.SubsetCount(Visible(t, p.next), Visible(t, after) - {last});
      WalkCompletes(pageReads[1..], t, p.next);
    }
  }

  // ----- exactly the safe tables are paged without loss -----

  /** One row at a time, nothing between a row and its cursor is ever returned after it. */
  lemma {:induction false} OneByOne(pageReads: seq<Read>, t: Table, after: Option<Row>, m: Row, r: Row)
    requires forall k :: 0 <= k < |pageReads| ==> pageReads[k] == Read(t, 1)
    requires m in Walk(pageReads, after) && r in Walk(pageReads, after) && Below(r, m)
    ensures Below(r, Cursor(m))
    decreases |pageReads|
  {
    var p := ReadPage(t, after, 1);
    PageFacts(t, after, 1);
    if p.next.Some? {
      var rest := Walk(pageReads[1..], p.next);
      WalkDescends(pageReads[1..], p.next);
      assert p.items == [p.items[0]];
      if m != p.items[0] {
        if r == p.items[0] { BelowCursor(r, m); assert false; }
        OneByOne(pageReads[1..], t, p.next, m, r);
      }
    }
  }

  /** Every completed walk of the table, at any allowed limits, returns exactly its rows in order. */
  ghost predicate Lossless(t: Table) {
    forall pageReads: seq<Read> ::
      LimitsOk(pageReads) && (forall k :: 0 <= k < |pageReads| ==> pageReads[k].table == t) && Completes(pageReads, None) ==>
        Walk(pageReads, None) == Sorted(t)
  }

  lemma {:induction false} SafeIsLossless(t: Table)
    requires Safe(t)
    ensures Lossless(t)
  {
    hide Safe, Completes, Walk, Sorted;
    forall pageReads: seq<Read> | LimitsOk(pageReads) && (forall k :: 0 <= k < |pageReads| ==> pageReads[k].table == t)
                                  && Completes(pageReads, None)
      ensures Walk(pageReads, None) == Sorted(t)
    {
      PagesConcatenate(pageReads, t);
    }
  }

  lemma {:induction false} LosslessIsSafe(t: Table)
    requires Lossless(t)
    ensures Safe(t)
  {
    hide Completes, Walk, Sorted;
    var ones := seq(|t| + 1, i requires 0 <= i < |t| + 1 => Read(t, 1));
    assert Visible(t, None) == t;
    WalkCompletes(ones, t, None);
    assert Walk(ones, None) == Sorted(t);
    SortedIs(t);
    forall m, r | m in t && r in t && Below(r, m) ensures Below(r, Cursor(m)) { OneByOne(ones, t, None, m, r); }
  }

  /** A fixed table is paged without loss at every limit if and only if no row falls between another and its cursor. */
  lemma LosslessIffSafe(t: Table)
    ensures Lossless(t) <==> Safe(t)
  {
    hide Lossless, Safe;
    if Safe(t) { SafeIsLossless(t); }
    if Lossless(t) { LosslessIsSafe(t); }
  }

  /** Two rows in one millisecond: the cursor of the first skips the second. */
  lemma MisalignedRowIsLost()
    ensures var t := {Row(1_500, 2), Row(1_200, 1)};
      var pageReads := [Read(t, 1), Read(t, 1)];
      Completes(pageReads, None) && Row(1_200, 1) !in Walk(pageReads, None)
  {
    var a, b := Row(1_500, 2), Row(1_200, 1);
    var t := {a, b};
    assert Visible(t, None) == t;
    assert Max(t) == a && t - {a} == {b} && Max({b}) == b;
    assert Sorted({b}) == [b] + Sorted({b} - {b});
    assert Sorted(t) == [a, b];
    var p := ReadPage(t, None, 1);
    assert p == Page([a], Some(Row(1_000, 2)));
    assert Visible(t, p.next) == {};
    var pageReads := [Read(t, 1), Read(t, 1)];
    assert pageReads[1..] == [Read(t, 1)];
    assert Walk(pageReads[1..], p.next) == [];
  }
}
