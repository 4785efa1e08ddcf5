/**
 * The optimistic lock of reconcile.  Every write of a transfer takes a new version, so a retry claim succeeds only on
 * the very row its activation has read, and at most one of all the activations that have read a version can claim.
 */
module RetryClaims {
  import opened Common
  import opened Transfers
  import opened World
  import opened WorldInvariant
  import opened WorldRuns
  import opened WorldTheorems
  import LedgerInvariant

  /** Activation `a` is about to retry with the row it has read. */
  predicate ReadyToClaim(w: World, id: nat, a: nat) {
    id in w.cells && a in w.cells[id].acts && w.cells[id].acts[a].Retrying?
  }

  function SnapOf(w: World, id: nat, a: nat): Transfer
    requires ReadyToClaim(w, id, a)
  {
    w.cells[id].acts[a].snap
  }

  /** The next step of `a` goes on to process(); otherwise it only reads the row again. */
  ghost predicate Claims(w: World, id: nat, a: nat, choice: Choice)
    requires |w.ledger.balances| == |w.ledger.accounts| && ReadyToClaim(w, id, a)
  {
    var w' := Next(w, Step(id, a, choice));
    id in w'.cells && a in w'.cells[id].acts && w'.cells[id].acts[a].Reading?
  }

  /** Every write of a transfer takes a version it has never had, over any stretch of any run. */
  lemma {:induction false} VersionsGrow(events: seq<Event>, n: nat, id: nat)
    requires n <= |events| && id in Run(events[..n]).cells
    ensures id in Run(events).cells
    ensures var t, t' := Run(events[..n]).cells[id].rows.transfer, Run(events).cells[id].rows.transfer;
      t.version <= t'.version && (t.version == t'.version ==> Run(events).cells[id].rows == Run(events[..n]).cells[id].rows)
  {
    RowsPersist(events, n, id);
  }

  /** What a claim does to the row, and when it succeeds. */
  lemma {:induction false} ClaimStep(w: World, id: nat, a: nat, choice: Choice)
    requires |w.ledger.balances| == |w.ledger.accounts| && ReadyToClaim(w, id, a)
    ensures var t := w.cells[id].rows.transfer;
      var stale := w.cells[id].acts[a].staleBefore;
      && (Claims(w, id, a, choice) <==>
            t.status == Processing && t.version == SnapOf(w, id, a).version && (stale.Some? ==> t.updatedAt <= stale.value))
      && (if Claims(w, id, a, choice)
          then Next(w, Step(id, a, choice)).cells[id].rows == w.cells[id].rows.(transfer := t.(version := t.version + 1, updatedAt := w.now))
          else Next(w, Step(id, a, choice)).cells[id].rows == w.cells[id].rows)
  {
  }

  /** A claim succeeds only if no column of the transfer has changed since it was read. */
  lemma {:induction false} ClaimSeesItsRow(events: seq<Event>, id: nat, a: nat, choice: Choice)
    requires ReadyToClaim(Run(events), id, a) && Claims(Run(events), id, a, choice)
    ensures SnapOf(Run(events), id, a) == Run(events).cells[id].rows.transfer
  {
    hide Run, LedgerInvariant.Inv, KeysUnique, QuotesUnique;
    var w := Run(events);
    ReachableInv(events);
    ClaimStep(w, id, a, choice);
    assert CellOk(id, w.cells[id], w.ledger, w.quotes);
    assert ActOk(id, w.cells[id].rows, w.cells[id].acts[a], w.ledger.journal, w.quotes);
  }

  /** After one activation has claimed on a version, no other that has read this version, or an older one, ever claims. */
  lemma {:induction false} OneClaimPerVersion(events: seq<Event>, n: nat, id: nat, a: nat, b: nat, choice: Choice, other: Choice)
    requires n < |events| && events[n] == Step(id, a, choice)
    requires ReadyToClaim(Run(events[..n]), id, a) && Claims(Run(events[..n]), id, a, choice)
    requires ReadyToClaim(Run(events), id, b) && SnapOf(Run(events), id, b).version <= SnapOf(Run(events[..n]), id, a).version
    ensures !Claims(Run(events), id, b, other)
  {
    hide Run, Next, SnapOf, Claims;
    ClaimStep(Run(events[..n]), id, a, choice);
    assert events[..n + 1] == events[..n] + [events[n]];
    RunStep(events[..n], events[n]);
    ClaimRaises(Run(events[..n]), id, a, choice);
    VersionsGrow(events, n + 1, id);
    ClaimStep(Run(events), id, b, other);
  }

  lemma {:induction false} ClaimRaises(w: World, id: nat, a: nat, choice: Choice)
    requires |w.ledger.balances| == |w.ledger.accounts| && ReadyToClaim(w, id, a) && Claims(w, id, a, choice)
    ensures id in Next(w, Step(id, a, choice)).cells
    ensures Next(w, Step(id, a, choice)).cells[id].rows.transfer.version > SnapOf(w, id, a).version
  {
    ClaimStep(w, id, a, choice);
  }

  /**
   * A reconcile that finds no posting retries at once when it is forced; otherwise only a row that was last written
   * thirty seconds ago or more, and its claim asks for that again.  One that finds the posting completes with it.
   */
  lemma {:induction false} ReconcileDecides(w: World, id: nat, a: nat)
    requires |w.ledger.balances| == |w.ledger.accounts| && id in w.cells && a in w.cells[id].acts
    requires w.cells[id].acts[a].AskingReference?
    ensures var w' := Next(w, Step(id, a, Answered));
      && id in w'.cells && a in w'.cells[id].acts
      && var snap, force, act := w.cells[id].acts[a].snap, w.cells[id].acts[a].force, w'.cells[id].acts[a];
         if exists k :: 0 <= k < |w.ledger.journal| && w.ledger.journal[k].body.reference == id then
           act.Completing? && act.posting < |w.ledger.journal| && w.ledger.journal[act.posting].body.reference == id
         else if force then act == Retrying(snap, None)
         else if w.now - snap.updatedAt < 30_000 then act.Replied? && act.reply.http == 202 && act.reply.body.transfer == id
         else act == Retrying(snap, Some(w.now - 30_000))
  {
  }
}
