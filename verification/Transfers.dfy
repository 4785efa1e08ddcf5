/**
 * The rows of one transfer and the transactions that change them.  A transfer, its
 * idempotency record and its history rows are written together, so they are one value
 * here; every function below is one database transaction.
 */
module Transfers {
  import opened Common
  import Ledger
  import Fx

  type Currency = nat

  datatype TransferType = Domestic | International
  datatype Status = Pending | Processing | Completed | Failed | Reversed
  datatype Role = Sender | Recipient

  /** The canonical request; its hash is modelled by the request itself. */
  datatype Request =
    | DomesticRequest(sender: nat, recipient: nat, amount: int, currency: Currency)
    | InternationalRequest(sender: nat, recipient: nat, sourceAmount: int, sourceCurrency: Currency,
                           targetCurrency: Currency, quote: nat)

  /** failure_code and failure_message, which are always written together. */
  datatype Reason =
    | AccountServiceUnavailable
    | AccountRefused(code: nat)
    | WalletAccessDenied
    | WalletUnavailable
    | CurrencyMismatch
    | FxRefused(fx: Fx.FxFailure)
    | LedgerRefused(ledger: Ledger.Failure)

  datatype Transfer = Transfer(
    client: nat, kind: TransferType, status: Status, sender: nat, recipient: nat,
    sourceCurrency: Currency, sourceAmount: int, targetCurrency: Currency, targetAmount: Option<int>,
    quote: Option<nat>, rate: Option<int>, posting: Option<nat>, failure: Option<Reason>,
    createdAt: int, updatedAt: int, completedAt: Option<int>, version: nat)

  datatype Response = Response(
    transfer: nat, status: Status, sourceAmount: int, sourceCurrency: Currency, targetAmount: Option<int>,
    targetCurrency: Currency, posting: Option<nat>, completedAt: Option<int>, quote: Option<nat>, rate: Option<int>,
    statusUrl: bool, failure: Option<Reason>)

  datatype Reply = Reply(http: nat, body: Response)

  datatype RecordState = RecordProcessing | RecordCompleted | RecordFailed

  /** Keys sent by callers, and those the payroll service derives from a job and an item. */
  datatype Key = CallerKey(value: nat) | PayrollKey(job: nat, item: nat)

  datatype Record = Record(
    client: nat, key: Key, request: Request, state: RecordState, stored: Option<Reply>, replayExpiresAt: int)

  datatype HistoryKey = HistoryKey(wallet: nat, role: Role)

  datatype HistoryRow = HistoryRow(
    counterparty: nat, status: Status, amount: int, currency: Currency, quote: Option<nat>, occurredAt: int)

  type History = map<HistoryKey, HistoryRow>

  datatype Rows = Rows(transfer: Transfer, record: Record, history: History)

  const REPLAY_WINDOW_MS := 24 * 60 * 60 * 1_000

  predicate Open(s: Status) { s == Pending || s == Processing }

  // ----- responses -----

  function ToResponse(id: nat, t: Transfer): Response {
    Response(id, t.status, t.sourceAmount, t.sourceCurrency, t.targetAmount, t.targetCurrency, t.posting, t.completedAt,
             t.quote, t.rate, Open(t.status), if t.status == Failed then t.failure else None)
  }

  function ProcessingResult(id: nat, t: Transfer): Reply { Reply(202, ToResponse(id, t)) }

  function ResultFor(id: nat, t: Transfer): Reply {
    Reply(if Open(t.status) then 202 else if t.status == Failed then 422 else 201, ToResponse(id, t))
  }

  // ----- the history projection -----

  function HistoryPair(t: Transfer, status: Status, target: int): History {
    map[HistoryKey(t.sender, Sender) := HistoryRow(t.recipient, status, t.sourceAmount, t.sourceCurrency, t.quote, t.createdAt),
        HistoryKey(t.recipient, Recipient) := HistoryRow(t.sender, status, target, t.targetCurrency, t.quote, t.createdAt)]
  }

  /** The definition of the projection: nothing until an international transfer knows its target amount. */
  function ExpectedRows(t: Transfer): History {
    if t.kind == International && t.targetAmount.None? then map[]
    else HistoryPair(t, t.status, if t.targetAmount.Some? then t.targetAmount.value else t.sourceAmount)
  }

  function SetStatus(h: History, s: Status): History { map k | k in h :: h[k].(status := s) }

  function SetStatusWhere(h: History, from: Status, to: Status): History {
    map k | k in h :: if h[k].status == from then h[k].(status := to) else h[k]
  }

  // ----- the transactions -----

  predicate RequestAllowed(r: Request) {
    match r
    case DomesticRequest(s, d, amount, _) => s != d && amount >= 0
    case InternationalRequest(s, d, amount, sc, tc, _) => s != d && sc != tc && amount >= 0
  }

  function NewTransfer(client: nat, r: Request, now: int): Transfer {
    match r
    case DomesticRequest(s, d, amount, c) =>
      Transfer(client, Domestic, Pending, s, d, c, amount, c, Some(amount), None, None, None, None, now, now, None, 0)
    case InternationalRequest(s, d, amount, sc, tc, q) =>
      Transfer(client, International, Pending, s, d, sc, amount, tc, None, Some(q), None, None, None, now, now, None, 0)
  }

  function ClaimRows(client: nat, key: Key, r: Request, now: int): Rows {
    var t := NewTransfer(client, r, now);
    Rows(t, Record(client, key, r, RecordProcessing, None, now + REPLAY_WINDOW_MS),
         if r.DomesticRequest? then HistoryPair(t, Pending, r.amount) else map[])
  }

  function Transition(r: Rows, now: int): Rows {
    if r.transfer.status != Pending then r
    else Rows(r.transfer.(status := Processing, version := r.transfer.version + 1, updatedAt := now), r.record,
              SetStatusWhere(r.history, Pending, Processing))
  }

  predicate Preparable(t: Transfer) { t.status == Pending && t.targetAmount.None? && t.rate.None? }

  /** `snap` is the transfer as read before the quote was consumed. */
  function Prepare(r: Rows, snap: Transfer, terms: Fx.Terms, now: int): Rows {
    if !Preparable(r.transfer) then r
    else Rows(
      r.transfer.(targetAmount := Some(terms.targetAmount), rate := Some(terms.rate), status := Processing,
                  version := r.transfer.version + 1, updatedAt := now),
      r.record,
      r.history + HistoryPair(snap, Processing, terms.targetAmount))
  }

  function Complete(id: nat, r: Rows, posting: nat, now: int): Rows {
    if r.transfer.status != Processing then r
    else
      var t := r.transfer.(status := Completed, posting := Some(posting), completedAt := Some(now),
                           version := r.transfer.version + 1, updatedAt := now);
      Rows(t, r.record.(state := RecordCompleted, stored := Some(Reply(201, ToResponse(id, t)))), SetStatus(r.history, Completed))
  }

  function Fail(id: nat, r: Rows, http: nat, reason: Reason, now: int): Rows {
    if !Open(r.transfer.status) then r
    else
      var t := r.transfer.(status := Failed, failure := Some(reason), version := r.transfer.version + 1, updatedAt := now);
      Rows(t,
           if r.record.state == RecordProcessing
           then r.record.(state := RecordFailed, stored := Some(Reply(http, ToResponse(id, t)))) else r.record,
           SetStatus(r.history, Failed))
  }

  predicate Retryable(t: Transfer, snap: Transfer, staleBefore: Option<int>) {
    && t.status == Processing && t.version == snap.version
    && (staleBefore.Some? ==> t.updatedAt <= staleBefore.value)
  }

  function ClaimRetry(r: Rows, snap: Transfer, staleBefore: Option<int>, now: int): Rows {
    if !Retryable(r.transfer, snap, staleBefore) then r
    else r.(transfer := r.transfer.(version := r.transfer.version + 1, updatedAt := now))
  }

  // ----- the guards of the database -----

  predicate TransferCheck(t: Transfer) {
    && t.sender != t.recipient
    && 0 < t.sourceAmount < NUMERIC_LIMIT && (t.targetAmount.Some? ==> 0 < t.targetAmount.value < NUMERIC_LIMIT)
    && (match t.kind
        case Domestic =>
          t.sourceCurrency == t.targetCurrency && t.targetAmount == Some(t.sourceAmount) && t.quote.None? && t.rate.None?
        case International =>
          && t.sourceCurrency != t.targetCurrency && t.quote.Some?
          && (if t.targetAmount.None? then t.rate.None? else t.rate.Some? && 0 < t.rate.value < NUMERIC_LIMIT))
    && (t.kind == International && t.status != Pending && t.status != Failed ==> t.targetAmount.Some? && t.rate.Some?)
    && (match t.status
        case Pending | Processing => t.posting.None? && t.completedAt.None? && t.failure.None?
        case Failed => t.posting.None? && t.completedAt.None? && t.failure.Some?
        case Completed | Reversed => t.posting.Some? && t.completedAt.Some? && t.failure.None?)
  }

  predicate SameCommand(t: Transfer, u: Transfer) {
    && t.client == u.client && t.kind == u.kind && t.sender == u.sender && t.recipient == u.recipient
    && t.sourceCurrency == u.sourceCurrency && t.sourceAmount == u.sourceAmount
    && t.targetCurrency == u.targetCurrency && t.quote == u.quote && t.createdAt == u.createdAt
  }

  /** The update trigger of the transfers table. */
  predicate UpdateGuard(was: Transfer, next: Transfer) {
    && SameCommand(was, next.(createdAt := was.createdAt))
    && (was.targetAmount != next.targetAmount || was.rate != next.rate ==>
          && was.kind == International && was.status == Pending && next.status == Processing
          && was.targetAmount.None? && was.rate.None?
          && next.targetAmount.Some? && next.targetAmount.value > 0 && next.rate.Some? && next.rate.value > 0)
    && (was.status != next.status ==>
          || (was.status == Pending && next.status in {Processing, Failed})
          || (was.status == Processing && next.status in {Completed, Failed})
          || (was.status == Completed && next.status == Reversed))
  }

  predicate RecordCheck(r: Record) { r.state == RecordProcessing <==> r.stored.None? }

  predicate RecordGuard(was: Record, next: Record) {
    && was.client == next.client && was.key == next.key && was.request == next.request
    && (was.state != next.state ==> was.state == RecordProcessing)
  }

  // ----- the joint invariant of the rows -----

  function StateFor(s: Status): RecordState {
    match s
    case Pending | Processing => RecordProcessing
    case Completed | Reversed => RecordCompleted
    case Failed => RecordFailed
  }

  predicate RequestOf(t: Transfer, r: Request) {
    match r
    case DomesticRequest(s, d, amount, c) =>
      t.kind == Domestic && t.sender == s && t.recipient == d && t.sourceAmount == amount && t.sourceCurrency == c && t.targetCurrency == c
    case InternationalRequest(s, d, amount, sc, tc, q) =>
      && t.kind == International && t.sender == s && t.recipient == d && t.sourceAmount == amount
      && t.sourceCurrency == sc && t.targetCurrency == tc && t.quote == Some(q)
  }

  /**
   * The rows agree: the row and record CHECKs hold, the idempotency state mirrors the status, a terminal
   * record stores exactly the response of the terminal transfer, and the history is its definition.
   */
  predicate RowsOk(id: nat, r: Rows) {
    && TransferCheck(r.transfer) && r.transfer.status != Reversed
    && (r.transfer.kind == International && r.transfer.status == Pending ==> r.transfer.targetAmount.None?)
    && RecordCheck(r.record) && r.record.state == StateFor(r.transfer.status)
    && (r.record.stored.Some? ==> r.record.stored.value.body == ToResponse(id, r.transfer))
    && (r.transfer.status == Completed ==> r.record.stored == Some(Reply(201, ToResponse(id, r.transfer))))
    && r.record.client == r.transfer.client && RequestOf(r.transfer, r.record.request)
    && r.record.replayExpiresAt == r.transfer.createdAt + REPLAY_WINDOW_MS
    && r.history == ExpectedRows(r.transfer)
  }

  /** How rows may change: by the guards, never out of a terminal status, not at all once terminal, and always under a new version. */
  predicate RowsEvolve(r: Rows, r': Rows) {
    && UpdateGuard(r.transfer, r'.transfer) && SameCommand(r.transfer, r'.transfer)
    && RecordGuard(r.record, r'.record) && r.record.replayExpiresAt == r'.record.replayExpiresAt
    && (r' == r || r.transfer.version < r'.transfer.version)
    && (!Open(r.transfer.status) ==> r' == r)
    && (r.transfer.status == Processing ==> r'.transfer.status != Pending)
    && (r.transfer.targetAmount.Some? ==> r'.transfer.targetAmount == r.transfer.targetAmount && r'.transfer.rate == r.transfer.rate)
  }

  lemma ClaimIsOk(id: nat, client: nat, key: Key, r: Request, now: int)
    requires RequestAllowed(r) && TransferCheck(NewTransfer(client, r, now))
    ensures RowsOk(id, ClaimRows(client, key, r, now))
  {
  }

  /** The PENDING to PROCESSING step is only ever asked of a domestic transfer. */
  lemma TransitionIsOk(id: nat, r: Rows, now: int)
    requires RowsOk(id, r) && r.transfer.kind == Domestic
    ensures RowsOk(id, Transition(r, now)) && RowsEvolve(r, Transition(r, now))
  {
  }

  lemma PrepareIsOk(id: nat, r: Rows, snap: Transfer, terms: Fx.Terms, now: int)
    requires RowsOk(id, r) && SameCommand(snap, r.transfer) && r.transfer.kind == International
    requires 0 < terms.targetAmount < NUMERIC_LIMIT && 0 < terms.rate < NUMERIC_LIMIT
    ensures RowsOk(id, Prepare(r, snap, terms, now)) && RowsEvolve(r, Prepare(r, snap, terms, now))
  {
  }

  lemma CompleteIsOk(id: nat, r: Rows, posting: nat, now: int)
    requires RowsOk(id, r)
    ensures RowsOk(id, Complete(id, r, posting, now)) && RowsEvolve(r, Complete(id, r, posting, now))
  {
  }

  /** A failure before preparation leaves no history rows; after it, both rows turn FAILED. */
  lemma FailIsOk(id: nat, r: Rows, http: nat, reason: Reason, now: int)
    requires RowsOk(id, r)
    ensures RowsOk(id, Fail(id, r, http, reason, now)) && RowsEvolve(r, Fail(id, r, http, reason, now))
  {
  }

  lemma ClaimRetryIsOk(id: nat, r: Rows, snap: Transfer, staleBefore: Option<int>, now: int)
    requires RowsOk(id, r)
    ensures RowsOk(id, ClaimRetry(r, snap, staleBefore, now)) && RowsEvolve(r, ClaimRetry(r, snap, staleBefore, now))
  {
  }

  // ----- why a transfer may fail -----

  /**
   * The failures that may be recorded and the status each is answered with: a server error of the Ledger, and a 403 or
   * server error of the FX service, never fail a transfer.
   */
  predicate Cause(http: nat, reason: Reason) {
    match reason
    case AccountServiceUnavailable => http == 503
    case AccountRefused(_) => http != 401 && http != 403 && http < 500
    case WalletAccessDenied => http == 403
    case WalletUnavailable => http == 409
    case CurrencyMismatch => http == 409
    case FxRefused(f) => Fx.FxStatus(f) != 403 && Fx.FxStatus(f) < 500 && http == if Fx.FxStatus(f) == 404 then 404 else 409
    case LedgerRefused(f) => Ledger.HttpStatus(f) < 500 && http == Ledger.HttpStatus(f)
  }

  /** A FAILED transfer has a cause, and its stored reply the status of that cause. */
  predicate FailureOk(r: Rows) {
    r.transfer.status == Failed ==>
      r.transfer.failure.Some? && r.record.stored.Some? && Cause(r.record.stored.value.http, r.transfer.failure.value)
  }

  // ----- the posting a transfer asks for -----

  /** The command of every Ledger attempt; it depends on immutable columns only. */
  function PostingCommand(id: nat, t: Transfer): Ledger.Command
    requires t.targetAmount.Some?
  {
    Ledger.Command(
      id, if t.kind == International then Ledger.FxTransfer else Ledger.TransferPosting,
      t.sourceCurrency, t.targetCurrency, t.sourceAmount, t.targetAmount.value,
      if t.kind == International then t.quote else None, if t.kind == International then t.rate else None,
      [ Ledger.Line(t.sender, Ledger.Debit, t.sourceAmount, t.sourceCurrency),
        Ledger.Line(t.recipient, Ledger.Credit, t.targetAmount.value, t.targetCurrency) ])
  }

  function QuoteClaim(id: nat, t: Transfer): Fx.Claim
    requires t.quote.Some?
  {
    Fx.Claim(t.quote.value, id, t.client, t.sourceCurrency, t.targetCurrency, t.sourceAmount)
  }

  // ----- wallet validation -----

  datatype Wallet = Wallet(owner: nat, currency: Currency, active: bool, provisioned: bool)

  /** None when both wallets may be used, otherwise the HTTP status and reason of the failure. */
  function ValidateWallets(t: Transfer, sender: Wallet, recipient: Wallet): Option<(nat, Reason)> {
    if sender.owner != t.client then Some((403, WalletAccessDenied))
    else if !sender.active || !recipient.active || !sender.provisioned || !recipient.provisioned then Some((409, WalletUnavailable))
    else if sender.currency != t.sourceCurrency || recipient.currency != t.targetCurrency then Some((409, CurrencyMismatch))
    else None
  }
}
