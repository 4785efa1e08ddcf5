/**
 * The transfer lifecycle as a state machine: any number of activations of the transfer
 * service, Ledger posts and FX consumptions in flight, crashes between any two
 * transactions, and answers that may be lost.  A run is a sequence of events and `Next`
 * is total: an event that is not enabled changes nothing.
 */
module World {
  import opened Common
  import opened Transfers
  import Ledger
  import Fx

  const STALE_PROCESSING_MS := 30_000

  datatype PostState = Sent | LookedUp | Accepted(posting: nat) | Refused(failure: Ledger.Failure)

  /** One Ledger post request: in flight, past its idempotent lookup, or answered. */
  datatype Post = Post(command: Ledger.Command, state: PostState)

  datatype FxState = FxSent | FxAnswered(terms: Fx.Terms) | FxDeclined(failure: Fx.FxFailure)

  /** One consumption request; its transaction may begin at any time from when it is sent to when it commits. */
  datatype FxCall = FxCall(claim: Fx.Claim, state: FxState, sentAt: int)

  datatype Rejection = PayloadMismatch | KeyExpired

  /** Where an activation stands and the rows it has read. */
  datatype Activation =
    | Handling(request: Request, record: Record)
    | Transitioning
    | Reading
    | AskingAccount(snap: Transfer)
    | AwaitingLedger(snap: Transfer, post: nat)
    | Completing(posting: nat)
    | Failing(http: nat, reason: Reason)
    | Reconciling(force: bool)
    | AskingReference(snap: Transfer, force: bool)
    | Retrying(snap: Transfer, staleBefore: Option<int>)
    | PreparingRead
    | FxReady(snap: Transfer)
    | AwaitingFx(snap: Transfer, call: nat)
    | Preparing(snap: Transfer, terms: Fx.Terms)
    | FxFailing(http: nat, reason: Reason)
    | Rereading
    | Replied(reply: Reply)
    | Rejected(rejection: Rejection)

  /** The part of the system that belongs to one transfer. */
  datatype Cell = Cell(rows: Rows, acts: map<nat, Activation>, posts: map<nat, Post>, fxCalls: map<nat, FxCall>)

  /** A create request before its claim transaction. */
  datatype Intake = Intake(client: nat, key: Key, request: Request, looked: bool)

  datatype World = World(
    cells: map<nat, Cell>, intake: map<nat, Intake>, quotes: Fx.Quotes, ledger: Ledger.Ledger, now: int)

  const START := World(map[], map[], map[], Ledger.EMPTY, 0)

  datatype AccountAnswer = Wallets(sender: Wallet, recipient: Wallet) | AccountDown | AccountHttp(status: nat, code: nat)

  /** The nondeterminism of one activation step; `msg` names the message it may send. */
  datatype Choice =
    | Proceed(msg: nat)
    | AccountSays(answer: AccountAnswer, msg: nat)
    | Answered
    | NoAnswer

  datatype Event =
    | Arrive(act: nat, client: nat, key: Key, request: Request)
    | FindKey(act: nat, found: Option<nat>)
    | Insert(act: nat, id: nat)
    | InsertLost(act: nat, id: nat)
    | DropIntake(act: nat)
    | Step(id: nat, act: nat, choice: Choice)
    | Crash(id: nat, act: nat)
    | Reconcile(id: nat, act: nat, force: bool)
    | LedgerLookup(id: nat, post: nat)
    | LedgerRun(id: nat, post: nat)
    | LedgerAbort(id: nat, post: nat)
    | LosePost(id: nat, post: nat)
    | FxRun(id: nat, call: nat, late: nat)
    | LoseFx(id: nat, call: nat)
    | Tick(elapsed: nat)
    | Outside(event: Ledger.Event)
    | NewQuote(quoteId: nat, quote: Fx.Quote)
    | ReadQuote(quoteId: nat, client: nat)

  // ----- one activation step -----

  function AccountFailure(answer: AccountAnswer): (nat, Reason)
    requires !answer.Wallets?
  {
    match answer
    case AccountDown => (503, AccountServiceUnavailable)
    case AccountHttp(s, code) =>
      if s == 404 then (404, AccountRefused(code))
      else if s == 401 || s == 403 || s >= 500 then (503, AccountServiceUnavailable)
      else (s, AccountRefused(code))
  }

  function HandleExisting(request: Request, record: Record, now: int): Activation {
    if record.request != request then Rejected(PayloadMismatch)
    else if record.replayExpiresAt <= now then Rejected(KeyExpired)
    else if record.state != RecordProcessing && record.stored.Some? then Replied(record.stored.value)
    else Reconciling(false)
  }

  function AfterAccount(id: nat, c: Cell, act: nat, snap: Transfer, answer: AccountAnswer, msg: nat): Cell {
    if answer.Wallets? && ValidateWallets(snap, answer.sender, answer.recipient).None? then
      if msg in c.posts || snap.targetAmount.None? then c
      else c.(acts := c.acts[act := AwaitingLedger(snap, msg)],
              posts := c.posts[msg := Post(PostingCommand(id, snap), Sent)])
    else
      var (http, reason) :=
        if answer.Wallets? then ValidateWallets(snap, answer.sender, answer.recipient).value else AccountFailure(answer);
      c.(acts := c.acts[act := Failing(http, reason)])
  }

  function AfterLedger(id: nat, snap: Transfer, state: PostState): Activation
    requires state.Accepted? || state.Refused?
  {
    match state
    case Accepted(p) => Completing(p)
    case Refused(f) =>
      if Ledger.HttpStatus(f) >= 500 then Replied(ProcessingResult(id, snap))
      else Failing(if f == Ledger.InsufficientFunds then 422 else Ledger.HttpStatus(f), LedgerRefused(f))
  }

  function AfterFx(id: nat, snap: Transfer, state: FxState): Activation
    requires !state.FxSent?
  {
    match state
    case FxAnswered(terms) => Preparing(snap, terms)
    case FxDeclined(f) =>
      if Fx.FxStatus(f) == 403 || Fx.FxStatus(f) >= 500 then Replied(ProcessingResult(id, snap))
      else FxFailing(if Fx.FxStatus(f) == 404 then 404 else 409, FxRefused(f))
  }

  function AfterReference(id: nat, snap: Transfer, force: bool, posting: Option<nat>, now: int): Activation {
    if posting.Some? then Completing(posting.value)
    else if !force && snap.updatedAt > now - STALE_PROCESSING_MS then Replied(ProcessingResult(id, snap))
    else Retrying(snap, if force then None else Some(now - STALE_PROCESSING_MS))
  }

  /** The activations that only read rows or take an answer and decide what to do next. */
  predicate IsLocal(a: Activation) {
    a.Handling? || a.Reading? || a.AwaitingLedger? || a.Reconciling? || a.AskingReference? || a.PreparingRead?
    || a.AwaitingFx? || a.Rereading? || a.Replied? || a.Rejected?
  }

  function LocalStep(id: nat, c: Cell, a: Activation, choice: Choice, journal: seq<Ledger.Posting>, now: int): Activation
    requires IsLocal(a)
  {
    var t := c.rows.transfer;
    match a
    case Handling(request, record) => HandleExisting(request, record, now)
    case Reading => if t.status != Processing then Replied(ResultFor(id, t)) else AskingAccount(t)
    case AwaitingLedger(snap, p) =>
      if choice.NoAnswer? then Replied(ProcessingResult(id, snap))
      else if choice.Answered? && p in c.posts && (c.posts[p].state.Accepted? || c.posts[p].state.Refused?)
      then AfterLedger(id, snap, c.posts[p].state)
      else a
    case Reconciling(force) =>
      if t.status == Pending && t.kind == International then PreparingRead
      else if t.status != Processing then Replied(ResultFor(id, t))
      else AskingReference(t, force)
    case AskingReference(snap, force) =>
      if choice.NoAnswer? then Replied(ProcessingResult(id, snap))
      else if choice.Answered? then AfterReference(id, snap, force, Ledger.FindReference(journal, id), now)
      else a
    case PreparingRead => FxReady(t)
    case AwaitingFx(snap, f) =>
      if choice.NoAnswer? then Replied(ProcessingResult(id, snap))
      else if choice.Answered? && f in c.fxCalls && !c.fxCalls[f].state.FxSent? then AfterFx(id, snap, c.fxCalls[f].state)
      else a
    case Rereading => Replied(ResultFor(id, t))
    case _ => a
  }

  function ActStep(id: nat, c: Cell, act: nat, choice: Choice, journal: seq<Ledger.Posting>, now: int): Cell
    requires act in c.acts
  {
    var a := c.acts[act];
    if IsLocal(a) then c.(acts := c.acts[act := LocalStep(id, c, a, choice, journal, now)])
    else
      match a
      case Transitioning => c.(rows := Transition(c.rows, now), acts := c.acts[act := Reading])
      case AskingAccount(snap) =>
        if choice.AccountSays? then AfterAccount(id, c, act, snap, choice.answer, choice.msg) else c
      case Completing(p) =>
        var rows := Complete(id, c.rows, p, now);
        c.(rows := rows, acts := c.acts[act := Replied(ResultFor(id, rows.transfer))])
      case Failing(http, reason) => FailStep(id, c, act, http, reason, now)
      case FxFailing(http, reason) => FailStep(id, c, act, http, reason, now)
      case Retrying(snap, stale) =>
        c.(rows := ClaimRetry(c.rows, snap, stale, now),
           acts := c.acts[act := if Retryable(c.rows.transfer, snap, stale) then Reading else Rereading])
      case FxReady(snap) =>
        if snap.status != Pending || snap.kind != International || snap.quote.None?
        then c.(acts := c.acts[act := Replied(ResultFor(id, snap))])
        else if !choice.Proceed? || choice.msg in c.fxCalls then c
        else c.(acts := c.acts[act := AwaitingFx(snap, choice.msg)],
                fxCalls := c.fxCalls[choice.msg := FxCall(QuoteClaim(id, snap), FxSent, now)])
      case Preparing(snap, terms) =>
        c.(rows := Prepare(c.rows, snap, terms, now),
           acts := c.acts[act := if Preparable(c.rows.transfer) then Reading else Rereading])
      case _ => c
  }

  function FailStep(id: nat, c: Cell, act: nat, http: nat, reason: Reason, now: int): Cell {
    var rows := Fail(id, c.rows, http, reason, now);
    c.(rows := rows,
       acts := c.acts[act := Replied(if Open(c.rows.transfer.status) then Reply(http, ToResponse(id, rows.transfer))
                                     else ResultFor(id, rows.transfer))])
  }

  // ----- the whole system -----

  predicate HasKey(c: Cell, client: nat, key: Key) { c.rows.record.client == client && c.rows.record.key == key }

  predicate KeyFree(w: World, client: nat, key: Key) { forall i :: i in w.cells ==> !HasKey(w.cells[i], client, key) }

  predicate QuoteFree(w: World, quote: nat) {
    forall i :: i in w.cells ==> w.cells[i].rows.transfer.quote != Some(quote)
  }

  /** A new transfer id is random, so it names no transfer and no posting; the unique keys must be free. */
  predicate Insertable(w: World, i: Intake, id: nat) {
    && i.looked && id !in w.cells && Ledger.FindReference(w.ledger.journal, id).None?
    && KeyFree(w, i.client, i.key)
    && (i.request.InternationalRequest? ==> QuoteFree(w, i.request.quote))
    && TransferCheck(NewTransfer(i.client, i.request, w.now))
  }

  function NewCell(i: Intake, act: nat, now: int): Cell {
    var rows := ClaimRows(i.client, i.key, i.request, now);
    Cell(rows, map[act := if i.request.DomesticRequest? then Transitioning else FxReady(rows.transfer)], map[], map[])
  }

  /** Other callers of the ledger: never under a transfer id, and never an FX posting. */
  predicate OutsideAllowed(w: World, e: Ledger.Event) {
    match e
    case DoFund(r, _, _, _) => r !in w.cells
    case DoPost(c) => c.reference !in w.cells && c.kind != Ledger.FxTransfer
    case DoLatePost(c) => c.reference !in w.cells && c.kind != Ledger.FxTransfer
    case DoReverse(_, r) => r !in w.cells
    case _ => true
  }

  function WithCell(w: World, id: nat, c: Cell): World { w.(cells := w.cells[id := c]) }

  function Join(w: World, act: nat, id: nat): World
    requires act in w.intake && id in w.cells
  {
    var i, c := w.intake[act], w.cells[id];
    w.(intake := w.intake - {act},
       cells := w.cells[id := if act in c.acts then c else c.(acts := c.acts[act := Handling(i.request, c.rows.record)])])
  }

  function SetPost(c: Cell, p: nat, s: PostState): Cell
    requires p in c.posts
  {
    c.(posts := c.posts[p := c.posts[p].(state := s)])
  }

  function PostAnswer(r: Result<nat, Ledger.Failure>): PostState {
    match r
    case Ok(i) => Accepted(i)
    case Err(f) => Refused(f)
  }

  function FxAnswer(r: Result<Fx.Terms, Fx.FxFailure>): FxState {
    match r
    case Ok(terms) => FxAnswered(terms)
    case Err(f) => FxDeclined(f)
  }

  /**
   * What a consumption that commits now reads as its clock: the time at which its transaction began, `late` ago but
   * not before the call was sent.
   */
  function ClockOf(call: FxCall, late: nat, now: int): (clock: int)
    ensures clock <= now && (call.sentAt <= now ==> call.sentAt <= clock)
  {
    if call.sentAt <= now - late then now - late else if call.sentAt <= now then call.sentAt else now
  }

  predicate PostIn(w: World, id: nat, p: nat, s: PostState) {
    id in w.cells && p in w.cells[id].posts && w.cells[id].posts[p].state == s
  }

  ghost function Next(w: World, e: Event): World
    requires |w.ledger.balances| == |w.ledger.accounts|
  {
    match e
    case Arrive(a, client, key, request) =>
      if a in w.intake || !RequestAllowed(request) then w
      else w.(intake := w.intake[a := Intake(client, key, request, false)])
    case FindKey(a, found) =>
      if a !in w.intake then w
      else if found.Some? then
        if found.value in w.cells && HasKey(w.cells[found.value], w.intake[a].client, w.intake[a].key)
        then Join(w, a, found.value) else w
      else if KeyFree(w, w.intake[a].client, w.intake[a].key)
      then w.(intake := w.intake[a := w.intake[a].(looked := true)]) else w
    case Insert(a, id) =>
      if a in w.intake && Insertable(w, w.intake[a], id)
      then w.(intake := w.intake - {a}, cells := w.cells[id := NewCell(w.intake[a], a, w.now)]) else w
    case InsertLost(a, id) =>
      if a in w.intake && w.intake[a].looked && id in w.cells && HasKey(w.cells[id], w.intake[a].client, w.intake[a].key)
      then Join(w, a, id) else w
    case DropIntake(a) => w.(intake := w.intake - {a})
    case Step(id, a, choice) =>
      if id in w.cells && a in w.cells[id].acts
      then WithCell(w, id, ActStep(id, w.cells[id], a, choice, w.ledger.journal, w.now)) else w
    case Crash(id, a) =>
      if id in w.cells then WithCell(w, id, w.cells[id].(acts := w.cells[id].acts - {a})) else w
    case Reconcile(id, a, force) =>
      if id in w.cells && a !in w.cells[id].acts
      then WithCell(w, id, w.cells[id].(acts := w.cells[id].acts[a := Reconciling(force)])) else w
    case LedgerLookup(id, p) =>
      if !PostIn(w, id, p, Sent) then w else
        var c := w.cells[id];
        var answer := Ledger.Lookup(w.ledger, c.posts[p].command);
        WithCell(w, id, SetPost(c, p, if answer.None? then LookedUp else PostAnswer(answer.value)))
    case LedgerRun(id, p) =>
      if !PostIn(w, id, p, LookedUp) then w else
        var c := w.cells[id];
        var (ledger, answer) := Ledger.PostAfterLookup(w.ledger, c.posts[p].command);
        WithCell(w, id, SetPost(c, p, PostAnswer(answer))).(ledger := ledger)
    case LedgerAbort(id, p) =>
      if PostIn(w, id, p, LookedUp) then WithCell(w, id, SetPost(w.cells[id], p, Refused(Ledger.DatabaseError))) else w
    case LosePost(id, p) =>
      if PostIn(w, id, p, Sent) || PostIn(w, id, p, LookedUp)
      then WithCell(w, id, w.cells[id].(posts := w.cells[id].posts - {p})) else w
    case FxRun(id, f, late) =>
      if id in w.cells && f in w.cells[id].fxCalls && w.cells[id].fxCalls[f].state.FxSent? then
        var c := w.cells[id];
        var (quotes, answer) := Fx.Consume(w.quotes, c.fxCalls[f].claim, ClockOf(c.fxCalls[f], late, w.now));
        WithCell(w, id, c.(fxCalls := c.fxCalls[f := c.fxCalls[f].(state := FxAnswer(answer))])).(quotes := quotes)
      else w
    case LoseFx(id, f) =>
      if id in w.cells && f in w.cells[id].fxCalls && w.cells[id].fxCalls[f].state.FxSent?
      then WithCell(w, id, w.cells[id].(fxCalls := w.cells[id].fxCalls - {f})) else w
    case Tick(d) => w.(now := w.now + d)
    case Outside(le) => if OutsideAllowed(w, le) then w.(ledger := Ledger.Next(w.ledger, le)) else w
    case NewQuote(q, quote) =>
      if QuoteFree(w, q) && quote == Fx.NewQuote(quote.client, quote.sourceCurrency, quote.targetCurrency, quote.sourceAmount, quote.rate, w.now)
      then w.(quotes := Fx.CreateQuote(w.quotes, q, quote)) else w
    case ReadQuote(q, client) =>
      match Fx.GetQuote(w.quotes, client, q, w.now)
      case Ok(quotes) => w.(quotes := quotes)
      case Err(_) => w
  }
}
