/** FX quotes: timed, single-use tokens whose terms never change. */
module Fx {
  import opened Common

  datatype QuoteStatus = QuoteActive | QuoteConsumed | QuoteExpiredStatus

  datatype Quote = Quote(
    client: nat, sourceCurrency: nat, targetCurrency: nat, sourceAmount: int, targetAmount: int, rate: int,
    status: QuoteStatus, issuedAt: int, expiresAt: int, consumedAt: Option<int>, consumedBy: Option<nat>)

  type Quotes = map<nat, Quote>

  datatype Terms = Terms(targetAmount: int, rate: int)

  /** The fields a transfer presents when it consumes its quote. */
  datatype Claim = Claim(quote: nat, transfer: nat, client: nat, sourceCurrency: nat, targetCurrency: nat, sourceAmount: int)

  datatype FxFailure = QuoteNotFound | QuoteAccessDenied | QuoteDetailsMismatch | QuoteAlreadyUsed | QuoteExpired | FxDatabaseError
                     | SameCurrencyQuote

  function FxStatus(f: FxFailure): nat {
    match f
    case QuoteNotFound => 404
    case QuoteAccessDenied => 403
    case FxDatabaseError => 500
    case _ => 409
  }

  const QUOTE_TTL_MS := 60_000
  const RATE_UNIT: int := 1_000_000_000_000

  function TermsOf(q: Quote): Terms { Terms(q.targetAmount, q.rate) }

  /** Product of an amount and a rate, rounded half up to eight decimals. */
  function Converted(amount: int, rate: int): int { (amount * rate + RATE_UNIT / 2) / RATE_UNIT }

  /** The quoted amount is the exact product to within half a unit of the last place, and an exact half goes up. */
  lemma ConvertedIsNearest(amount: int, rate: int)
    requires amount >= 0 && rate >= 0
    ensures var error := Converted(amount, rate) * RATE_UNIT - amount * rate;
      -RATE_UNIT < 2 * error <= RATE_UNIT
  {
    var product := amount * rate;
    var sum := product + RATE_UNIT / 2;
    assert sum == sum / RATE_UNIT * RATE_UNIT + sum % RATE_UNIT;
  }

  function NewQuote(client: nat, sc: nat, tc: nat, amount: int, rate: int, now: int): Quote {
    Quote(client, sc, tc, amount, Converted(amount, rate), rate, QuoteActive, now, now + QUOTE_TTL_MS, None, None)
  }

  predicate QuoteCheck(q: Quote) {
    && q.sourceCurrency != q.targetCurrency
    && 0 < q.sourceAmount < NUMERIC_LIMIT && 0 < q.targetAmount < NUMERIC_LIMIT && 0 < q.rate < NUMERIC_LIMIT
    && q.expiresAt == q.issuedAt + QUOTE_TTL_MS
    && (q.status == QuoteConsumed <==> q.consumedAt.Some? && q.consumedBy.Some?)
  }

  function CreateQuote(quotes: Quotes, id: nat, q: Quote): Quotes {
    if id !in quotes && QuoteCheck(q) then quotes[id := q] else quotes
  }

  predicate Live(q: Quote, now: int) { q.status == QuoteActive && now < q.expiresAt }

  function GetQuote(quotes: Quotes, client: nat, id: nat, now: int): Result<Quotes, FxFailure> {
    if id !in quotes then Err(QuoteNotFound)
    else if quotes[id].client != client then Err(QuoteAccessDenied)
    else if quotes[id].status == QuoteActive && quotes[id].expiresAt <= now
    then Ok(quotes[id := quotes[id].(status := QuoteExpiredStatus)])
    else Ok(quotes)
  }

  predicate Matches(q: Quote, c: Claim) {
    q.sourceCurrency == c.sourceCurrency && q.targetCurrency == c.targetCurrency && q.sourceAmount == c.sourceAmount
  }

  /** The atomic consume transaction; a refusal rolls back even the EXPIRED mark that precedes it. */
  function Consume(quotes: Quotes, c: Claim, now: int): (Quotes, Result<Terms, FxFailure>) {
    if c.quote !in quotes then (quotes, Err(QuoteNotFound)) else
      var q := quotes[c.quote];
      if q.client != c.client then (quotes, Err(QuoteAccessDenied))
      else if !Matches(q, c) then (quotes, Err(QuoteDetailsMismatch))
      else if q.status == QuoteConsumed then
        (quotes, if q.consumedBy == Some(c.transfer) then Ok(TermsOf(q)) else Err(QuoteAlreadyUsed))
      else if q.status == QuoteExpiredStatus || q.expiresAt <= now then (quotes, Err(QuoteExpired))
      else if q.consumedBy.Some? then
        (quotes, if q.consumedBy == Some(c.transfer) then Ok(TermsOf(q)) else Err(QuoteAlreadyUsed))
      else if exists i :: i in quotes && quotes[i].consumedBy == Some(c.transfer) then (quotes, Err(FxDatabaseError))
      else (quotes[c.quote := q.(status := QuoteConsumed, consumedAt := Some(now), consumedBy := Some(c.transfer))], Ok(TermsOf(q)))
  }

  // ----- what the quote table keeps -----

  predicate QuoteOk(q: Quote) {
    && QuoteCheck(q)
    && (q.status != QuoteConsumed ==> q.consumedAt.None? && q.consumedBy.None?)
    && (q.consumedAt.Some? ==> q.consumedAt.value < q.expiresAt)
  }

  predicate QuotesOk(quotes: Quotes) {
    && (forall i :: i in quotes ==> QuoteOk(quotes[i]))
    && (forall i, j :: i in quotes && j in quotes && i != j && quotes[i].consumedBy.Some? ==>
          quotes[i].consumedBy != quotes[j].consumedBy)
  }

  /** Terms are immutable and status moves only as the update guard allows. */
  predicate QuoteEvolves(q: Quote, q': Quote) {
    && q'.(status := q.status, consumedAt := q.consumedAt, consumedBy := q.consumedBy) == q
    && (q.status == q'.status || (q.status == QuoteActive && q'.status != QuoteActive))
    && (q.status == QuoteConsumed ==> q' == q)
  }

  predicate QuotesEvolve(quotes: Quotes, quotes': Quotes) {
    forall i :: i in quotes ==> i in quotes' && QuoteEvolves(quotes[i], quotes'[i])
  }

  /** A consumption happens strictly before expiry, binds one transfer and changes nothing but the claim columns. */
  lemma ConsumeKeeps(quotes: Quotes, c: Claim, now: int)
    requires QuotesOk(quotes)
    ensures QuotesOk(Consume(quotes, c, now).0) && QuotesEvolve(quotes, Consume(quotes, c, now).0)
    ensures Consume(quotes, c, now).1.Ok? ==>
      && c.quote in quotes && quotes[c.quote].client == c.client && Matches(quotes[c.quote], c)
      && Consume(quotes, c, now).0[c.quote].status == QuoteConsumed
      && Consume(quotes, c, now).0[c.quote].consumedBy == Some(c.transfer)
      && Consume(quotes, c, now).1.value == TermsOf(quotes[c.quote])
      && (quotes[c.quote].status != QuoteConsumed ==> now < quotes[c.quote].expiresAt)
    ensures Consume(quotes, c, now).1.Err? ==> Consume(quotes, c, now).0 == quotes
  {
  }

  lemma CreateKeeps(quotes: Quotes, id: nat, q: Quote)
    requires QuotesOk(quotes) && q.status == QuoteActive && q.consumedAt.None? && q.consumedBy.None?
    ensures QuotesOk(CreateQuote(quotes, id, q)) && QuotesEvolve(quotes, CreateQuote(quotes, id, q))
  {
  }

  lemma GetKeeps(quotes: Quotes, client: nat, id: nat, now: int)
    requires QuotesOk(quotes) && GetQuote(quotes, client, id, now).Ok?
    ensures QuotesOk(GetQuote(quotes, client, id, now).value) && QuotesEvolve(quotes, GetQuote(quotes, client, id, now).value)
    ensures GetQuote(quotes, client, id, now).value.Keys == quotes.Keys
  {
  }

  /** Once consumed, the same transfer gets the same terms at any later time, in any later table. */
  lemma RetryGetsSameTerms(quotes: Quotes, c: Claim, now: int, later: Quotes, at: int)
    requires QuotesOk(quotes) && Consume(quotes, c, now).1.Ok?
    requires QuotesEvolve(Consume(quotes, c, now).0, later)
    ensures Consume(later, c, at) == (later, Consume(quotes, c, now).1)
  {
    ConsumeKeeps(quotes, c, now);
  }

  // ----- what each request is answered with -----

  /**
   * A read finds nothing for an unknown quote and is refused to another client; it marks an ACTIVE quote whose time is
   * over EXPIRED, and leaves every other quote, a live one among them, exactly as it is.
   */
  lemma GetDecides(quotes: Quotes, client: nat, id: nat, now: int)
    ensures var r := GetQuote(quotes, client, id, now);
      && (r == Err(QuoteNotFound) <==> id !in quotes)
      && (r == Err(QuoteAccessDenied) <==> id in quotes && quotes[id].client != client)
      && (r.Ok? <==> id in quotes && quotes[id].client == client)
      && (r.Ok? ==>
            && r.value.Keys == quotes.Keys && (forall q :: q in quotes && q != id ==> r.value[q] == quotes[q])
            && (if quotes[id].status == QuoteActive && now >= quotes[id].expiresAt
                then r.value[id] == quotes[id].(status := QuoteExpiredStatus) else r.value[id] == quotes[id]))
  {
  }

  /** No other quote has been consumed by this transfer. */
  predicate Unspent(quotes: Quotes, c: Claim) { forall i :: i in quotes && i != c.quote ==> quotes[i].consumedBy != Some(c.transfer) }

  /**
   * A claim succeeds exactly on a quote of its own client with its own details that is live, or that this very transfer
   * has consumed; and of the refusals the unknown quote comes first, then the other client, then the details.
   */
  lemma ConsumeDecides(quotes: Quotes, c: Claim, now: int)
    requires QuotesOk(quotes)
    ensures var r := Consume(quotes, c, now).1;
      && (r == Err(QuoteNotFound) <==> c.quote !in quotes)
      && (r == Err(QuoteAccessDenied) <==> c.quote in quotes && quotes[c.quote].client != c.client)
      && (c.quote in quotes && quotes[c.quote].client == c.client ==>
            var q := quotes[c.quote];
            var same := q.sourceCurrency == c.sourceCurrency && q.targetCurrency == c.targetCurrency && q.sourceAmount == c.sourceAmount;
            && (r == Err(QuoteDetailsMismatch) <==> !same)
            && (same ==>
                  match q.status
                  case QuoteConsumed => r == if q.consumedBy == Some(c.transfer) then Ok(TermsOf(q)) else Err(QuoteAlreadyUsed)
                  case QuoteExpiredStatus => r == Err(QuoteExpired)
                  case QuoteActive =>
                    r == if now >= q.expiresAt then Err(QuoteExpired) else if Unspent(quotes, c) then Ok(TermsOf(q)) else Err(FxDatabaseError)))
  {
  }

  // ----- permanent refusals -----

  /** No later consumption under this claim can succeed. */
  predicate Doomed(quotes: Quotes, c: Claim, now: int) {
    || c.quote !in quotes
    || !Matches(quotes[c.quote], c)
    || (quotes[c.quote].status == QuoteConsumed && quotes[c.quote].consumedBy != Some(c.transfer))
    || (quotes[c.quote].status != QuoteConsumed && quotes[c.quote].expiresAt <= now)
    || quotes[c.quote].status == QuoteExpiredStatus
  }

  lemma DoomedStays(quotes: Quotes, quotes': Quotes, c: Claim, now: int, now': int)
    requires Doomed(quotes, c, now) && QuotesEvolve(quotes, quotes') && now <= now'
    requires QuotesOk(quotes) && QuotesOk(quotes')
    requires c.quote in quotes' ==> c.quote in quotes
    requires c.quote in quotes && quotes[c.quote].status != QuoteConsumed && quotes'[c.quote].status == QuoteConsumed ==>
      quotes'[c.quote].consumedAt.value >= now
    ensures Doomed(quotes', c, now')
  {
  }

  /**
   * A definite refusal is permanent: whatever becomes of the table, no consumption under this claim that begins
   * later succeeds.
   */
  lemma RefusalIsFinal(quotes: Quotes, c: Claim, now: int, later: Quotes, at: int)
    requires QuotesOk(quotes) && QuotesOk(later) && QuotesEvolve(quotes, later) && now <= at
    requires Consume(quotes, c, now).1.Err? && FxStatus(Consume(quotes, c, now).1.error) != 403
    requires FxStatus(Consume(quotes, c, now).1.error) < 500
    requires c.quote in later ==> c.quote in quotes
    requires c.quote in quotes && quotes[c.quote].status != QuoteConsumed && later[c.quote].status == QuoteConsumed ==>
      later[c.quote].consumedAt.value >= now
    ensures Consume(later, c, at).1.Err?
  {
    assert Doomed(quotes, c, now);
    DoomedStays(quotes, later, c, now, at);
  }
}
