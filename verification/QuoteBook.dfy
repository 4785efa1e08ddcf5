/** The quote table updated in place, with the rollback that a throw inside a transaction brings. */
module QuoteBook {
  import opened Common
  import opened Fx

  /**
   * Consume as two statements: the row is read in `before` and claimed by a conditional update in `after`,
   * with other transactions in between.
   */
  function ConsumeSplit(before: Quotes, after: Quotes, c: Claim, now: int): (Quotes, Result<Terms, FxFailure>) {
    if c.quote !in before then (after, Err(QuoteNotFound)) else
      var q := before[c.quote];
      if q.client != c.client then (after, Err(QuoteAccessDenied))
      else if !Matches(q, c) then (after, Err(QuoteDetailsMismatch))
      else if q.status == QuoteConsumed then
        (after, if q.consumedBy == Some(c.transfer) then Ok(TermsOf(q)) else Err(QuoteAlreadyUsed))
      else if q.status == QuoteExpiredStatus || q.expiresAt <= now then (after, Err(QuoteExpired))
      else if c.quote in after && after[c.quote].status == QuoteActive && now < after[c.quote].expiresAt && after[c.quote].consumedBy.None? then
        if exists i :: i in after && after[i].consumedBy == Some(c.transfer) then (after, Err(FxDatabaseError))
        else (after[c.quote := after[c.quote].(status := QuoteConsumed, consumedAt := Some(now), consumedBy := Some(c.transfer))],
              Ok(TermsOf(after[c.quote])))
      else if c.quote in after && after[c.quote].consumedBy == Some(c.transfer) then (after, Ok(TermsOf(after[c.quote])))
      else (after, Err(QuoteAlreadyUsed))
  }

  /**
   * However the two statements interleave with others, they amount to one atomic consumption at the second
   * statement, or to a refusal decided at the first; only the code of a refusal with the same HTTP status may differ.
   */
  lemma SplitConsumeIsAtomic(before: Quotes, after: Quotes, c: Claim, now: int)
    requires QuotesOk(before) && QuotesOk(after) && QuotesEvolve(before, after)
    ensures var (split, r) := ConsumeSplit(before, after, c, now);
      var (whole, s) := Consume(after, c, now);
      || (split == whole && (r == s || (r.Err? && s.Err? && FxStatus(r.error) == FxStatus(s.error))))
      || (split == after && r.Err? && Consume(before, c, now).1 == r)
  {
    if c.quote in before {
      assert QuoteOk(before[c.quote]) && QuoteOk(after[c.quote]) && QuoteEvolves(before[c.quote], after[c.quote]);
    }
  }

  class QuoteTable {
    var quotes: Quotes

    constructor ()
      ensures quotes == map[]
    {
      quotes := map[];
    }

    ghost predicate Valid() reads this { QuotesOk(quotes) }

    /** create: one currency is refused outright, and terms that make no sense by the CHECKs of the row. */
    method Create(id: nat, client: nat, sc: nat, tc: nat, amount: int, rate: int, now: int) returns (r: Result<Quote, FxFailure>)
      requires Valid() && id !in quotes
      modifies this
      ensures Valid() && quotes == CreateQuote(old(quotes), id, Fx.NewQuote(client, sc, tc, amount, rate, now))
      ensures sc == tc ==> r == Err(SameCurrencyQuote)
      ensures r.Err? ==> quotes == old(quotes)
      ensures r.Ok? ==>
        && r.value.client == client && r.value.sourceCurrency == sc && r.value.targetCurrency == tc
        && r.value.sourceAmount == amount && r.value.rate == rate && r.value.consumedBy.None?
        && -RATE_UNIT < 2 * (r.value.targetAmount * RATE_UNIT - amount * rate) <= RATE_UNIT && r.value.expiresAt - now == 60_000
      ensures r.Ok? ==> quotes == old(quotes)[id := r.value] && Live(r.value, now) && r.value.expiresAt == now + QUOTE_TTL_MS
      ensures r.Ok? <==>
        && sc != tc && 0 < amount < NUMERIC_LIMIT && 0 < rate < NUMERIC_LIMIT && 0 < Converted(amount, rate) < NUMERIC_LIMIT
    {
      if sc == tc { return Err(SameCurrencyQuote); }
      var q := Quote(client, sc, tc, amount, Converted(amount, rate), rate, QuoteActive, now, now + QUOTE_TTL_MS, None, None);
      if !QuoteCheck(q) { return Err(FxDatabaseError); }
      CreateKeeps(quotes, id, q);
      ConvertedIsNearest(amount, rate);
      quotes := quotes[id := q];
      r := Ok(q);
    }

    /** get: an ACTIVE quote past its time is marked EXPIRED, and the mark stays. */
    method Get(client: nat, id: nat, now: int) returns (r: Result<Quote, FxFailure>)
      requires Valid()
      modifies this
      ensures Valid() && QuotesEvolve(old(quotes), quotes)
      ensures match GetQuote(old(quotes), client, id, now)
        case Ok(after) => quotes == after && r == Ok(after[id]) && (r.value.status == QuoteActive ==> now < r.value.expiresAt)
        case Err(f) => quotes == old(quotes) && r == Err(f)
      ensures r.Ok? <==> id in old(quotes) && old(quotes)[id].client == client
      ensures r.Ok? ==>
        && quotes == old(quotes)[id := r.value]
        && r.value == if old(quotes)[id].status == QuoteActive && now >= old(quotes)[id].expiresAt
                      then old(quotes)[id].(status := QuoteExpiredStatus) else old(quotes)[id]
    {
      if id !in quotes { return Err(QuoteNotFound); }
      if quotes[id].client != client { return Err(QuoteAccessDenied); }
      GetKeeps(quotes, client, id, now);
      if quotes[id].status == QuoteActive && quotes[id].expiresAt <= now {
        quotes := quotes[id := quotes[id].(status := QuoteExpiredStatus)];
      }
      r := Ok(quotes[id]);
    }

    /** The statements of consume; a refusal leaves whatever they have written for the transaction to undo. */
    method ConsumeStatements(c: Claim, now: int) returns (r: Result<Terms, FxFailure>)
      modifies this
      ensures r == Fx.Consume(old(quotes), c, now).1
      ensures r.Ok? ==> quotes == Fx.Consume(old(quotes), c, now).0
    {
      if c.quote !in quotes { return Err(QuoteNotFound); }
      var q := quotes[c.quote];
      if q.client != c.client { return Err(QuoteAccessDenied); }
      if q.sourceCurrency != c.sourceCurrency || q.targetCurrency != c.targetCurrency || q.sourceAmount != c.sourceAmount {
        return Err(QuoteDetailsMismatch);
      }
      if q.status == QuoteConsumed {
        return if q.consumedBy == Some(c.transfer) then Ok(TermsOf(q)) else Err(QuoteAlreadyUsed);
      }
      if q.status == QuoteExpiredStatus || q.expiresAt <= now {
        if q.status == QuoteActive { quotes := quotes[c.quote := q.(status := QuoteExpiredStatus)]; }
        return Err(QuoteExpired);
      }
      if q.consumedBy.Some? {
        return if q.consumedBy == Some(c.transfer) then Ok(TermsOf(q)) else Err(QuoteAlreadyUsed);
      }
      if exists i :: i in quotes && quotes[i].consumedBy == Some(c.transfer) { return Err(FxDatabaseError); }
      quotes := quotes[c.quote := q.(status := QuoteConsumed, consumedAt := Some(now), consumedBy := Some(c.transfer))];
      r := Ok(TermsOf(q));
    }

    /** consume: its statements inside one transaction; the EXPIRED mark of a refusal is rolled back with it. */
    method Consume(c: Claim, now: int) returns (r: Result<Terms, FxFailure>)
      requires Valid()
      modifies this
      ensures Valid() && QuotesEvolve(old(quotes), quotes)
      ensures (quotes, r) == Fx.Consume(old(quotes), c, now)
      ensures r.Err? ==> quotes == old(quotes)
    {
      var begin := quotes;
      ConsumeKeeps(begin, c, now);
      r := ConsumeStatements(c, now);
      if r.Err? { quotes := begin; }
    }
  }
}
