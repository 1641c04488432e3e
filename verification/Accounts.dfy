/** One account: its deposits and caches, and the changes the oracle makes. */
module Accounts {
  import opened Numbers
  import opened Types
  import opened Interest
  import opened Jars
  import opened Settlement
  import opened Scores
  import opened Tickets

  /** Every jar belongs to a registered product. */
  predicate Known(account: Account, products: map<ProductId, Product>) {
    account.jars.Keys <= products.Keys
  }

  function JarOf(account: Account, p: ProductId): Jar {
    if p in account.jars then account.jars[p] else DEFAULT_JAR
  }

  function WithJar(account: Account, p: ProductId, jar: Jar): Account {
    account.(jars := account.jars[p := jar])
  }

  function Deposited(account: Account, p: ProductId, amount: TokenAmount, now: Timestamp): Account {
    WithJar(account, p, WithDeposit(JarOf(account, p), Deposit(now, amount)))
  }

  /** A timezone is taken once; a score product cannot do without. */
  function TrySetTimezone(account: Account, timezone: Option<Timezone>): (r: Result<Account>)
    ensures r.Err? <==> !account.timezone.IsValid() && timezone.None?
    ensures r.Ok? ==> r.value.jars == account.jars && r.value.features == account.features && r.value.nonce == account.nonce
    ensures r.Ok? ==> r.value.score == account.score
    ensures r.Ok? && account.timezone.IsValid() ==> r.value == account
    ensures r.Ok? && !account.timezone.IsValid() ==> Some(r.value.timezone) == timezone
  {
    if account.timezone.IsValid() then Ok(account)
    else if timezone.None? then Err(TimezoneRequired)
    else Ok(account.(timezone := timezone.value))
  }

  function WithTimezoneFor(account: Account, product: Product, timezone: Option<Timezone>): (r: Result<Account>)
    ensures r.Ok? ==> r.value.jars == account.jars && r.value.features == account.features && r.value.nonce == account.nonce
  {
    if product.terms.IsScoreBased() then TrySetTimezone(account, timezone) else Ok(account)
  }

  // --- Caches -----------------------------------------------------------------

  predicate CanAccrue(account: Account, terms: Terms, jar: Jar, now: Timestamp) {
    && RateKnown(terms, account, now)
    && TermsInRange(RateFor(terms, account, now), jar, now)
  }

  function RefreshJar(account: Account, products: map<ProductId, Product>, p: ProductId, now: Timestamp): Result<Account>
    requires Known(account, products)
  {
    if p !in account.jars then Err(JarNotFound)
    else if !CanAccrue(account, products[p].terms, account.jars[p], now) then Err(TimestampOutOfRange)
    else Ok(WithJar(account, p, Refreshed(RateFor(products[p].terms, account, now), account.jars[p], now)))
  }

  /** Refreshing the caches of a set of jars. */
  function RefreshJars(account: Account, products: map<ProductId, Product>, ps: set<ProductId>, now: Timestamp): (r: Result<Account>)
    requires Known(account, products)
    ensures r.Ok? ==> r.value.features == account.features && r.value.nonce == account.nonce
  {
    if !(ps <= account.jars.Keys) then Err(JarNotFound)
    else if exists p :: p in ps && !CanAccrue(account, products[p].terms, account.jars[p], now) then Err(TimestampOutOfRange)
    else
      Ok(account.(jars := map p | p in account.jars ::
           if p in ps then Refreshed(RateFor(products[p].terms, account, now), account.jars[p], now)
           else account.jars[p]))
  }

  /** Settlement, then every cache. */
  function RefreshAll(account: Account, products: map<ProductId, Product>, now: Timestamp): (r: Result<Account>)
    requires Known(account, products)
    ensures r.Ok? ==> r.value.features == account.features && r.value.nonce == account.nonce
  {
    var settled :- Settle(account, products, now);
    RefreshJars(settled, products, settled.jars.Keys, now)
  }

  // --- Oracle updates ---------------------------------------------------------

  datatype Update =
    | SetFeature(feature: Feature, isEnabled: bool)
    | RecordScore(increments: seq<(Score, Timestamp)>)
    | ApplyBooster(value: Score, earnedAt: Timestamp)

  /** A change of a rate-relevant setting: first everything earned under the old
      setting is settled or cached, then the setting changes. */
  function Updated(account: Account, products: map<ProductId, Product>, update: Update, now: Timestamp): (r: Result<Account>)
    requires Known(account, products)
    ensures r.Ok? ==> r.value.nonce == account.nonce
  {
    match update
    case SetFeature(feature, isEnabled) =>
      var refreshed :- RefreshAll(account, products, now);
      Ok(refreshed.(features := WithFeature(refreshed.features, feature, isEnabled)))
    case RecordScore(increments) =>
      if !account.timezone.IsValid() then Err(TimezoneRequired) else
        var settled :- Settle(account, products, now);
        if !AllPast(increments, settled.timezone, now) then Err(TimestampFromFuture)
        else Ok(settled.(score := Recorded(settled.score, increments, settled.timezone, now)))
    case ApplyBooster(value, earnedAt) =>
      if !account.timezone.IsValid() then Err(TimezoneRequired)
      else if !NotFuture(account.timezone, earnedAt, now) then Err(TimestampFromFuture)
      else
        var settled :- Settle(account, products, now);
        var daysAgo := DaysAgo(settled.timezone, earnedAt, now);
        if daysAgo > 0xFFFF then Err(DaysOffsetOutOfRange)
        else Ok(settled.(score := WithBooster(settled.score, daysAgo, value, now)))
  }

  /** An oracle update moves the score window as the corresponding event does; a
      rejected booster only moves it on. */
  lemma UpdatesAreScoreEvents(account: Account, products: map<ProductId, Product>, update: Update, now: Timestamp)
    requires Known(account, products) && !update.SetFeature?
    requires Updated(account, products, update, now).Ok?
    ensures Updated(account, products, update, now).value.timezone == account.timezone
    ensures var window, tz, after := account.score, account.timezone, Updated(account, products, update, now).value.score;
            && DaysKnown(tz, window.updatedAt, now)
            && match update
               case RecordScore(increments) =>
                 && Accepts(window, tz, RecordEvent(now, increments))
                 && after == Scores.AfterEvent(window, tz, RecordEvent(now, increments))
               case ApplyBooster(value, earnedAt) =>
                 if Accepts(window, tz, BoostEvent(now, value, earnedAt))
                 then after == Scores.AfterEvent(window, tz, BoostEvent(now, value, earnedAt))
                 else after == MovedOn(window, DaysSince(tz, window.updatedAt, now))
  {
  }

  // --- Deposits from outside --------------------------------------------------

  /** The product takes new deposits of this amount, and the ticket is signed
      where the product asks for it. */
  function CheckTicket(env: Env, products: map<ProductId, Product>, ticket: Ticket, amount: TokenAmount, message: string,
                       signature: Option<string>, now: Timestamp): Result<()>
  {
    var p := ticket.productId;
    if p !in products then Err(ProductNotFound)
    else if !products[p].isEnabled then Err(ProductDisabled)
    else if !products[p].AcceptsAmount(amount) then Err(OutOfCap)
    else if !Verified(env, products[p], message, ticket, signature, now) then Err(NotVerified)
    else Ok(())
  }

  function DepositAndRefresh(account: Account, products: map<ProductId, Product>, p: ProductId, amount: TokenAmount, now: Timestamp): (r: Result<Account>)
    requires Known(account, products) && p in products
    ensures r.Ok? ==> r.value.features == account.features && r.value.nonce == account.nonce
  {
    RefreshJar(Deposited(account, p, amount, now), products, p, now)
  }

  function StakeMessage(env: Env, a: AccountId, existing: Option<Account>, ticket: Ticket, amount: TokenAmount): string {
    var nonce := if existing.Some? then existing.value.nonce else 0;
    DepositMessage(ForDeposit, env.contractId, a, ticket.productId, amount, ticket.validUntil, nonce)
  }

  /** A stake: the account is created on first use. */
  function Staked(env: Env, a: AccountId, existing: Option<Account>, products: map<ProductId, Product>,
                  ticket: Ticket, signature: Option<string>, amount: TokenAmount, now: Timestamp): Result<Account>
    requires existing.Some? ==> Known(existing.value, products)
  {
    var _ :- CheckTicket(env, products, ticket, amount, StakeMessage(env, a, existing, ticket, amount), signature, now);
    StakeAccepted(existing.GetOr(NewAccount(now)), products, ticket, amount, now)
  }

  function StakeAccepted(account: Account, products: map<ProductId, Product>, ticket: Ticket, amount: TokenAmount, now: Timestamp): (r: Result<Account>)
    requires Known(account, products) && ticket.productId in products
    ensures r.Ok? ==> r.value.features == account.features && r.value.nonce == account.nonce + 1
  {
    var zoned :- WithTimezoneFor(account.(nonce := account.nonce + 1), products[ticket.productId], ticket.timezone);
    DepositAndRefresh(zoned, products, ticket.productId, amount, now)
  }

  /** One receiver's share of an airdrop, with an optional booster. */
  function Airdropped(account: Account, products: map<ProductId, Product>, ticket: Ticket, amount: TokenAmount,
                      booster: Score, earnedAt: Option<Timestamp>, now: Timestamp): (r: Result<Account>)
    requires Known(account, products) && ticket.productId in products
    ensures r.Ok? ==> r.value.features == account.features && r.value.nonce == account.nonce
  {
    var zoned :- WithTimezoneFor(account, products[ticket.productId], ticket.timezone);
    var settled :- if booster > 0 then Settle(zoned, products, now) else Ok(zoned);
    var refreshed :- DepositAndRefresh(settled, products, ticket.productId, amount, now);
    Boosted(refreshed, booster, earnedAt, now)
  }

  function Boosted(account: Account, booster: Score, earnedAt: Option<Timestamp>, now: Timestamp): Result<Account> {
    if booster == 0 || !account.timezone.IsValid() then Ok(account)
    else if earnedAt.None? then Ok(account.(score := WithBooster(account.score, 0, booster, now)))
    else if !NotFuture(account.timezone, earnedAt.value, now) then Err(TimestampFromFuture)
    else
      var daysAgo := DaysAgo(account.timezone, earnedAt.value, now);
      if daysAgo > 0xFFFF then Err(DaysOffsetOutOfRange)
      else Ok(account.(score := WithBooster(account.score, daysAgo, booster, now)))
  }

  /** Never used: no nonce, jar, timezone, feature or score. */
  predicate IsEmpty(account: Account) {
    && account.nonce == 0
    && account.jars == map[]
    && !account.timezone.IsValid()
    && account.features == Features(false, false)
    && account.score.today == NO_SCORE
    && account.score.yesterday == NO_SCORE
  }

  // --- What the operations do to the deposits ---------------------------------

  lemma RefreshKeepsDeposits(account: Account, products: map<ProductId, Product>, ps: set<ProductId>, now: Timestamp)
    requires Known(account, products)
    requires RefreshJars(account, products, ps, now).Ok?
    ensures SameHoldings(account, RefreshJars(account, products, ps, now).value, now)
  {
  }

  /** Same jars, locks and deposits; caches, score and settings may differ, but no
      cache runs ahead of the clock. */
  predicate SameHoldings(before: Account, after: Account, now: Timestamp) {
    && before.jars.Keys == after.jars.Keys
    && forall p :: p in before.jars ==>
         && before.jars[p].deposits == after.jars[p].deposits
         && before.jars[p].isLocked == after.jars[p].isLocked
         && (CacheIsPast(before.jars[p].cache, now) ==> CacheIsPast(after.jars[p].cache, now))
  }

  lemma SettleKeepsHoldings(account: Account, products: map<ProductId, Product>, now: Timestamp)
    requires Known(account, products)
    requires Settle(account, products, now).Ok?
    ensures SameHoldings(account, Settle(account, products, now).value, now)
  {
  }

  lemma RefreshAllKeepsHoldings(account: Account, products: map<ProductId, Product>, now: Timestamp)
    requires Known(account, products)
    requires RefreshAll(account, products, now).Ok?
    ensures SameHoldings(account, RefreshAll(account, products, now).value, now)
  {
    SettleKeepsHoldings(account, products, now);
    var settled := Settle(account, products, now).value;
    RefreshKeepsDeposits(settled, products, settled.jars.Keys, now);
  }

  lemma UpdatedKeepsHoldings(account: Account, products: map<ProductId, Product>, update: Update, now: Timestamp)
    requires Known(account, products)
    requires Updated(account, products, update, now).Ok?
    ensures SameHoldings(account, Updated(account, products, update, now).value, now)
  {
    match update
    case SetFeature(_, _) => RefreshAllKeepsHoldings(account, products, now);
    case RecordScore(_) => SettleKeepsHoldings(account, products, now);
    case ApplyBooster(_, _) => SettleKeepsHoldings(account, products, now);
  }

  /** Exactly one deposit was appended to one jar. */
  predicate OneMore(before: Account, after: Account, p: ProductId, deposit: Deposit) {
    && after.jars.Keys == before.jars.Keys + {p}
    && after.jars[p].deposits == JarOf(before, p).deposits + [deposit]
    && after.jars[p].isLocked == JarOf(before, p).isLocked
    && (forall q :: q in after.jars && CacheIsPast(JarOf(before, q).cache, deposit.createdAt) ==>
          CacheIsPast(after.jars[q].cache, deposit.createdAt))
    && forall q :: q in before.jars && q != p ==>
         && before.jars[q].deposits == after.jars[q].deposits
         && before.jars[q].isLocked == after.jars[q].isLocked
  }

  lemma DepositAddsOne(before: Account, ready: Account, products: map<ProductId, Product>, p: ProductId, amount: TokenAmount, now: Timestamp)
    requires Known(before, products) && p in products
    requires SameHoldings(before, ready, now)
    requires DepositAndRefresh(ready, products, p, amount, now).Ok?
    ensures OneMore(before, DepositAndRefresh(ready, products, p, amount, now).value, p, Deposit(now, amount))
  {
  }

  lemma StakedAddsOne(account: Account, products: map<ProductId, Product>, ticket: Ticket, amount: TokenAmount, now: Timestamp)
    requires Known(account, products) && ticket.productId in products
    requires StakeAccepted(account, products, ticket, amount, now).Ok?
    ensures OneMore(account, StakeAccepted(account, products, ticket, amount, now).value, ticket.productId, Deposit(now, amount))
  {
    var zoned := WithTimezoneFor(account.(nonce := account.nonce + 1), products[ticket.productId], ticket.timezone).value;
    assert SameHoldings(account, zoned, now);
    DepositAddsOne(account, zoned, products, ticket.productId, amount, now);
    assert StakeAccepted(account, products, ticket, amount, now)
        == DepositAndRefresh(zoned, products, ticket.productId, amount, now);
  }

  lemma AirdroppedAddsOne(account: Account, products: map<ProductId, Product>, ticket: Ticket, amount: TokenAmount,
                          booster: Score, earnedAt: Option<Timestamp>, now: Timestamp)
    requires Known(account, products) && ticket.productId in products
    requires Airdropped(account, products, ticket, amount, booster, earnedAt, now).Ok?
    ensures OneMore(account, Airdropped(account, products, ticket, amount, booster, earnedAt, now).value,
                    ticket.productId, Deposit(now, amount))
  {
    var zoned := WithTimezoneFor(account, products[ticket.productId], ticket.timezone).value;
    if booster > 0 {
      SettleKeepsHoldings(zoned, products, now);
    }
    var settled := if booster > 0 then Settle(zoned, products, now).value else zoned;
    DepositAddsOne(account, settled, products, ticket.productId, amount, now);
  }
}
