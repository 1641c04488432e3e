/** The book of one fixed-term jar along a run of the whole contract. */
module Books {
  import opened Numbers
  import opened Types
  import opened Interest
  import opened Jars
  import opened Settlement
  import opened Tickets
  import opened Accounts
  import opened Promises
  import opened Withdrawals
  import opened Claims
  import opened Restakes
  import opened Protocol

  // --- What the operations do to one fixed-term jar ---------------------------

  /** The jar apart from its lock. */
  function Core(jar: Jar): Jar {
    WithLock(jar, false)
  }

  /** Terms without scores look at neither the timezone nor the score. */
  function PlainRate(terms: Terms, flag: bool): Rate
    requires !terms.IsScoreBased()
  {
    Rate(terms, NO_TIMEZONE, terms.apy.Resolve(flag))
  }

  function PlainRefresh(terms: Terms, flag: bool, jar: Jar, now: Timestamp): Jar
    requires !terms.IsScoreBased()
  {
    Refreshed(PlainRate(terms, flag), jar, now)
  }

  lemma {:induction false} PlainIgnoresTimezone(rate: Rate, rate': Rate, cache: Option<JarCache>, now: Timestamp, deposits: seq<Deposit>)
    requires !rate.terms.IsScoreBased() && rate'.terms == rate.terms && rate'.apy == rate.apy
    ensures SumInterest(rate, cache, now, deposits) == SumInterest(rate', cache, now, deposits)
  {
    if deposits != [] {
      PlainIgnoresTimezone(rate, rate', cache, now, deposits[..|deposits| - 1]);
    }
  }

  lemma PlainRateSuffices(terms: Terms, account: Account, jar: Jar, now: Timestamp)
    requires !terms.IsScoreBased()
    ensures var flag := account.features.increasedApy;
            && JarInterest(RateFor(terms, account, now), jar, now) == JarInterest(PlainRate(terms, flag), jar, now)
            && Refreshed(RateFor(terms, account, now), jar, now) == PlainRefresh(terms, flag, jar, now)
  {
    PlainIgnoresTimezone(RateFor(terms, account, now), PlainRate(terms, account.features.increasedApy), jar.cache, now, jar.deposits);
  }

  /** Nothing that matters for the book happened. */
  predicate Same(before: Account, after: Account, p: ProductId) {
    && Core(JarOf(after, p)) == Core(JarOf(before, p))
    && after.features.increasedApy == before.features.increasedApy
  }

  /** The cache was refreshed, if there was a jar. */
  predicate Fresh(before: Account, after: Account, p: ProductId, terms: Terms, now: Timestamp)
    requires !terms.IsScoreBased()
  {
    && after.features.increasedApy == before.features.increasedApy
    && Core(JarOf(after, p))
       == Core(if p in before.jars then PlainRefresh(terms, before.features.increasedApy, JarOf(before, p), now) else DEFAULT_JAR)
  }

  lemma SettleIsSame(account: Account, products: map<ProductId, Product>, now: Timestamp, p: ProductId)
    requires Known(account, products)
    requires p in products && !products[p].terms.IsScoreBased()
    requires Settle(account, products, now).Ok?
    ensures Same(account, Settle(account, products, now).value, p)
    ensures Settle(account, products, now).value.jars.Keys == account.jars.Keys
    ensures p in account.jars ==> Settle(account, products, now).value.jars[p] == account.jars[p]
  {
  }

  lemma RefreshJarsIsFresh(account: Account, products: map<ProductId, Product>, ps: set<ProductId>, now: Timestamp, p: ProductId)
    requires Known(account, products)
    requires p in products && !products[p].terms.IsScoreBased()
    requires RefreshJars(account, products, ps, now).Ok?
    ensures var after := RefreshJars(account, products, ps, now).value;
            if p in ps then Fresh(account, after, p, products[p].terms, now) else Same(account, after, p)
  {
    if p in ps {
      PlainRateSuffices(products[p].terms, account, account.jars[p], now);
    }
  }

  lemma RefreshAllIsFresh(account: Account, products: map<ProductId, Product>, now: Timestamp, p: ProductId)
    requires Known(account, products)
    requires p in products && !products[p].terms.IsScoreBased()
    requires RefreshAll(account, products, now).Ok?
    ensures Fresh(account, RefreshAll(account, products, now).value, p, products[p].terms, now)
  {
    SettleIsSame(account, products, now, p);
    var settled := Settle(account, products, now).value;
    RefreshJarsIsFresh(settled, products, settled.jars.Keys, now, p);
  }

  lemma WithdrawIsFresh(a: AccountId, account: Account, products: map<ProductId, Product>, q: ProductId, now: Timestamp, p: ProductId)
    requires Known(account, products)
    requires p in products && !products[p].terms.IsScoreBased()
    requires Withdraw(a, account, products, q, now).Ok?
    ensures var after := Withdraw(a, account, products, q, now).value.account;
            if p == q then Fresh(account, after, p, products[p].terms, now) else Same(account, after, p)
  {
    if p == q {
      var locked := WithJar(account, q, WithLock(account.jars[q], true));
      PlainRateSuffices(products[p].terms, locked, locked.jars[p], now);
    }
  }

  lemma WithdrawAllIsFresh(a: AccountId, account: Account, products: map<ProductId, Product>, ps: Option<set<ProductId>>, now: Timestamp, p: ProductId)
    requires Known(account, products)
    requires p in products && !products[p].terms.IsScoreBased()
    requires WithdrawAll(a, account, products, ps, now).Ok?
    ensures Fresh(account, WithdrawAll(a, account, products, ps, now).value.account, p, products[p].terms, now)
  {
    RefreshAllIsFresh(account, products, now, p);
  }

  /** A stake or airdrop: one more deposit, then a refresh. */
  predicate Topped(before: Account, after: Account, p: ProductId, terms: Terms, amount: TokenAmount, now: Timestamp)
    requires !terms.IsScoreBased()
  {
    && after.features.increasedApy == before.features.increasedApy
    && Core(JarOf(after, p))
       == Core(PlainRefresh(terms, before.features.increasedApy, WithDeposit(JarOf(before, p), Deposit(now, amount)), now))
  }

  lemma DepositTops(before: Account, ready: Account, products: map<ProductId, Product>, q: ProductId, amount: TokenAmount, now: Timestamp, p: ProductId)
    requires Known(before, products) && Known(ready, products)
    requires p in products && q in products && !products[p].terms.IsScoreBased()
    requires Same(before, ready, p)
    requires DepositAndRefresh(ready, products, q, amount, now).Ok?
    ensures var after := DepositAndRefresh(ready, products, q, amount, now).value;
            if p == q then Topped(before, after, p, products[p].terms, amount, now) else Same(before, after, p)
  {
    if p == q {
      JarIsTopped(before, ready, products, amount, now, p);
    }
  }

  lemma JarIsTopped(before: Account, ready: Account, products: map<ProductId, Product>, amount: TokenAmount, now: Timestamp, p: ProductId)
    requires Known(ready, products)
    requires p in products && !products[p].terms.IsScoreBased()
    requires Same(before, ready, p)
    requires DepositAndRefresh(ready, products, p, amount, now).Ok?
    ensures Topped(before, DepositAndRefresh(ready, products, p, amount, now).value, p, products[p].terms, amount, now)
  {
    var terms, flag := products[p].terms, before.features.increasedApy;
    var deposited := Deposited(ready, p, amount, now);
    PlainRateSuffices(terms, deposited, deposited.jars[p], now);
    SameCoreSameRefresh(terms, flag, deposited.jars[p], WithDeposit(JarOf(before, p), Deposit(now, amount)), now);
  }

  /** The lock plays no part in a refresh. */
  lemma CoreRefreshes(terms: Terms, flag: bool, jar: Jar, now: Timestamp)
    requires !terms.IsScoreBased()
    ensures Core(PlainRefresh(terms, flag, jar, now)) == PlainRefresh(terms, flag, Core(jar), now)
  {
  }

  lemma SameCoreSameRefresh(terms: Terms, flag: bool, jar: Jar, jar': Jar, now: Timestamp)
    requires !terms.IsScoreBased() && Core(jar) == Core(jar')
    ensures Core(PlainRefresh(terms, flag, jar, now)) == Core(PlainRefresh(terms, flag, jar', now))
  {
    CoreRefreshes(terms, flag, jar, now);
    CoreRefreshes(terms, flag, jar', now);
  }

  lemma StakeTops(account: Account, products: map<ProductId, Product>, ticket: Ticket, amount: TokenAmount, now: Timestamp, p: ProductId)
    requires Known(account, products) && ticket.productId in products
    requires p in products && !products[p].terms.IsScoreBased()
    requires StakeAccepted(account, products, ticket, amount, now).Ok?
    ensures var after := StakeAccepted(account, products, ticket, amount, now).value;
            if p == ticket.productId then Topped(account, after, p, products[p].terms, amount, now) else Same(account, after, p)
  {
    var counted := account.(nonce := account.nonce + 1);
    var zoned := WithTimezoneFor(counted, products[ticket.productId], ticket.timezone).value;
    assert Same(account, zoned, p);
    DepositTops(account, zoned, products, ticket.productId, amount, now, p);
    assert StakeAccepted(account, products, ticket, amount, now) == DepositAndRefresh(zoned, products, ticket.productId, amount, now);
  }

  lemma AirdropTops(account: Account, products: map<ProductId, Product>, ticket: Ticket, amount: TokenAmount,
                    booster: Score, earnedAt: Option<Timestamp>, now: Timestamp, p: ProductId)
    requires Known(account, products) && ticket.productId in products
    requires p in products && !products[p].terms.IsScoreBased()
    requires Airdropped(account, products, ticket, amount, booster, earnedAt, now).Ok?
    ensures var after := Airdropped(account, products, ticket, amount, booster, earnedAt, now).value;
            if p == ticket.productId then Topped(account, after, p, products[p].terms, amount, now) else Same(account, after, p)
  {
    var zoned := WithTimezoneFor(account, products[ticket.productId], ticket.timezone).value;
    if booster > 0 {
      SettleIsSame(zoned, products, now, p);
    }
    var settled := if booster > 0 then Settle(zoned, products, now).value else zoned;
    assert Same(account, settled, p);
    DepositTops(account, settled, products, ticket.productId, amount, now, p);
  }

  /** A claim of this jar: the interest is in flight, the snapshot is the jar. */
  predicate InClaim(before: Account, after: Account, promise: Option<Promise>, p: ProductId, terms: Terms, now: Timestamp)
    requires !terms.IsScoreBased()
  {
    && promise.Some? && promise.value.AfterClaim?
    && p in before.jars && p in promise.value.amounts && p in promise.value.rollback
    && after.features.increasedApy == before.features.increasedApy
    && var (interest, remainder) := JarInterest(PlainRate(terms, before.features.increasedApy), before.jars[p], now);
       && promise.value.amounts[p] == interest
       && promise.value.rollback[p] == Rollback(before.jars[p])
       && Core(JarOf(after, p)) == Core(Claimed(before.jars[p], remainder, now))
  }

  lemma ClaimIsInClaim(a: AccountId, account: Account, products: map<ProductId, Product>, now: Timestamp, p: ProductId)
    requires Known(account, products)
    requires p in products && !products[p].terms.IsScoreBased()
    requires ClaimTotal(a, account, products, now).Ok?
    ensures var outcome := ClaimTotal(a, account, products, now).value;
            if p in OwnedBy(outcome.promise) then InClaim(account, outcome.account, outcome.promise, p, products[p].terms, now)
            else Same(account, outcome.account, p)
  {
    SettleIsSame(account, products, now, p);
    var settled := Settle(account, products, now).value;
    if p in settled.jars {
      PlainRateSuffices(products[p].terms, settled, settled.jars[p], now);
    }
  }

  /** A move without a remainder: refresh, drop the liquid part, put the deposit. */
  function MovedJar(terms: Terms, flag: bool, jar: Jar, part: Option<Part>, added: Option<Deposit>, now: Timestamp): Jar
    requires !terms.IsScoreBased()
    requires part.Some? ==> part.value.index <= |jar.deposits|
  {
    var kept := if part.Some? then WithoutPrefix(PlainRefresh(terms, flag, jar, now), part.value.index) else jar;
    if added.Some? then WithDeposit(kept, added.value) else kept
  }

  function PartOf(parts: map<ProductId, Part>, p: ProductId): Option<Part> {
    if p in parts then Some(parts[p]) else None
  }

  function AddedTo(p: ProductId, into: ProductId, amount: TokenAmount, now: Timestamp): Option<Deposit> {
    if p == into then Some(Deposit(now, amount)) else None
  }

  lemma MoveIsMovedJar(account: Account, products: map<ProductId, Product>, parts: map<ProductId, Part>, product: Product,
                       timezone: Option<Timezone>, into: ProductId, amount: TokenAmount, now: Timestamp, p: ProductId)
    requires Known(account, products)
    requires p in products && !products[p].terms.IsScoreBased()
    requires RefreshJars(account, products, parts.Keys, now).Ok?
    requires var refreshed := RefreshJars(account, products, parts.Keys, now).value;
             && WithTimezoneFor(refreshed, product, timezone).Ok?
             && CleanUpAndDeposit(WithTimezoneFor(refreshed, product, timezone).value, parts, into, amount, now).Ok?
    ensures p in parts ==> parts[p].index <= |JarOf(account, p).deposits|
    ensures var zoned := WithTimezoneFor(RefreshJars(account, products, parts.Keys, now).value, product, timezone).value;
            var after := CleanUpAndDeposit(zoned, parts, into, amount, now).value;
            && after.features.increasedApy == account.features.increasedApy
            && Core(JarOf(after, p))
               == Core(MovedJar(products[p].terms, account.features.increasedApy, JarOf(account, p), PartOf(parts, p),
                                AddedTo(p, into, amount, now), now))
  {
    RefreshJarsIsFresh(account, products, parts.Keys, now, p);
    var refreshed := RefreshJars(account, products, parts.Keys, now).value;
    var zoned := WithTimezoneFor(refreshed, product, timezone).value;
    assert JarOf(zoned, p).deposits == JarOf(account, p).deposits;
  }

  lemma UpdateIsFresh(account: Account, products: map<ProductId, Product>, update: Update, now: Timestamp, p: ProductId)
    requires Known(account, products)
    requires p in products && !products[p].terms.IsScoreBased()
    requires Updated(account, products, update, now).Ok?
    ensures var after := Updated(account, products, update, now).value;
            match update
            case SetFeature(feature, isEnabled) =>
              && Fresh(account, after.(features := account.features), p, products[p].terms, now)
              && after.features.increasedApy == (if feature.IncreasedApy? then isEnabled else account.features.increasedApy)
            case RecordScore(_) => Same(account, after, p)
            case ApplyBooster(_, _) => Same(account, after, p)
  {
    match update
    case SetFeature(feature, isEnabled) => RefreshAllIsFresh(account, products, now, p);
    case RecordScore(_) => SettleIsSame(account, products, now, p);
    case ApplyBooster(_, _) => SettleIsSame(account, products, now, p);
  }
}
