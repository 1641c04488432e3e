/** When each call is accepted, and what the operator's calls do, in plain terms. */
module Acceptance {
  import opened Numbers
  import opened Types
  import opened MapSum
  import opened Interest
  import opened Jars
  import opened Settlement
  import opened Scores
  import opened Tickets
  import opened Texts
  import opened Accounts
  import opened Promises
  import opened Withdrawals
  import opened Claims
  import opened Restakes
  import opened Contracts
  import opened Protocol
  import opened Timezones
  import opened Charges

  // --- Operator ---------------------------------------------------------------

  /** What a product must be like to be registered: score products carry a key, a fee
      leaves something of the least deposit, and all decimals fit 128 bits. */
  predicate IsSensible(product: Product) {
    && (product.terms.ScoreBased? || product.terms.TieredScoreBased? ==> product.publicKey.Some?)
    && product.capMin < product.capMax
    && (match product.withdrawalFee
        case None => true
        case Some(Fix(fixed)) => fixed < product.capMin
        case Some(Percent(percent)) => percent.exponent <= 38 && percent.significand < Pow10(percent.exponent))
    && (match product.terms
        case Fixed(_, apy) => FitsScale(apy)
        case Flexible(apy) => FitsScale(apy)
        case _ => true)
  }

  predicate FitsScale(apy: Configurable<UDecimal>) {
    match apy
    case Constant(rate) => rate.exponent <= 38
    case Tier(increased, usual) => increased.exponent <= 38 && usual.exponent <= 38
  }

  /** Registration stores a sensible product under a new id; a product is switched on or
      off, or gets another key, and nothing else of the contract changes. */
  lemma OperatorsCalls(env: Env, w: World, product: Product, p: ProductId, isEnabled: bool, key: string)
    requires Inv(w)
    ensures var register := Act(env, w, DoRegister(product));
            && (register.Ok? <==> product.id !in w.contract.products && IsSensible(product))
            && (register.Ok? ==> register.value == w.(contract := w.contract.(products := w.contract.products[product.id := product])))
    ensures var switch := Act(env, w, DoSetEnabled(p, isEnabled));
            && (switch.Ok? <==> p in w.contract.products && w.contract.products[p].isEnabled == !isEnabled)
            && (switch.Ok? ==>
                  switch.value == w.(contract := w.contract.(products := w.contract.products[p := w.contract.products[p].(isEnabled := isEnabled)])))
    ensures var protect := Act(env, w, DoSetPublicKey(p, key));
            && (protect.Ok? <==> p in w.contract.products)
            && (protect.Ok? ==>
                  protect.value == w.(contract := w.contract.(products := w.contract.products[p := w.contract.products[p].(publicKey := Some(key))])))
  {
    SensibleIsAdmissible(product);
  }

  lemma SensibleIsAdmissible(product: Product)
    ensures product.IsAdmissible() <==> IsSensible(product)
  {
    if product.terms.Fixed? || product.terms.Flexible? {
      assert product.terms.apy.Resolve(true).exponent <= 38 && product.terms.apy.Resolve(false).exponent <= 38 <==> FitsScale(product.terms.apy);
    }
  }

  // --- Tokens coming in -------------------------------------------------------

  /** An unprotected product asks for nothing; a protected one for a ticket that has not
      expired and does not run for more than a week, and its signature of the text. */
  predicate IsAuthorized(env: Env, product: Product, text: string, validUntil: Timestamp, signature: Option<string>, now: Timestamp) {
    product.publicKey.Some? ==>
      && now <= validUntil <= now + 604_800_000
      && signature.Some? && env.verifies(product.publicKey.value, text, signature.value)
  }

  function DepositText(purpose: string, env: Env, a: AccountId, ticket: Ticket, amount: TokenAmount, nonce: nat): string {
    Separated([purpose] + ([env.contractId] + ([a] + ([ticket.productId] + ([Decimal(amount)] + ([Decimal(nonce)] + [Decimal(ticket.validUntil)]))))))
  }

  /** A score product is entered with a timezone in which the days can be counted. */
  predicate CanEnter(terms: Terms, account: Account, offered: Option<Timezone>, now: Timestamp) {
    terms.ScoreBased? || terms.TieredScoreBased? ==>
      && (account.timezone.IsValid() || offered.Some?)
      && var tz := if account.timezone.IsValid() then account.timezone else offered.value;
         DaysKnown(tz, account.score.updatedAt, now) && tz.InRange(now / MS_IN_DAY * MS_IN_DAY)
  }

  lemma DepositIsAccepted(account: Account, products: map<ProductId, Product>, p: ProductId, amount: TokenAmount, now: Timestamp)
    requires Known(account, products) && p in products
    ensures DepositAndRefresh(account, products, p, amount, now).Ok?
       <==> (products[p].terms.IsScoreBased() ==> DaysKnown(account.timezone, account.score.updatedAt, now) && account.timezone.InRange(StartOfTheDay(now)))
  {
  }

  lemma StakeAcceptedIff(account: Account, products: map<ProductId, Product>, ticket: Ticket, amount: TokenAmount, now: Timestamp)
    requires Known(account, products) && ticket.productId in products
    ensures StakeAccepted(account, products, ticket, amount, now).Ok? <==> CanEnter(products[ticket.productId].terms, account, ticket.timezone, now)
  {
    var entering := account.(nonce := account.nonce + 1);
    var zoned := WithTimezoneFor(entering, products[ticket.productId], ticket.timezone);
    EnterIff(entering, products[ticket.productId], ticket.timezone, now);
    if zoned.Ok? {
      assert StakeAccepted(account, products, ticket, amount, now) == DepositAndRefresh(zoned.value, products, ticket.productId, amount, now);
      DepositIsAccepted(zoned.value, products, ticket.productId, amount, now);
    }
  }

  /** With its timezone settled the account can enter if it could before. */
  lemma EnterIff(account: Account, product: Product, offered: Option<Timezone>, now: Timestamp)
    ensures var zoned := WithTimezoneFor(account, product, offered);
            CanEnter(product.terms, account, offered, now)
            <==> && zoned.Ok?
                 && (product.terms.IsScoreBased() ==>
                       DaysKnown(zoned.value.timezone, zoned.value.score.updatedAt, now) && zoned.value.timezone.InRange(StartOfTheDay(now)))
  {
  }

  /** A stake is accepted exactly into an enabled product, within its caps, authorized,
      and with a timezone where one is needed. */
  lemma StakeIsAcceptedIff(env: Env, w: World, a: AccountId, ticket: Ticket, signature: Option<string>, amount: TokenAmount)
    requires Inv(w)
    ensures Act(env, w, DoStake(a, ticket, signature, amount)).Ok?
       <==> && ticket.productId in w.contract.products
            && var product, account := w.contract.products[ticket.productId], AccountOrNew(w.contract, a, w.now);
               && product.isEnabled && product.capMin <= amount <= product.capMax
               && IsAuthorized(env, product, DepositText("deposit", env, a, ticket, amount, account.nonce), ticket.validUntil, signature, w.now)
               && CanEnter(product.terms, account, ticket.timezone, w.now)
  {
    var account := AccountOrNew(w.contract, a, w.now);
    FieldsOfDepositMessage(ForDeposit, env.contractId, a, ticket.productId, amount, ticket.validUntil, account.nonce);
    if ticket.productId in w.contract.products {
      StakeAcceptedIff(account, w.contract.products, ticket, amount, w.now);
    }
  }

  /** The moment can be told from the future in the account's time, and is not from it. */
  predicate HasCome(tz: Timezone, t: Timestamp, now: Timestamp) {
    tz.InRange(now) && tz.InRange(t) && t <= now
  }

  /** A booster beside a share, if the account has a timezone by then, is not from the
      future and not from more days ago than fit 16 bits. */
  predicate CanBoost(tz: Timezone, updatedAt: Timestamp, booster: Score, earnedAt: Option<Timestamp>, now: Timestamp) {
    booster > 0 && tz.IsValid() ==>
      && DaysKnown(tz, updatedAt, now)
      && (earnedAt.Some? ==> HasCome(tz, earnedAt.value, now) && tz.LocalDay(now) - tz.LocalDay(earnedAt.value) <= 65_535)
  }

  /** One receiver's share of an airdrop. */
  datatype Share = Share(ticket: Ticket, amount: TokenAmount, booster: Score, earnedAt: Option<Timestamp>)

  function TimezoneThen(terms: Terms, account: Account, offered: Option<Timezone>): Timezone {
    if terms.IsScoreBased() && !account.timezone.IsValid() && offered.Some? then offered.value else account.timezone
  }

  predicate CanTake(terms: Terms, account: Account, share: Share, now: Timestamp) {
    && CanEnter(terms, account, share.ticket.timezone, now)
    && CanBoost(TimezoneThen(terms, account, share.ticket.timezone), account.score.updatedAt, share.booster, share.earnedAt, now)
  }

  function Shared(account: Account, products: map<ProductId, Product>, share: Share, now: Timestamp): Result<Account>
    requires Known(account, products) && share.ticket.productId in products
  {
    Airdropped(account, products, share.ticket, share.amount, share.booster, share.earnedAt, now)
  }

  /** The days since the last update can be counted, if they have to be. */
  predicate CanSettle(account: Account, now: Timestamp) {
    account.timezone.IsValid() ==> DaysKnown(account.timezone, account.score.updatedAt, now)
  }

  /** Before a booster the account is settled. */
  function Prepared(zoned: Account, products: map<ProductId, Product>, booster: Score, now: Timestamp): Result<Account>
    requires Known(zoned, products)
  {
    if booster > 0 then Settle(zoned, products, now) else Ok(zoned)
  }

  lemma PreparedOkIff(zoned: Account, products: map<ProductId, Product>, booster: Score, now: Timestamp)
    requires Known(zoned, products)
    ensures Prepared(zoned, products, booster, now).Ok? <==> (booster > 0 ==> CanSettle(zoned, now))
    ensures Prepared(zoned, products, booster, now).Ok? ==>
              var prepared := Prepared(zoned, products, booster, now).value;
              Known(prepared, products) && prepared.timezone == zoned.timezone && prepared.score.updatedAt == zoned.score.updatedAt
  {
  }

  lemma DepositKeepsTime(account: Account, products: map<ProductId, Product>, p: ProductId, amount: TokenAmount, now: Timestamp)
    requires Known(account, products) && p in products && DepositAndRefresh(account, products, p, amount, now).Ok?
    ensures var after := DepositAndRefresh(account, products, p, amount, now).value;
            after.timezone == account.timezone && after.score == account.score
  {
  }

  lemma BoostedOkIff(account: Account, booster: Score, earnedAt: Option<Timestamp>, now: Timestamp)
    requires booster > 0 ==> CanSettle(account, now)
    ensures Boosted(account, booster, earnedAt, now).Ok? <==> CanBoost(account.timezone, account.score.updatedAt, booster, earnedAt, now)
    ensures Boosted(account, booster, earnedAt, now).Ok? ==>
              var after := Boosted(account, booster, earnedAt, now).value;
              && after.timezone == account.timezone
              && (after.score.updatedAt == account.score.updatedAt || (after.score.updatedAt == now && booster > 0 && after.timezone.IsValid()))
  {
  }

  /** The steps of a share. */
  lemma SharedInSteps(account: Account, zoned: Account, products: map<ProductId, Product>, share: Share, now: Timestamp)
    requires Known(account, products) && share.ticket.productId in products
    requires WithTimezoneFor(account, products[share.ticket.productId], share.ticket.timezone) == Ok(zoned)
    ensures Known(zoned, products)
    ensures var prepared := Prepared(zoned, products, share.booster, now);
            && (prepared.Ok? ==> Known(prepared.value, products))
            && if prepared.Err? then Shared(account, products, share, now).Err?
               else
                 var deposited := DepositAndRefresh(prepared.value, products, share.ticket.productId, share.amount, now);
                 if deposited.Err? then Shared(account, products, share, now).Err?
                 else Shared(account, products, share, now) == Boosted(deposited.value, share.booster, share.earnedAt, now)
  {
  }

  lemma ShareOkIff(account: Account, products: map<ProductId, Product>, share: Share, now: Timestamp)
    requires Known(account, products) && share.ticket.productId in products
    ensures Shared(account, products, share, now).Ok? <==> CanTake(products[share.ticket.productId].terms, account, share, now)
    ensures Shared(account, products, share, now).Ok? ==>
              var after := Shared(account, products, share, now).value;
              && after.timezone == TimezoneThen(products[share.ticket.productId].terms, account, share.ticket.timezone)
              && (after.score.updatedAt == account.score.updatedAt || (after.score.updatedAt == now && share.booster > 0 && after.timezone.IsValid()))
  {
    var p := share.ticket.productId;
    var zoned := WithTimezoneFor(account, products[p], share.ticket.timezone);
    EnterIff(account, products[p], share.ticket.timezone, now);
    if zoned.Ok? {
      ZonedShareOkIff(account, zoned.value, products, share, now);
    }
  }

  lemma ZonedShareOkIff(account: Account, zoned: Account, products: map<ProductId, Product>, share: Share, now: Timestamp)
    requires Known(account, products) && share.ticket.productId in products
    requires WithTimezoneFor(account, products[share.ticket.productId], share.ticket.timezone) == Ok(zoned)
    ensures zoned.timezone == TimezoneThen(products[share.ticket.productId].terms, account, share.ticket.timezone)
    ensures zoned.score == account.score && Known(zoned, products)
    ensures Shared(account, products, share, now).Ok?
       <==> && (products[share.ticket.productId].terms.IsScoreBased() ==>
                  DaysKnown(zoned.timezone, zoned.score.updatedAt, now) && zoned.timezone.InRange(StartOfTheDay(now)))
            && CanBoost(zoned.timezone, zoned.score.updatedAt, share.booster, share.earnedAt, now)
    ensures Shared(account, products, share, now).Ok? ==>
              var after := Shared(account, products, share, now).value;
              && after.timezone == zoned.timezone
              && (after.score.updatedAt == zoned.score.updatedAt || (after.score.updatedAt == now && share.booster > 0 && after.timezone.IsValid()))
  {
    var p := share.ticket.productId;
    SharedInSteps(account, zoned, products, share, now);
    PreparedOkIff(zoned, products, share.booster, now);
    var prepared := Prepared(zoned, products, share.booster, now);
    if prepared.Ok? {
      DepositIsAccepted(prepared.value, products, p, share.amount, now);
      var deposited := DepositAndRefresh(prepared.value, products, p, share.amount, now);
      if deposited.Ok? {
        DepositKeepsTime(prepared.value, products, p, share.amount, now);
        BoostedOkIff(deposited.value, share.booster, share.earnedAt, now);
      }
    }
  }

  lemma LaterUpdateTakes(terms: Terms, account: Account, after: Account, share: Share, now: Timestamp)
    requires CanTake(terms, account, share, now)
    requires after.timezone == TimezoneThen(terms, account, share.ticket.timezone)
    requires after.score.updatedAt == account.score.updatedAt || (after.score.updatedAt == now && share.booster > 0 && after.timezone.IsValid())
    ensures CanTake(terms, after, share, now)
  {
  }

  /** Who has taken a share can take another. */
  lemma ShareRepeats(account: Account, products: map<ProductId, Product>, share: Share, now: Timestamp)
    requires Known(account, products) && share.ticket.productId in products
    requires Shared(account, products, share, now).Ok?
    ensures CanTake(products[share.ticket.productId].terms, Shared(account, products, share, now).value, share, now)
  {
    ShareOkIff(account, products, share, now);
    LaterUpdateTakes(products[share.ticket.productId].terms, account, Shared(account, products, share, now).value, share, now);
  }

  predicate AllTake(c: State, terms: Terms, receivers: seq<AccountId>, share: Share, now: Timestamp) {
    forall i :: 0 <= i < |receivers| ==> CanTake(terms, AccountOrNew(c, receivers[i], now), share, now)
  }

  lemma AllTakeLast(c: State, terms: Terms, receivers: seq<AccountId>, share: Share, now: Timestamp)
    requires receivers != []
    ensures var n := |receivers| - 1;
            AllTake(c, terms, receivers, share, now)
            <==> AllTake(c, terms, receivers[..n], share, now) && CanTake(terms, AccountOrNew(c, receivers[n], now), share, now)
  {
    var n := |receivers| - 1;
    assert forall i :: 0 <= i < n ==> receivers[..n][i] == receivers[i];
  }

  /** Whoever could take a share before still can, and nobody else. */
  ghost predicate SameTakers(c: State, c': State, terms: Terms, share: Share, now: Timestamp) {
    forall a :: CanTake(terms, AccountOrNew(c', a, now), share, now) <==> CanTake(terms, AccountOrNew(c, a, now), share, now)
  }

  function AllShared(c: State, receivers: seq<AccountId>, share: Share, now: Timestamp): Result<State>
    requires KnownState(c) && share.ticket.productId in c.products
  {
    AirdropAll(c, share.ticket, share.amount, receivers, share.booster, share.earnedAt, now)
  }

  lemma {:induction false} SharesOkIff(c: State, receivers: seq<AccountId>, share: Share, now: Timestamp)
    requires KnownState(c) && share.ticket.productId in c.products
    ensures var shares, terms := AllShared(c, receivers, share, now), c.products[share.ticket.productId].terms;
            && (shares.Ok? <==> AllTake(c, terms, receivers, share, now))
            && (shares.Ok? ==> SameTakers(c, shares.value, terms, share, now))
    decreases |receivers|
  {
    if receivers != [] {
      var n, terms := |receivers| - 1, c.products[share.ticket.productId].terms;
      SharesOkIff(c, receivers[..n], share, now);
      AllTakeLast(c, terms, receivers, share, now);
      var before := AllShared(c, receivers[..n], share, now);
      if before.Ok? {
        OneMoreShare(before.value, receivers[n], share, now);
      }
    }
  }

  lemma OneMoreShare(c: State, receiver: AccountId, share: Share, now: Timestamp)
    requires KnownState(c) && share.ticket.productId in c.products
    ensures var shared, terms := Shared(AccountOrNew(c, receiver, now), c.products, share, now), c.products[share.ticket.productId].terms;
            && (shared.Ok? <==> CanTake(terms, AccountOrNew(c, receiver, now), share, now))
            && (shared.Ok? ==> SameTakers(c, WithAccount(c, receiver, shared.value), terms, share, now))
  {
    var account := AccountOrNew(c, receiver, now);
    ShareOkIff(account, c.products, share, now);
    if Shared(account, c.products, share, now).Ok? {
      ShareRepeats(account, c.products, share, now);
    }
  }

  function AirdropText(env: Env, ticket: Ticket, amount: TokenAmount, receivers: seq<AccountId>): string {
    Separated(["airdrop"] + ([env.contractId] + ([ticket.productId] + ([Decimal(amount)] + ([Decimal(ticket.validUntil)] + SortedNames(receivers))))))
  }

  lemma AirdropOkIff(env: Env, c: State, signature: Option<string>, total: TokenAmount, receivers: seq<AccountId>, share: Share, now: Timestamp)
    requires KnownState(c) && share.ticket.productId in c.products
    requires receivers != [] && total % |receivers| == 0 && share.amount == total / |receivers|
    ensures var product := c.products[share.ticket.productId];
            Airdrop(env, c, share.ticket, signature, total, receivers, share.booster, share.earnedAt, now).Ok?
            <==> && product.isEnabled && product.capMin <= share.amount <= product.capMax
                 && IsAuthorized(env, product, AirdropText(env, share.ticket, share.amount, receivers), share.ticket.validUntil, signature, now)
                 && AllTake(c, product.terms, receivers, share, now)
  {
    FieldsOfAirdropMessage(env.contractId, share.ticket.productId, share.amount, receivers, share.ticket.validUntil);
    SharesOkIff(c, receivers, share, now);
  }

  /** An airdrop is accepted exactly if it splits evenly into amounts the product takes,
      is authorized, and every receiver can take its share and its booster. */
  lemma AirdropIsAcceptedIff(env: Env, w: World, ticket: Ticket, signature: Option<string>, total: TokenAmount, receivers: seq<AccountId>,
                             booster: Score, earnedAt: Option<Timestamp>)
    requires Inv(w)
    ensures Act(env, w, DoAirdrop(ticket, signature, total, receivers, booster, earnedAt)).Ok?
       <==> && receivers != [] && total % |receivers| == 0 && ticket.productId in w.contract.products
            && var product, amount := w.contract.products[ticket.productId], total / |receivers|;
               && product.isEnabled && product.capMin <= amount <= product.capMax
               && IsAuthorized(env, product, AirdropText(env, ticket, amount, receivers), ticket.validUntil, signature, w.now)
               && AllTake(w.contract, product.terms, receivers, Share(ticket, amount, booster, earnedAt), w.now)
  {
    if receivers != [] && total % |receivers| == 0 && ticket.productId in w.contract.products {
      AirdropOkIff(env, w.contract, signature, total, receivers, Share(ticket, total / |receivers|, booster, earnedAt), w.now);
    }
  }

  /** A previous account is taken over only by an account that was never used, and only
      with exactly its principal. */
  lemma MigrationIsAcceptedIff(env: Env, w: World, a: AccountId, account: Account, amount: TokenAmount)
    requires Inv(w)
    ensures Act(env, w, DoMigrate(a, account, amount)).Ok?
       <==> && (a in w.contract.accounts ==>
                  && w.contract.accounts[a].nonce == 0 && w.contract.accounts[a].jars == map[]
                  && w.contract.accounts[a].timezone == Timezone(-0x8000_0000_0000_0000)
                  && !w.contract.accounts[a].features.increasedApy && !w.contract.accounts[a].features.increasedScoreCap
                  && w.contract.accounts[a].score.today == DailyScore(0, 0) && w.contract.accounts[a].score.yesterday == DailyScore(0, 0))
            && AccountPrincipal(account) == amount
    ensures Act(env, w, DoMigrate(a, account, amount)).Ok? ==>
              Act(env, w, DoMigrate(a, account, amount)).value
              == w.(contract := w.contract.(accounts := w.contract.accounts[a := account]), accepted := w.accepted + amount)
  {
  }

  // --- Calls of the account's owner -------------------------------------------

  /** The fee, whatever it is, leaves something or nothing, but does not exceed what has
      matured. */
  predicate FeeFits(product: Product, jar: Jar, now: Timestamp) {
    var amount := MaturedPrincipal(product.terms, jar.deposits, now);
    match product.withdrawalFee
    case None => true
    case Some(Fix(fixed)) => fixed <= amount
    case Some(Percent(percent)) => amount * percent.significand < (amount + 1) * Pow10(percent.exponent)
  }

  lemma FeeFitsIffCovered(product: Product, jar: Jar, now: Timestamp)
    requires Sorted(jar.deposits)
    ensures RequestFor(product, jar, now).fee <= RequestFor(product, jar, now).amount <==> FeeFits(product, jar, now)
  {
    TakesTheMatured(product.terms, jar.deposits, now);
    var request := RequestFor(product, jar, now);
    if product.withdrawalFee.Some? && product.withdrawalFee.value.Percent? {
      var percent := product.withdrawalFee.value.percent;
      FeesAreCharged(product, request.amount);
      QuotientFitsIff(request.fee, request.amount, request.amount * percent.significand, Pow10(percent.exponent));
    }
  }

  lemma QuotientFitsIff(quotient: nat, limit: nat, x: nat, scale: nat)
    requires quotient * scale <= x < (quotient + 1) * scale
    ensures quotient <= limit <==> x < (limit + 1) * scale
  {
    if quotient <= limit {
      assert (quotient + 1) * scale <= (limit + 1) * scale;
    } else {
      assert quotient * scale >= (limit + 1) * scale;
    }
  }

  lemma WithdrawOkIff(a: AccountId, account: Account, products: map<ProductId, Product>, p: ProductId, now: Timestamp)
    requires Known(account, products) && Ordered(account, now)
    ensures Withdraw(a, account, products, p, now).Ok?
       <==> && p in account.jars && !account.jars[p].isLocked
            && CanAccrue(account, products[p].terms, account.jars[p], now) && FeeFits(products[p], account.jars[p], now)
  {
    if p in account.jars && !account.jars[p].isLocked {
      var locked := WithJar(account, p, WithLock(account.jars[p], true));
      assert CanAccrue(locked, products[p].terms, locked.jars[p], now) <==> CanAccrue(account, products[p].terms, account.jars[p], now);
      if CanAccrue(account, products[p].terms, account.jars[p], now) {
        assert InOrder(account.jars[p].deposits, now);
        var refreshed := RefreshJar(locked, products, p, now).value;
        FeeFitsIffCovered(products[p], refreshed.jars[p], now);
        OneRequest(p, RequestFor(products[p], refreshed.jars[p], now));
      }
    }
  }

  lemma OneRequest(p: ProductId, request: Withdrawal)
    ensures FeesCovered(map[p := request]) <==> request.fee <= request.amount
  {
    assert map[p := request][p] == request;
  }

  /** A withdrawal is accepted exactly from an unlocked jar whose fee fits, and while its
      interest can be computed. */
  lemma WithdrawIsAcceptedIff(env: Env, w: World, a: AccountId, p: ProductId)
    requires Inv(w)
    ensures Act(env, w, DoWithdraw(a, p)).Ok?
       <==> && a in w.contract.accounts
            && var account, products := w.contract.accounts[a], w.contract.products;
               && p in account.jars && !account.jars[p].isLocked
               && CanAccrue(account, products[p].terms, account.jars[p], w.now) && FeeFits(products[p], account.jars[p], w.now)
  {
    if a in w.contract.accounts {
      assert Ordered(w.contract.accounts[a], w.now);
      WithdrawOkIff(a, w.contract.accounts[a], w.contract.products, p, w.now);
    }
  }

  predicate AllCanAccrue(account: Account, products: map<ProductId, Product>, now: Timestamp)
    requires Known(account, products)
  {
    forall p :: p in account.jars ==> CanAccrue(account, products[p].terms, account.jars[p], now)
  }

  /** A settlement changes nothing about which interest can be computed. */
  lemma SettledCanAccrue(account: Account, products: map<ProductId, Product>, now: Timestamp)
    requires Known(account, products)
    ensures Settle(account, products, now).Ok? <==> CanSettle(account, now)
    ensures Settle(account, products, now).Ok? ==>
              var settled := Settle(account, products, now).value;
              && settled.jars.Keys == account.jars.Keys
              && forall p :: p in account.jars ==>
                   && settled.jars[p].isLocked == account.jars[p].isLocked
                   && (CanAccrue(settled, products[p].terms, settled.jars[p], now) <==> CanAccrue(account, products[p].terms, account.jars[p], now))
  {
  }

  lemma RefreshAllOkIff(account: Account, products: map<ProductId, Product>, now: Timestamp)
    requires Known(account, products)
    ensures RefreshAll(account, products, now).Ok? <==> CanSettle(account, now) && AllCanAccrue(account, products, now)
  {
    SettledCanAccrue(account, products, now);
  }

  lemma WithdrawAllOkIff(a: AccountId, account: Account, products: map<ProductId, Product>, ps: Option<set<ProductId>>, now: Timestamp)
    requires Known(account, products) && Ordered(account, now)
    ensures WithdrawAll(a, account, products, ps, now).Ok?
       <==> && CanSettle(account, now) && AllCanAccrue(account, products, now)
            && (ps.Some? ==> ps.value <= account.jars.Keys)
            && forall p :: p in UnlockedOf(account, ps) ==> FeeFits(products[p], account.jars[p], now)
  {
    RefreshAllOkIff(account, products, now);
    WithdrawAllRefreshes(a, account, products, ps, now);
    if RefreshAll(account, products, now).Ok? {
      WithdrawAllIs(a, account, products, ps, now);
      var wanted := if ps.Some? then ps.value else account.jars.Keys;
      if wanted <= account.jars.Keys {
        AllFeesFitOnceRefreshed(account, products, wanted, now);
        assert UnlockedIn(account, wanted) == UnlockedOf(account, ps);
      }
    }
  }

  lemma WithdrawAllRefreshes(a: AccountId, account: Account, products: map<ProductId, Product>, ps: Option<set<ProductId>>, now: Timestamp)
    requires Known(account, products)
    ensures WithdrawAll(a, account, products, ps, now).Ok? ==> RefreshAll(account, products, now).Ok?
  {
  }

  lemma AllFeesFitOnceRefreshed(account: Account, products: map<ProductId, Product>, wanted: set<ProductId>, now: Timestamp)
    requires Known(account, products) && Ordered(account, now) && RefreshAll(account, products, now).Ok?
    requires wanted <= account.jars.Keys
    ensures var refreshed := RefreshAll(account, products, now).value;
            && Known(refreshed, products) && wanted <= refreshed.jars.Keys
            && (FeesCovered(RequestsFor(refreshed, products, wanted, now))
                <==> forall p :: p in UnlockedIn(account, wanted) ==> FeeFits(products[p], account.jars[p], now))
  {
    RefreshAllKeepsHoldings(account, products, now);
    AllFeesFitIff(account, RefreshAll(account, products, now).value, products, wanted, now);
  }

  lemma AllFeesFitIff(account: Account, refreshed: Account, products: map<ProductId, Product>, wanted: set<ProductId>, now: Timestamp)
    requires Known(account, products) && Ordered(account, now) && SameHoldings(account, refreshed, now)
    requires wanted <= account.jars.Keys
    ensures FeesCovered(RequestsFor(refreshed, products, wanted, now))
       <==> forall p :: p in UnlockedIn(account, wanted) ==> FeeFits(products[p], account.jars[p], now)
  {
    var requests := RequestsFor(refreshed, products, wanted, now);
    forall p | p in requests ensures requests[p].fee <= requests[p].amount <==> FeeFits(products[p], account.jars[p], now) {
      assert InOrder(account.jars[p].deposits, now);
      FeeFitsIffCovered(products[p], refreshed.jars[p], now);
    }
    assert requests.Keys == UnlockedIn(account, wanted);
  }

  /** A withdrawal from all jars, or from those of a list, is accepted exactly if the
      interest of all jars can be computed, the list names jars of the account, and every
      fee fits. */
  lemma WithdrawAllIsAcceptedIff(env: Env, w: World, a: AccountId, ps: Option<set<ProductId>>)
    requires Inv(w)
    ensures Act(env, w, DoWithdrawAll(a, ps)).Ok?
       <==> && a in w.contract.accounts
            && var account, products := w.contract.accounts[a], w.contract.products;
               && CanSettle(account, w.now) && AllCanAccrue(account, products, w.now)
               && (ps.Some? ==> ps.value <= account.jars.Keys)
               && forall p :: p in UnlockedOf(account, ps) ==> FeeFits(products[p], account.jars[p], w.now)
  {
    if a in w.contract.accounts {
      assert Ordered(w.contract.accounts[a], w.now);
      WithdrawAllOkIff(a, w.contract.accounts[a], w.contract.products, ps, w.now);
    }
  }

  /** The unlocked jars of a settled account that have at least a token to pay. */
  function Paying(settled: Account, products: map<ProductId, Product>, now: Timestamp): set<ProductId>
    requires Known(settled, products) && AllAccrue(settled, products, now)
  {
    set p | p in settled.jars && !settled.jars[p].isLocked && JarInterest(RateFor(products[p].terms, settled, now), settled.jars[p], now).0 > 0
  }

  lemma ClaimOkIff(a: AccountId, account: Account, products: map<ProductId, Product>, now: Timestamp)
    requires Known(account, products)
    ensures ClaimTotal(a, account, products, now).Ok?
       <==> && CanSettle(account, now)
            && (forall p :: p in account.jars && !account.jars[p].isLocked ==> CanAccrue(account, products[p].terms, account.jars[p], now))
            && Settle(account, products, now).Ok?
            && var settled := Settle(account, products, now).value;
               Known(settled, products) && AllAccrue(settled, products, now) && |Paying(settled, products, now)| <= 200
  {
    SettledCanAccrue(account, products, now);
    if Settle(account, products, now).Ok? {
      var settled := Settle(account, products, now).value;
      if AllAccrue(settled, products, now) {
        assert Claimable(settled, products, now).Keys == Paying(settled, products, now);
        assert |Claimable(settled, products, now)| == |Claimable(settled, products, now).Keys|;
      }
    }
  }

  // --- Restakes ---------------------------------------------------------------

  /** What is wanted of what has matured, and the fee on the rest. */
  ghost predicate CanRestake(account: Account, products: map<ProductId, Product>, source: Source, target: Option<TokenAmount>, into: ProductId, now: Timestamp)
    requires Known(account, products) && into in products
  {
    && (source.FromJar? ==> source.p in account.jars && !account.jars[source.p].isLocked)
    && var taken := SourcesOf(account, products, source, now);
       var total := Sum(MaturedOf(account, products, taken, now));
       var amount := if target.Some? then target.value else total;
       && 0 < amount <= total && products[into].capMin <= amount <= products[into].capMax
       && (forall p :: p in taken ==> CanAccrue(account, products[p].terms, account.jars[p], now))
       && (amount < total ==> FeeLeaves(account, products, source, total - amount, now))
  }

  ghost predicate FeeLeaves(account: Account, products: map<ProductId, Product>, source: Source, remainder: TokenAmount, now: Timestamp)
    requires Known(account, products) && SourcesOf(account, products, source, now) <= account.jars.Keys
  {
    exists fee: TokenAmount :: IsFeeOnRemainder(account, products, source, remainder, fee, now) && fee <= remainder
  }

  lemma CeilIsUnique(whole: nat, share: nat, total: nat, fee: nat)
    requires total > 0 && IsShareOf(whole, share, total, fee)
    ensures fee == MulDivCeil(whole, share, total)
  {
    var ceil := MulDivCeil(whole, share, total);
    assert fee < ceil ==> (fee + 1) * total <= ceil * total;
    assert ceil < fee ==> (ceil + 1) * total <= fee * total;
  }

  lemma RemainderFeeIsUnique(account: Account, products: map<ProductId, Product>, source: Source, parts: map<ProductId, Part>, amount: TokenAmount,
                             fee: TokenAmount, now: Timestamp)
    requires Known(account, products) && SourcesOf(account, products, source, now) <= account.jars.Keys
    requires AreParts(account, products, SourcesOf(account, products, source, now), parts, now)
    requires Balances(parts) == MaturedOf(account, products, SourcesOf(account, products, source, now), now)
    requires amount < TotalBalance(parts)
    requires IsFeeOnRemainder(account, products, source, TotalBalance(parts) - amount, fee, now)
    ensures fee == FeeFor(source, parts, products, amount)
  {
    var remainder := TotalBalance(parts) - amount;
    match source
    case FromJar(p) => FeeIsUnique(products[p], remainder, fee);
    case FromAllJars =>
      var fees: map<ProductId, TokenAmount> :|
        AreFeesOn(products, Balances(parts), fees) && IsShareOf(Sum(fees), remainder, Sum(Balances(parts)), fee);
      SharedFeeIsUnique(parts, products, fees, remainder, fee);
  }

  lemma SharedFeeIsUnique(parts: map<ProductId, Part>, products: map<ProductId, Product>, fees: map<ProductId, TokenAmount>,
                          remainder: TokenAmount, fee: TokenAmount)
    requires parts.Keys <= products.Keys && TotalBalance(parts) > 0
    requires AreFeesOn(products, Balances(parts), fees) && IsShareOf(Sum(fees), remainder, TotalBalance(parts), fee)
    ensures fee == MulDivCeil(TotalFeeOf(parts, products), remainder, TotalBalance(parts))
  {
    FeesAreUnique(parts, products, fees);
    CeilIsUnique(Sum(fees), remainder, TotalBalance(parts), fee);
  }

  lemma FeesAreUnique(parts: map<ProductId, Part>, products: map<ProductId, Product>, fees: map<ProductId, TokenAmount>)
    requires parts.Keys <= products.Keys && AreFeesOn(products, Balances(parts), fees)
    ensures fees == PartFees(parts, products)
  {
    forall p | p in fees ensures fees[p] == products[p].CalculateFee(parts[p].balance) {
      FeeIsUnique(products[p], parts[p].balance, fees[p]);
    }
  }

  lemma FeeLeavesIff(account: Account, products: map<ProductId, Product>, source: Source, parts: map<ProductId, Part>, amount: TokenAmount, now: Timestamp)
    requires Known(account, products) && SourcesOf(account, products, source, now) <= account.jars.Keys
    requires AreParts(account, products, SourcesOf(account, products, source, now), parts, now)
    requires Balances(parts) == MaturedOf(account, products, SourcesOf(account, products, source, now), now)
    requires amount < TotalBalance(parts)
    ensures FeeFor(source, parts, products, amount) <= TotalBalance(parts) - amount
       <==> FeeLeaves(account, products, source, TotalBalance(parts) - amount, now)
  {
    RemainderIsCharged(account, products, source, parts, amount, now);
    if FeeLeaves(account, products, source, TotalBalance(parts) - amount, now) {
      var fee: TokenAmount :| IsFeeOnRemainder(account, products, source, TotalBalance(parts) - amount, fee, now) && fee <= TotalBalance(parts) - amount;
      RemainderFeeIsUnique(account, products, source, parts, amount, fee, now);
    }
  }

  predicate CanZone(terms: Terms, account: Account, offered: Option<Timezone>) {
    terms.ScoreBased? || terms.TieredScoreBased? ==> account.timezone.IsValid() || offered.Some?
  }

  lemma RestakePartsOkIff(a: AccountId, account: Account, products: map<ProductId, Product>, parts: map<ProductId, Part>, ticket: Ticket,
                          amount: TokenAmount, total: TokenAmount, fee: TokenAmount, isSigned: bool, now: Timestamp)
    requires Known(account, products) && ticket.productId in products
    requires forall p :: p in parts ==> p in account.jars && parts[p].index <= |account.jars[p].deposits|
    ensures RestakeParts(a, account, products, parts, ticket, amount, total, fee, isSigned, now).Ok?
       <==> && 0 < amount <= total && products[ticket.productId].capMin <= amount <= products[ticket.productId].capMax && isSigned
            && (forall p :: p in parts ==> CanAccrue(account, products[p].terms, account.jars[p], now))
            && CanZone(products[ticket.productId].terms, account, ticket.timezone)
            && (amount < total ==> fee <= total - amount)
  {
    if RefreshJars(account, products, parts.Keys, now).Ok? {
      RefreshKeepsDeposits(account, products, parts.Keys, now);
    }
  }

  lemma RestakeIsAuthorizedIff(env: Env, a: AccountId, account: Account, product: Product, ticket: Ticket, amount: TokenAmount,
                               signature: Option<string>, now: Timestamp)
    ensures IsSigned(env, a, account, product, ticket, amount, signature, now)
       <==> IsAuthorized(env, product, DepositText("restake", env, a, ticket, amount, account.nonce), ticket.validUntil, signature, now)
  {
    FieldsOfDepositMessage(ForRestake, env.contractId, a, ticket.productId, amount, ticket.validUntil, account.nonce);
  }

  lemma RestakeIsOfParts(env: Env, a: AccountId, account: Account, products: map<ProductId, Product>, source: Source, parts: map<ProductId, Part>,
                         ticket: Ticket, signature: Option<string>, target: Option<TokenAmount>, now: Timestamp)
    requires Known(account, products) && ticket.productId in products && Parts(account, products, source, now) == Ok(parts)
    ensures var amount := if target.Some? then target.value else TotalBalance(parts);
            Restake(env, a, account, products, source, ticket, signature, target, now).Ok?
            <==> && products[ticket.productId].isEnabled
                 && RestakeParts(a, account, products, parts, ticket, amount, TotalBalance(parts), FeeFor(source, parts, products, amount),
                                 IsSigned(env, a, account, products[ticket.productId], ticket, amount, signature, now), now).Ok?
  {
  }

  lemma RestakeOkIff(env: Env, a: AccountId, account: Account, products: map<ProductId, Product>, source: Source,
                     ticket: Ticket, signature: Option<string>, target: Option<TokenAmount>, now: Timestamp)
    requires Known(account, products) && Ordered(account, now) && ticket.productId in products
    requires source.FromJar? ==> source.p in account.jars && !account.jars[source.p].isLocked
    ensures SourcesOf(account, products, source, now) <= account.jars.Keys
    ensures var total := Sum(MaturedOf(account, products, SourcesOf(account, products, source, now), now));
            var amount := if target.Some? then target.value else total;
            Restake(env, a, account, products, source, ticket, signature, target, now).Ok?
            <==> && products[ticket.productId].isEnabled && CanRestake(account, products, source, target, ticket.productId, now)
                 && CanZone(products[ticket.productId].terms, account, ticket.timezone)
                 && IsAuthorized(env, products[ticket.productId], DepositText("restake", env, a, ticket, amount, account.nonce), ticket.validUntil, signature, now)
  {
    PartsAreMatured(account, products, source, now);
    var parts := Parts(account, products, source, now).value;
    var total := TotalBalance(parts);
    var amount := if target.Some? then target.value else total;
    RestakeIsAuthorizedIff(env, a, account, products[ticket.productId], ticket, amount, signature, now);
    RestakeIsOfParts(env, a, account, products, source, parts, ticket, signature, target, now);
    CanRestakeIff(a, account, products, source, parts, ticket, target,
                  IsSigned(env, a, account, products[ticket.productId], ticket, amount, signature, now), now);
  }

  lemma CanRestakeIff(a: AccountId, account: Account, products: map<ProductId, Product>, source: Source, parts: map<ProductId, Part>, ticket: Ticket,
                      target: Option<TokenAmount>, isSigned: bool, now: Timestamp)
    requires Known(account, products) && ticket.productId in products
    requires source.FromJar? ==> source.p in account.jars && !account.jars[source.p].isLocked
    requires SourcesOf(account, products, source, now) <= account.jars.Keys
    requires AreParts(account, products, SourcesOf(account, products, source, now), parts, now)
    requires Balances(parts) == MaturedOf(account, products, SourcesOf(account, products, source, now), now)
    ensures var amount := if target.Some? then target.value else TotalBalance(parts);
            RestakeParts(a, account, products, parts, ticket, amount, TotalBalance(parts), FeeFor(source, parts, products, amount), isSigned, now).Ok?
            <==> && CanRestake(account, products, source, target, ticket.productId, now) && isSigned
                 && CanZone(products[ticket.productId].terms, account, ticket.timezone)
  {
    var amount := if target.Some? then target.value else TotalBalance(parts);
    if amount < TotalBalance(parts) {
      FeeLeavesIff(account, products, source, parts, amount, now);
    }
    RestakePartsOkIff(a, account, products, parts, ticket, amount, TotalBalance(parts), FeeFor(source, parts, products, amount), isSigned, now);
  }

  // --- Oracle and settings ----------------------------------------------------

  /** Scores need a timezone and come from the past; a feature is switched wherever all
      interest can be computed, and nothing but that feature is. */
  lemma UpdateOkIff(account: Account, products: map<ProductId, Product>, update: Update, now: Timestamp)
    requires Known(account, products)
    ensures Updated(account, products, update, now).Ok?
       <==> match update
            case SetFeature(_, _) => CanSettle(account, now) && AllCanAccrue(account, products, now)
            case RecordScore(increments) =>
              && account.timezone.IsValid() && DaysKnown(account.timezone, account.score.updatedAt, now)
              && forall i :: 0 <= i < |increments| ==> HasCome(account.timezone, increments[i].1, now)
            case ApplyBooster(_, earnedAt) =>
              && account.timezone.IsValid() && DaysKnown(account.timezone, account.score.updatedAt, now)
              && HasCome(account.timezone, earnedAt, now)
              && account.timezone.LocalDay(now) - account.timezone.LocalDay(earnedAt) <= 65_535
    ensures Updated(account, products, update, now).Ok? ==>
              var after := Updated(account, products, update, now).value;
              && after.nonce == account.nonce && after.timezone == account.timezone
              && after.features.increasedApy == (if update.SetFeature? && update.feature.IncreasedApy? then update.isEnabled else account.features.increasedApy)
              && after.features.increasedScoreCap
                 == (if update.SetFeature? && update.feature.IncreasedScoreCap? then update.isEnabled else account.features.increasedScoreCap)
  {
    RefreshAllOkIff(account, products, now);
  }

  /** A feature may be set for an account that does not exist yet; a timezone is chosen
      once. */
  lemma SettingsOfNewAccounts(env: Env, w: World, a: AccountId, feature: Feature, isEnabled: bool, timezone: Timezone)
    requires Inv(w) && a !in w.contract.accounts
    ensures Act(env, w, DoSetFeature(a, feature, isEnabled)).Ok?
    ensures Act(env, w, DoSetFeature(a, feature, isEnabled)).value.contract.accounts
         == w.contract.accounts[a := Account(0, map[], Timezone(-0x8000_0000_0000_0000), ScoreWindow(w.now, DailyScore(0, 0), DailyScore(0, 0)),
                                             Features(feature.IncreasedApy? && isEnabled, feature.IncreasedScoreCap? && isEnabled))]
    ensures Act(env, w, DoSetTimezone(a, timezone)).Ok?
    ensures Act(env, w, DoSetTimezone(a, timezone)).value.contract.accounts
         == w.contract.accounts[a := Account(0, map[], timezone, ScoreWindow(w.now, DailyScore(0, 0), DailyScore(0, 0)), Features(false, false))]
  {
  }

  lemma TimezoneIsChosenOnce(env: Env, w: World, a: AccountId, timezone: Timezone)
    requires Inv(w) && a in w.contract.accounts
    ensures Act(env, w, DoSetTimezone(a, timezone)).Ok?
    ensures var account, accounts := w.contract.accounts[a], Act(env, w, DoSetTimezone(a, timezone)).value.contract.accounts;
            accounts == w.contract.accounts[a := account.(timezone := if account.timezone.IsValid() then account.timezone else timezone)]
  {
    assert w.contract.accounts[a].timezone.IsValid() ==> w.contract.accounts[a].(timezone := w.contract.accounts[a].timezone) == w.contract.accounts[a];
  }

  /** The booster of an airdrop is the booster the oracle could have applied: for the day
      it was earned, or for today; without a timezone it is passed over. */
  lemma AirdropBoosts(account: Account, products: map<ProductId, Product>, ticket: Ticket, amount: TokenAmount, booster: Score,
                      earnedAt: Option<Timestamp>, now: Timestamp)
    requires Known(account, products) && ticket.productId in products
    requires Airdropped(account, products, ticket, amount, booster, earnedAt, now).Ok?
    ensures var after := Airdropped(account, products, ticket, amount, booster, earnedAt, now).value;
            if booster == 0 || !after.timezone.IsValid() then after.score == account.score
            else
              var tz, event := after.timezone, BoostEvent(now, booster, if earnedAt.Some? then earnedAt.value else now);
              && DaysKnown(tz, account.score.updatedAt, now)
              && after.score == if Accepts(account.score, tz, event) then Scores.AfterEvent(account.score, tz, event)
                                else MovedOn(account.score, DaysSince(tz, account.score.updatedAt, now))
  {
  }
}
