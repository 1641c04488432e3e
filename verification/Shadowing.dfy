/** A claimed jar beside the same jar without the claim: the account and the contract
    in both, and what each call of others does to the two. */
module Shadowing {
  import opened Numbers
  import opened Types
  import opened Interest
  import opened Jars
  import opened Settlement
  import opened Scores
  import opened Tickets
  import opened Accounts
  import opened Promises
  import opened Withdrawals
  import opened Claims
  import opened Restakes
  import opened Contracts
  import opened Protocol
  import opened Safety
  import opened Books
  import opened Schedules
  import opened ClaimOutcomes

  // --- One jar in both runs ---------------------------------------------------

  predicate IsSnapshot(companion: JarCompanion, now: Timestamp) {
    && companion.deposits.None? && companion.cache.Some? && companion.isLocked == Some(false) && companion.claimRemainder.Some?
    && CacheIsPast(companion.cache.value, now)
  }

  /** Put back, the claimed jar would owe what the other owes, at all times. */
  ghost predicate Shadows(rate: Rate, claimed: Jar, other: Jar, companion: JarCompanion, now: Timestamp)
    requires !rate.terms.IsScoreBased()
  {
    && IsSnapshot(companion, now)
    && claimed.deposits == other.deposits && !other.isLocked
    && IsPast(other, now)
    && forall later: nat :: now <= later && LivesFit(rate, other.deposits, later) ==>
         Promised(rate, Applied(claimed, companion), later) == Promised(rate, other, later)
  }

  lemma RefreshShadows(rate: Rate, claimed: Jar, other: Jar, companion: JarCompanion, now: Timestamp)
    requires !rate.terms.IsScoreBased() && Shadows(rate, claimed, other, companion, now)
    ensures Shadows(rate, Refreshed(rate, claimed, now), Refreshed(rate, other, now), companion, now)
  {
    var claimed', other' := Refreshed(rate, claimed, now), Refreshed(rate, other, now);
    assert Applied(claimed', companion) == Applied(claimed, companion);
    forall later: nat | now <= later && LivesFit(rate, other'.deposits, later)
      ensures Promised(rate, Applied(claimed', companion), later) == Promised(rate, other', later)
    {
      RefreshKeepsPromise(rate, other, now, later);
    }
  }

  lemma PushShadows(rate: Rate, claimed: Jar, other: Jar, companion: JarCompanion, now: Timestamp, amount: TokenAmount)
    requires !rate.terms.IsScoreBased() && Shadows(rate, claimed, other, companion, now)
    ensures Shadows(rate, WithDeposit(claimed, Deposit(now, amount)), WithDeposit(other, Deposit(now, amount)), companion, now)
  {
    var deposit := Deposit(now, amount);
    var claimed', other' := WithDeposit(claimed, deposit), WithDeposit(other, deposit);
    assert Applied(claimed', companion) == WithDeposit(Applied(claimed, companion), deposit);
    forall later: nat | now <= later && LivesFit(rate, other'.deposits, later)
      ensures Promised(rate, Applied(claimed', companion), later) == Promised(rate, other', later)
    {
      assert forall i :: 0 <= i < |other.deposits| ==> other.deposits[i] == other'.deposits[i];
      PushAddsToPromise(rate, Applied(claimed, companion), deposit, later);
      PushAddsToPromise(rate, other, deposit, later);
    }
  }

  lemma LaterShadows(rate: Rate, claimed: Jar, other: Jar, companion: JarCompanion, now: Timestamp, later: Timestamp)
    requires !rate.terms.IsScoreBased() && now <= later
    requires Shadows(rate, claimed, other, companion, now)
    ensures Shadows(rate, claimed, other, companion, later)
  {
  }

  // --- The account in both runs -----------------------------------------------

  predicate NoScores(account: Account, products: map<ProductId, Product>)
    requires Known(account, products)
  {
    forall p :: p in account.jars ==> !products[p].terms.IsScoreBased()
  }

  predicate SameSetup(claimed: Account, other: Account, products: map<ProductId, Product>) {
    && Known(claimed, products) && Known(other, products)
    && claimed.jars.Keys == other.jars.Keys
    && NoScores(other, products)
    && claimed.nonce == other.nonce && claimed.features == other.features && claimed.timezone == other.timezone
    && claimed.score.updatedAt == other.score.updatedAt
  }

  ghost predicate TwinJar(terms: Terms, flag: bool, claimed: Jar, other: Jar, companion: Option<JarCompanion>, now: Timestamp)
    requires !terms.IsScoreBased()
  {
    if companion.Some? then Shadows(PlainRate(terms, flag), claimed, other, companion.value, now) else claimed == other
  }

  function CompanionOf(rollback: map<ProductId, JarCompanion>, p: ProductId): Option<JarCompanion> {
    if p in rollback then Some(rollback[p]) else None
  }

  ghost predicate Twins(claimed: Account, other: Account, rollback: map<ProductId, JarCompanion>, products: map<ProductId, Product>, now: Timestamp) {
    && SameSetup(claimed, other, products)
    && rollback.Keys <= other.jars.Keys
    && forall p :: p in other.jars ==>
         TwinJar(products[p].terms, other.features.increasedApy, claimed.jars[p], other.jars[p], CompanionOf(rollback, p), now)
  }

  lemma TwinRefresh(claimed: Account, other: Account, rollback: map<ProductId, JarCompanion>, products: map<ProductId, Product>,
                    ps: set<ProductId>, now: Timestamp)
    requires Twins(claimed, other, rollback, products, now)
    ensures RefreshJars(claimed, products, ps, now).Ok? <==> RefreshJars(other, products, ps, now).Ok?
    ensures RefreshJars(other, products, ps, now).Ok? ==>
              Twins(RefreshJars(claimed, products, ps, now).value, RefreshJars(other, products, ps, now).value, rollback, products, now)
  {
    if RefreshJars(other, products, ps, now).Ok? {
      var claimed', other' := RefreshJars(claimed, products, ps, now).value, RefreshJars(other, products, ps, now).value;
      forall p | p in other'.jars
        ensures TwinJar(products[p].terms, other'.features.increasedApy, claimed'.jars[p], other'.jars[p], CompanionOf(rollback, p), now)
      {
        TwinJarRefresh(claimed, other, rollback, products, p, now);
      }
    }
  }

  lemma TwinJarRefresh(claimed: Account, other: Account, rollback: map<ProductId, JarCompanion>, products: map<ProductId, Product>,
                       p: ProductId, now: Timestamp)
    requires Twins(claimed, other, rollback, products, now) && p in other.jars
    ensures var terms, flag := products[p].terms, other.features.increasedApy;
            && TwinJar(terms, flag, claimed.jars[p], other.jars[p], CompanionOf(rollback, p), now)
            && TwinJar(terms, flag, Refreshed(RateFor(terms, claimed, now), claimed.jars[p], now), Refreshed(RateFor(terms, other, now), other.jars[p], now),
                       CompanionOf(rollback, p), now)
  {
    var terms := products[p].terms;
    PlainRateSuffices(terms, claimed, claimed.jars[p], now);
    PlainRateSuffices(terms, other, other.jars[p], now);
    if p in rollback {
      RefreshShadows(PlainRate(terms, other.features.increasedApy), claimed.jars[p], other.jars[p], rollback[p], now);
    }
  }

  lemma TwinSettle(claimed: Account, other: Account, rollback: map<ProductId, JarCompanion>, products: map<ProductId, Product>, now: Timestamp)
    requires Twins(claimed, other, rollback, products, now)
    ensures Settle(claimed, products, now).Ok? <==> Settle(other, products, now).Ok?
    ensures Settle(other, products, now).Ok? ==>
              Twins(Settle(claimed, products, now).value, Settle(other, products, now).value, rollback, products, now)
  {
    if Settle(other, products, now).Ok? {
      NoScoresNothingSettled(claimed, products, now);
      NoScoresNothingSettled(other, products, now);
    }
  }

  lemma NoScoresNothingSettled(account: Account, products: map<ProductId, Product>, now: Timestamp)
    requires Known(account, products) && NoScores(account, products)
    requires Settle(account, products, now).Ok?
    ensures var settled := Settle(account, products, now).value;
            settled.jars == account.jars && settled.timezone == account.timezone && settled.score.updatedAt == account.score.updatedAt
  {
  }

  lemma TwinRefreshAll(claimed: Account, other: Account, rollback: map<ProductId, JarCompanion>, products: map<ProductId, Product>, now: Timestamp)
    requires Twins(claimed, other, rollback, products, now)
    ensures RefreshAll(claimed, products, now).Ok? <==> RefreshAll(other, products, now).Ok?
    ensures RefreshAll(other, products, now).Ok? ==>
              Twins(RefreshAll(claimed, products, now).value, RefreshAll(other, products, now).value, rollback, products, now)
  {
    TwinSettle(claimed, other, rollback, products, now);
    if Settle(other, products, now).Ok? {
      var claimed', other' := Settle(claimed, products, now).value, Settle(other, products, now).value;
      TwinRefresh(claimed', other', rollback, products, other'.jars.Keys, now);
    }
  }

  lemma TwinPush(claimed: Account, other: Account, rollback: map<ProductId, JarCompanion>, products: map<ProductId, Product>,
                 p: ProductId, amount: TokenAmount, now: Timestamp)
    requires Twins(claimed, other, rollback, products, now)
    requires p in products && !products[p].terms.IsScoreBased()
    ensures Twins(Deposited(claimed, p, amount, now), Deposited(other, p, amount, now), rollback, products, now)
  {
    var claimed', other' := Deposited(claimed, p, amount, now), Deposited(other, p, amount, now);
    forall q | q in other'.jars
      ensures TwinJar(products[q].terms, other'.features.increasedApy, claimed'.jars[q], other'.jars[q], CompanionOf(rollback, q), now)
    {
      TwinJarPush(claimed, other, rollback, products, p, amount, q, now);
    }
  }

  lemma TwinJarPush(claimed: Account, other: Account, rollback: map<ProductId, JarCompanion>, products: map<ProductId, Product>,
                    p: ProductId, amount: TokenAmount, q: ProductId, now: Timestamp)
    requires Twins(claimed, other, rollback, products, now)
    requires p in products && !products[p].terms.IsScoreBased()
    requires q == p || q in other.jars
    ensures q in products && !products[q].terms.IsScoreBased()
    ensures TwinJar(products[q].terms, other.features.increasedApy, Deposited(claimed, p, amount, now).jars[q], Deposited(other, p, amount, now).jars[q],
                    CompanionOf(rollback, q), now)
  {
    if q in other.jars {
      assert TwinJar(products[q].terms, other.features.increasedApy, claimed.jars[q], other.jars[q], CompanionOf(rollback, q), now);
      if q == p && q in rollback {
        PushShadows(PlainRate(products[q].terms, other.features.increasedApy), claimed.jars[q], other.jars[q], rollback[q], now, amount);
      }
    }
  }

  /** A refresh of one jar is a refresh of the set of that jar. */
  lemma RefreshOne(account: Account, products: map<ProductId, Product>, p: ProductId, now: Timestamp)
    requires Known(account, products) && p in account.jars
    requires !products[p].terms.IsScoreBased()
    ensures RefreshJars(account, products, {p}, now).Ok?
    ensures RefreshJars(account, products, {p}, now) == RefreshJar(account, products, p, now)
  {
    assert RefreshJars(account, products, {p}, now).value.jars == RefreshJar(account, products, p, now).value.jars;
  }

  lemma TwinDeposit(claimed: Account, other: Account, rollback: map<ProductId, JarCompanion>, products: map<ProductId, Product>,
                    p: ProductId, amount: TokenAmount, now: Timestamp)
    requires Twins(claimed, other, rollback, products, now)
    requires p in products && !products[p].terms.IsScoreBased()
    ensures DepositAndRefresh(claimed, products, p, amount, now).Ok? && DepositAndRefresh(other, products, p, amount, now).Ok?
    ensures Twins(DepositAndRefresh(claimed, products, p, amount, now).value, DepositAndRefresh(other, products, p, amount, now).value,
                  rollback, products, now)
  {
    var claimed', other' := Deposited(claimed, p, amount, now), Deposited(other, p, amount, now);
    TwinPush(claimed, other, rollback, products, p, amount, now);
    RefreshOne(claimed', products, p, now);
    RefreshOne(other', products, p, now);
    TwinRefresh(claimed', other', rollback, products, {p}, now);
  }

  lemma TwinStake(claimed: Account, other: Account, rollback: map<ProductId, JarCompanion>, products: map<ProductId, Product>,
                  ticket: Ticket, amount: TokenAmount, now: Timestamp)
    requires Twins(claimed, other, rollback, products, now)
    requires ticket.productId in products && !products[ticket.productId].terms.IsScoreBased()
    ensures StakeAccepted(claimed, products, ticket, amount, now).Ok? && StakeAccepted(other, products, ticket, amount, now).Ok?
    ensures Twins(StakeAccepted(claimed, products, ticket, amount, now).value, StakeAccepted(other, products, ticket, amount, now).value,
                  rollback, products, now)
  {
    PlainStake(claimed, products, ticket, amount, now);
    PlainStake(other, products, ticket, amount, now);
    TwinNonce(claimed, other, rollback, products, now);
    TwinDeposit(claimed.(nonce := claimed.nonce + 1), other.(nonce := other.nonce + 1), rollback, products, ticket.productId, amount, now);
  }

  lemma PlainStake(account: Account, products: map<ProductId, Product>, ticket: Ticket, amount: TokenAmount, now: Timestamp)
    requires Known(account, products) && ticket.productId in products && !products[ticket.productId].terms.IsScoreBased()
    ensures StakeAccepted(account, products, ticket, amount, now)
         == DepositAndRefresh(account.(nonce := account.nonce + 1), products, ticket.productId, amount, now)
  {
  }

  lemma TwinAirdrop(claimed: Account, other: Account, rollback: map<ProductId, JarCompanion>, products: map<ProductId, Product>,
                    ticket: Ticket, amount: TokenAmount, earnedAt: Option<Timestamp>, now: Timestamp)
    requires Twins(claimed, other, rollback, products, now)
    requires ticket.productId in products && !products[ticket.productId].terms.IsScoreBased()
    ensures Airdropped(claimed, products, ticket, amount, 0, earnedAt, now).Ok? && Airdropped(other, products, ticket, amount, 0, earnedAt, now).Ok?
    ensures Twins(Airdropped(claimed, products, ticket, amount, 0, earnedAt, now).value, Airdropped(other, products, ticket, amount, 0, earnedAt, now).value,
                  rollback, products, now)
  {
    PlainAirdrop(claimed, products, ticket, amount, earnedAt, now);
    PlainAirdrop(other, products, ticket, amount, earnedAt, now);
    TwinDeposit(claimed, other, rollback, products, ticket.productId, amount, now);
  }

  lemma PlainAirdrop(account: Account, products: map<ProductId, Product>, ticket: Ticket, amount: TokenAmount,
                     earnedAt: Option<Timestamp>, now: Timestamp)
    requires Known(account, products) && ticket.productId in products && !products[ticket.productId].terms.IsScoreBased()
    ensures Airdropped(account, products, ticket, amount, 0, earnedAt, now) == DepositAndRefresh(account, products, ticket.productId, amount, now)
  {
  }

  /** No booster, and no change of the rate. */
  predicate IsNeutral(update: Update) {
    !update.ApplyBooster? && !(update.SetFeature? && update.feature.IncreasedApy?)
  }

  lemma TwinUpdate(claimed: Account, other: Account, rollback: map<ProductId, JarCompanion>, products: map<ProductId, Product>,
                   update: Update, now: Timestamp)
    requires Twins(claimed, other, rollback, products, now) && IsNeutral(update)
    ensures Updated(claimed, products, update, now).Ok? <==> Updated(other, products, update, now).Ok?
    ensures Updated(other, products, update, now).Ok? ==>
              Twins(Updated(claimed, products, update, now).value, Updated(other, products, update, now).value, rollback, products, now)
  {
    match update
    case SetFeature(_, _) => TwinRefreshAll(claimed, other, rollback, products, now);
    case RecordScore(_) => TwinSettle(claimed, other, rollback, products, now);
  }

  // --- Callbacks of the account's other promises -------------------------------

  lemma TwinFinishWithdraw(claimed: Account, other: Account, rollback: map<ProductId, JarCompanion>, products: map<ProductId, Product>,
                           parts: map<ProductId, Part>, isSuccess: bool, now: Timestamp)
    requires Twins(claimed, other, rollback, products, now) && parts.Keys !! rollback.Keys
    ensures FinishWithdraw(claimed, parts, isSuccess).Ok? <==> FinishWithdraw(other, parts, isSuccess).Ok?
    ensures FinishWithdraw(other, parts, isSuccess).Ok? ==>
              Twins(FinishWithdraw(claimed, parts, isSuccess).value, FinishWithdraw(other, parts, isSuccess).value, rollback, products, now)
  {
    SameRange(claimed, other, rollback, products, parts, now);
    if FinishWithdraw(other, parts, isSuccess).Ok? {
      var claimed', other' := FinishWithdraw(claimed, parts, isSuccess).value, FinishWithdraw(other, parts, isSuccess).value;
      FinishedWithdrawal(claimed, parts, isSuccess);
      FinishedWithdrawal(other, parts, isSuccess);
      TwinFinished(claimed, other, claimed', other', rollback, products, parts, isSuccess, now);
    }
  }

  lemma SameRange(claimed: Account, other: Account, rollback: map<ProductId, JarCompanion>, products: map<ProductId, Product>,
                  parts: map<ProductId, Part>, now: Timestamp)
    requires Twins(claimed, other, rollback, products, now) && parts.Keys !! rollback.Keys
    ensures forall p :: p in other.jars && p !in rollback ==> claimed.jars[p] == other.jars[p]
    ensures InRange(claimed, parts) <==> InRange(other, parts)
  {
    forall p | p in other.jars && p !in rollback ensures claimed.jars[p] == other.jars[p] {
      assert TwinJar(products[p].terms, other.features.increasedApy, claimed.jars[p], other.jars[p], CompanionOf(rollback, p), now);
    }
  }

  /** The claimed jars are as they were, and all others are the same in both. */
  lemma TwinElsewhere(claimed: Account, other: Account, claimed': Account, other': Account, rollback: map<ProductId, JarCompanion>,
                      products: map<ProductId, Product>, now: Timestamp)
    requires Twins(claimed, other, rollback, products, now)
    requires claimed' == claimed.(jars := claimed'.jars) && other' == other.(jars := other'.jars)
    requires rollback.Keys <= other'.jars.Keys == claimed'.jars.Keys <= other.jars.Keys
    requires forall p :: p in other'.jars ==>
               if p in rollback then claimed'.jars[p] == claimed.jars[p] && other'.jars[p] == other.jars[p] else claimed'.jars[p] == other'.jars[p]
    ensures Twins(claimed', other', rollback, products, now)
  {
    forall p | p in other'.jars
      ensures TwinJar(products[p].terms, other'.features.increasedApy, claimed'.jars[p], other'.jars[p], CompanionOf(rollback, p), now)
    {
      assert TwinJar(products[p].terms, other.features.increasedApy, claimed.jars[p], other.jars[p], CompanionOf(rollback, p), now);
    }
  }

  /** What a withdrawal callback leaves of one jar. */
  function Left(jar: Jar, part: Option<Part>, isSuccess: bool): Option<Jar>
    requires part.Some? && isSuccess ==> part.value.index <= |jar.deposits|
  {
    if part.None? then Some(jar)
    else if !isSuccess then Some(WithLock(jar, false))
    else if ShouldClose(TakenOut(jar, part.value.index)) then None
    else Some(TakenOut(jar, part.value.index))
  }

  predicate IsFinished(account: Account, parts: map<ProductId, Part>, isSuccess: bool, after: Account) {
    && after == account.(jars := after.jars)
    && (isSuccess ==> InRange(account, parts))
    && after.jars.Keys <= account.jars.Keys
    && forall p :: p in account.jars ==> Left(account.jars[p], PartOf(parts, p), isSuccess) == (if p in after.jars then Some(after.jars[p]) else None)
  }

  lemma FinishedWithdrawal(account: Account, parts: map<ProductId, Part>, isSuccess: bool)
    requires FinishWithdraw(account, parts, isSuccess).Ok?
    ensures IsFinished(account, parts, isSuccess, FinishWithdraw(account, parts, isSuccess).value)
  {
  }

  lemma TwinFinished(claimed: Account, other: Account, claimed': Account, other': Account, rollback: map<ProductId, JarCompanion>,
                     products: map<ProductId, Product>, parts: map<ProductId, Part>, isSuccess: bool, now: Timestamp)
    requires Twins(claimed, other, rollback, products, now) && parts.Keys !! rollback.Keys
    requires IsFinished(claimed, parts, isSuccess, claimed') && IsFinished(other, parts, isSuccess, other')
    ensures Twins(claimed', other', rollback, products, now)
  {
    SameRange(claimed, other, rollback, products, parts, now);
    forall p | p in other.jars
      ensures p in claimed'.jars <==> p in other'.jars
      ensures p in rollback ==> p in other'.jars && claimed'.jars[p] == claimed.jars[p] && other'.jars[p] == other.jars[p]
      ensures p !in rollback && p in other'.jars ==> claimed'.jars[p] == other'.jars[p]
    {
      assert p !in rollback ==> claimed.jars[p] == other.jars[p];
    }
    assert claimed'.jars.Keys == other'.jars.Keys;
    TwinElsewhere(claimed, other, claimed', other', rollback, products, now);
  }

  lemma TwinFinishRestake(claimed: Account, other: Account, rollback: map<ProductId, JarCompanion>, products: map<ProductId, Product>,
                          promise: Promise, isSuccess: bool, now: Timestamp)
    requires Twins(claimed, other, rollback, products, now)
    requires promise.AfterRemainder? && promise.parts.Keys !! rollback.Keys
    requires promise.into in products && !products[promise.into].terms.IsScoreBased()
    ensures FinishRestake(claimed, promise, isSuccess, now).Ok? <==> FinishRestake(other, promise, isSuccess, now).Ok?
    ensures FinishRestake(other, promise, isSuccess, now).Ok? ==>
              Twins(FinishRestake(claimed, promise, isSuccess, now).value, FinishRestake(other, promise, isSuccess, now).value, rollback, products, now)
  {
    var parts := promise.parts;
    if parts.Keys <= other.jars.Keys {
      var claimed', other' := AllWithLock(claimed, parts.Keys, false), AllWithLock(other, parts.Keys, false);
      if isSuccess && PartsInRange(other', parts) {
        TwinCleanUp(claimed', other', rollback, products, parts, promise.into, promise.restaked, now);
      }
    }
  }

  function CleanedUp(account: Account, parts: map<ProductId, Part>): Account
    requires PartsInRange(account, parts)
  {
    account.(jars := map p | p in account.jars :: if p in parts then WithoutPrefix(account.jars[p], parts[p].index) else account.jars[p])
  }

  lemma TwinCleanUp(claimed: Account, other: Account, rollback: map<ProductId, JarCompanion>, products: map<ProductId, Product>,
                    parts: map<ProductId, Part>, into: ProductId, amount: TokenAmount, now: Timestamp)
    requires Twins(claimed, other, rollback, products, now) && parts.Keys !! rollback.Keys
    requires into in products && !products[into].terms.IsScoreBased()
    requires PartsInRange(other, parts)
    ensures CleanUpAndDeposit(claimed, parts, into, amount, now).Ok? && CleanUpAndDeposit(other, parts, into, amount, now).Ok?
    ensures Twins(CleanUpAndDeposit(claimed, parts, into, amount, now).value, CleanUpAndDeposit(other, parts, into, amount, now).value,
                  rollback, products, now)
  {
    TwinCleaned(claimed, other, rollback, products, parts, now);
    CleanUpIs(claimed, parts, into, amount, now);
    CleanUpIs(other, parts, into, amount, now);
    var claimed', other' := CleanedUp(claimed, parts), CleanedUp(other, parts);
    TwinPush(claimed', other', rollback, products, into, amount, now);
    TwinNonce(Deposited(claimed', into, amount, now), Deposited(other', into, amount, now), rollback, products, now);
  }

  lemma CleanUpIs(account: Account, parts: map<ProductId, Part>, into: ProductId, amount: TokenAmount, now: Timestamp)
    requires PartsInRange(account, parts)
    ensures var deposited := Deposited(CleanedUp(account, parts), into, amount, now);
            CleanUpAndDeposit(account, parts, into, amount, now) == Ok(deposited.(nonce := deposited.nonce + 1))
  {
  }

  lemma TwinCleaned(claimed: Account, other: Account, rollback: map<ProductId, JarCompanion>, products: map<ProductId, Product>,
                    parts: map<ProductId, Part>, now: Timestamp)
    requires Twins(claimed, other, rollback, products, now) && parts.Keys !! rollback.Keys
    requires PartsInRange(other, parts)
    ensures PartsInRange(claimed, parts)
    ensures Twins(CleanedUp(claimed, parts), CleanedUp(other, parts), rollback, products, now)
  {
    var claimed', other' := CleanedUp(claimed, parts), CleanedUp(other, parts);
    forall p | p in other.jars && p !in rollback ensures claimed'.jars[p] == other'.jars[p] {
      assert TwinJar(products[p].terms, other.features.increasedApy, claimed.jars[p], other.jars[p], None, now);
    }
  }

  lemma TwinNonce(claimed: Account, other: Account, rollback: map<ProductId, JarCompanion>, products: map<ProductId, Product>, now: Timestamp)
    requires Twins(claimed, other, rollback, products, now)
    ensures Twins(claimed.(nonce := claimed.nonce + 1), other.(nonce := other.nonce + 1), rollback, products, now)
  {
  }

  lemma TwinFinishClaim(claimed: Account, other: Account, rollback: map<ProductId, JarCompanion>, products: map<ProductId, Product>,
                        promise: Promise, isSuccess: bool, now: Timestamp)
    requires Twins(claimed, other, rollback, products, now)
    requires promise.AfterClaim? && promise.rollback.Keys !! rollback.Keys
    ensures FinishClaim(claimed, promise, isSuccess).Ok? <==> FinishClaim(other, promise, isSuccess).Ok?
    ensures FinishClaim(other, promise, isSuccess).Ok? ==>
              Twins(FinishClaim(claimed, promise, isSuccess).value, FinishClaim(other, promise, isSuccess).value, rollback, products, now)
  {
  }

  lemma LaterTwins(claimed: Account, other: Account, rollback: map<ProductId, JarCompanion>, products: map<ProductId, Product>,
                   now: Timestamp, later: Timestamp)
    requires Twins(claimed, other, rollback, products, now) && now <= later
    ensures Twins(claimed, other, rollback, products, later)
  {
    forall p | p in other.jars
      ensures TwinJar(products[p].terms, other.features.increasedApy, claimed.jars[p], other.jars[p], CompanionOf(rollback, p), later)
    {
      if p in rollback {
        LaterShadows(PlainRate(products[p].terms, other.features.increasedApy), claimed.jars[p], other.jars[p], rollback[p], now, later);
      }
    }
  }

  // --- The contract in both runs ----------------------------------------------

  /** Only the one account differs. */
  ghost predicate TwinStates(c: State, o: State, a: AccountId, rollback: map<ProductId, JarCompanion>, now: Timestamp) {
    && c.products == o.products && c.feeAmount == o.feeAmount
    && c.accounts.Keys == o.accounts.Keys && a in o.accounts
    && (forall b :: b in o.accounts && b != a ==> c.accounts[b] == o.accounts[b])
    && Twins(c.accounts[a], o.accounts[a], rollback, o.products, now)
  }

  lemma TwinAccountOf(c: State, o: State, a: AccountId, rollback: map<ProductId, JarCompanion>, now: Timestamp, b: AccountId)
    requires TwinStates(c, o, a, rollback, now) && b != a
    ensures AccountOf(c, b) == AccountOf(o, b) && AccountOrNew(c, b, now) == AccountOrNew(o, b, now)
  {
  }

  lemma TwinForeign(c: State, o: State, a: AccountId, rollback: map<ProductId, JarCompanion>, now: Timestamp, b: AccountId, after: Account)
    requires TwinStates(c, o, a, rollback, now) && b != a
    ensures TwinStates(WithAccount(c, b, after), WithAccount(o, b, after), a, rollback, now)
  {
  }

  lemma TwinOwn(c: State, o: State, a: AccountId, rollback: map<ProductId, JarCompanion>, now: Timestamp, claimed: Account, other: Account)
    requires TwinStates(c, o, a, rollback, now) && Twins(claimed, other, rollback, o.products, now)
    ensures TwinStates(WithAccount(c, a, claimed), WithAccount(o, a, other), a, rollback, now)
  {
  }

  predicate IsPlain(products: map<ProductId, Product>, p: ProductId) {
    p in products ==> !products[p].terms.IsScoreBased()
  }

  lemma TwinStakeCall(env: Env, c: State, o: State, a: AccountId, rollback: map<ProductId, JarCompanion>, now: Timestamp,
                      b: AccountId, ticket: Ticket, signature: Option<string>, amount: TokenAmount)
    requires KnownState(c) && KnownState(o) && TwinStates(c, o, a, rollback, now)
    requires b == a ==> IsPlain(o.products, ticket.productId)
    ensures Stake(env, c, b, ticket, signature, amount, now).Ok? <==> Stake(env, o, b, ticket, signature, amount, now).Ok?
    ensures Stake(env, o, b, ticket, signature, amount, now).Ok? ==>
              TwinStates(Stake(env, c, b, ticket, signature, amount, now).value, Stake(env, o, b, ticket, signature, amount, now).value, a, rollback, now)
  {
    if b != a {
      TwinAccountOf(c, o, a, rollback, now, b);
      if Stake(env, o, b, ticket, signature, amount, now).Ok? {
        TwinForeign(c, o, a, rollback, now, b, Staked(env, b, AccountOf(o, b), o.products, ticket, signature, amount, now).value);
      }
    } else {
      OwnStake(env, c, o, a, rollback, now, ticket, signature, amount);
    }
  }

  lemma OwnStake(env: Env, c: State, o: State, a: AccountId, rollback: map<ProductId, JarCompanion>, now: Timestamp,
                 ticket: Ticket, signature: Option<string>, amount: TokenAmount)
    requires KnownState(c) && KnownState(o) && TwinStates(c, o, a, rollback, now) && IsPlain(o.products, ticket.productId)
    ensures Stake(env, c, a, ticket, signature, amount, now).Ok? <==> Stake(env, o, a, ticket, signature, amount, now).Ok?
    ensures Stake(env, o, a, ticket, signature, amount, now).Ok? ==>
              TwinStates(Stake(env, c, a, ticket, signature, amount, now).value, Stake(env, o, a, ticket, signature, amount, now).value, a, rollback, now)
  {
    TwinStaked(env, a, c.accounts[a], o.accounts[a], rollback, o.products, ticket, signature, amount, now);
    var claimed, other := Staked(env, a, Some(c.accounts[a]), o.products, ticket, signature, amount, now),
                          Staked(env, a, Some(o.accounts[a]), o.products, ticket, signature, amount, now);
    if other.Ok? {
      TwinOwn(c, o, a, rollback, now, claimed.value, other.value);
    }
  }

  lemma TwinStaked(env: Env, a: AccountId, claimed: Account, other: Account, rollback: map<ProductId, JarCompanion>, products: map<ProductId, Product>,
                   ticket: Ticket, signature: Option<string>, amount: TokenAmount, now: Timestamp)
    requires Twins(claimed, other, rollback, products, now) && IsPlain(products, ticket.productId)
    ensures var claimed', other' := Staked(env, a, Some(claimed), products, ticket, signature, amount, now),
                                    Staked(env, a, Some(other), products, ticket, signature, amount, now);
            && (claimed'.Ok? <==> other'.Ok?)
            && (other'.Ok? ==> Twins(claimed'.value, other'.value, rollback, products, now))
  {
    assert StakeMessage(env, a, Some(claimed), ticket, amount) == StakeMessage(env, a, Some(other), ticket, amount);
    if ticket.productId in products {
      TwinStake(claimed, other, rollback, products, ticket, amount, now);
    }
  }

  lemma {:induction false} TwinAirdropAll(c: State, o: State, a: AccountId, rollback: map<ProductId, JarCompanion>, now: Timestamp,
                                          ticket: Ticket, amount: TokenAmount, receivers: seq<AccountId>, booster: Score, earnedAt: Option<Timestamp>)
    requires KnownState(c) && KnownState(o) && TwinStates(c, o, a, rollback, now) && ticket.productId in o.products
    requires a in receivers ==> booster == 0 && IsPlain(o.products, ticket.productId)
    ensures AirdropAll(c, ticket, amount, receivers, booster, earnedAt, now).Ok? <==> AirdropAll(o, ticket, amount, receivers, booster, earnedAt, now).Ok?
    ensures AirdropAll(o, ticket, amount, receivers, booster, earnedAt, now).Ok? ==>
              TwinStates(AirdropAll(c, ticket, amount, receivers, booster, earnedAt, now).value,
                         AirdropAll(o, ticket, amount, receivers, booster, earnedAt, now).value, a, rollback, now)
  {
    if receivers != [] {
      var n := |receivers| - 1;
      TwinAirdropAll(c, o, a, rollback, now, ticket, amount, receivers[..n], booster, earnedAt);
      if AirdropAll(o, ticket, amount, receivers[..n], booster, earnedAt, now).Ok? {
        var c', o' := AirdropAll(c, ticket, amount, receivers[..n], booster, earnedAt, now).value,
                      AirdropAll(o, ticket, amount, receivers[..n], booster, earnedAt, now).value;
        TwinShare(c', o', a, rollback, now, ticket, amount, receivers[n], booster, earnedAt);
      }
    }
  }

  lemma TwinShare(c: State, o: State, a: AccountId, rollback: map<ProductId, JarCompanion>, now: Timestamp,
                  ticket: Ticket, amount: TokenAmount, receiver: AccountId, booster: Score, earnedAt: Option<Timestamp>)
    requires KnownState(c) && KnownState(o) && TwinStates(c, o, a, rollback, now) && ticket.productId in o.products
    requires receiver == a ==> booster == 0 && IsPlain(o.products, ticket.productId)
    ensures var claimed, other := Airdropped(AccountOrNew(c, receiver, now), o.products, ticket, amount, booster, earnedAt, now),
                                  Airdropped(AccountOrNew(o, receiver, now), o.products, ticket, amount, booster, earnedAt, now);
            && (claimed.Ok? <==> other.Ok?)
            && (other.Ok? ==> TwinStates(WithAccount(c, receiver, claimed.value), WithAccount(o, receiver, other.value), a, rollback, now))
  {
    if receiver == a {
      TwinAirdrop(c.accounts[a], o.accounts[a], rollback, o.products, ticket, amount, earnedAt, now);
      TwinOwn(c, o, a, rollback, now, Airdropped(c.accounts[a], o.products, ticket, amount, 0, earnedAt, now).value,
              Airdropped(o.accounts[a], o.products, ticket, amount, 0, earnedAt, now).value);
    } else {
      var share := Airdropped(AccountOrNew(o, receiver, now), o.products, ticket, amount, booster, earnedAt, now);
      TwinAccountOf(c, o, a, rollback, now, receiver);
      if share.Ok? {
        TwinForeign(c, o, a, rollback, now, receiver, share.value);
      }
    }
  }

  lemma TwinUpdateAccount(c: State, o: State, a: AccountId, rollback: map<ProductId, JarCompanion>, now: Timestamp, b: AccountId, update: Update)
    requires KnownState(c) && KnownState(o) && TwinStates(c, o, a, rollback, now)
    requires b == a ==> IsNeutral(update)
    ensures UpdateAccount(c, b, update, now).Ok? <==> UpdateAccount(o, b, update, now).Ok?
    ensures UpdateAccount(o, b, update, now).Ok? ==>
              TwinStates(UpdateAccount(c, b, update, now).value, UpdateAccount(o, b, update, now).value, a, rollback, now)
  {
    if b == a {
      TwinUpdate(c.accounts[a], o.accounts[a], rollback, o.products, update, now);
      if Updated(o.accounts[a], o.products, update, now).Ok? {
        TwinOwn(c, o, a, rollback, now, Updated(c.accounts[a], c.products, update, now).value, Updated(o.accounts[a], o.products, update, now).value);
      }
    } else if b in o.accounts && Updated(o.accounts[b], o.products, update, now).Ok? {
      TwinForeign(c, o, a, rollback, now, b, Updated(o.accounts[b], o.products, update, now).value);
    }
  }

  lemma {:induction false} TwinUpdateAll(c: State, o: State, a: AccountId, rollback: map<ProductId, JarCompanion>, now: Timestamp,
                                         batch: seq<(AccountId, Update)>)
    requires KnownState(c) && KnownState(o) && TwinStates(c, o, a, rollback, now)
    requires forall i :: 0 <= i < |batch| && batch[i].0 == a ==> IsNeutral(batch[i].1)
    ensures UpdateAll(c, batch, now).Ok? <==> UpdateAll(o, batch, now).Ok?
    ensures UpdateAll(o, batch, now).Ok? ==> TwinStates(UpdateAll(c, batch, now).value, UpdateAll(o, batch, now).value, a, rollback, now)
  {
    if batch != [] {
      var n := |batch| - 1;
      TwinUpdateAll(c, o, a, rollback, now, batch[..n]);
      if UpdateAll(o, batch[..n], now).Ok? {
        TwinUpdateAccount(UpdateAll(c, batch[..n], now).value, UpdateAll(o, batch[..n], now).value, a, rollback, now, batch[n].0, batch[n].1);
      }
    }
  }

  /** Callbacks of promises that own none of the claimed jars. */
  lemma TwinFinish(c: State, o: State, a: AccountId, rollback: map<ProductId, JarCompanion>, now: Timestamp, promise: Promise, isSuccess: bool)
    requires TwinStates(c, o, a, rollback, now)
    requires !promise.AfterFee? && promise.account == a ==> Owned(promise) !! rollback.Keys
    requires promise.AfterRemainder? && promise.account == a ==> promise.into in o.products && IsPlain(o.products, promise.into)
    ensures Finish(c, promise, isSuccess, now).Ok? <==> Finish(o, promise, isSuccess, now).Ok?
    ensures Finish(o, promise, isSuccess, now).Ok? ==>
              TwinStates(Finish(c, promise, isSuccess, now).value, Finish(o, promise, isSuccess, now).value, a, rollback, now)
  {
    if !promise.AfterFee? && promise.account == a {
      OwnFinish(c, o, a, rollback, now, promise, isSuccess);
    } else {
      ForeignFinish(c, o, a, rollback, now, promise, isSuccess);
    }
  }

  lemma ForeignFinish(c: State, o: State, a: AccountId, rollback: map<ProductId, JarCompanion>, now: Timestamp, promise: Promise, isSuccess: bool)
    requires TwinStates(c, o, a, rollback, now)
    requires promise.AfterFee? || promise.account != a
    ensures Finish(c, promise, isSuccess, now).Ok? <==> Finish(o, promise, isSuccess, now).Ok?
    ensures Finish(o, promise, isSuccess, now).Ok? ==>
              TwinStates(Finish(c, promise, isSuccess, now).value, Finish(o, promise, isSuccess, now).value, a, rollback, now)
  {
    if !promise.AfterFee? && Finish(o, promise, isSuccess, now).Ok? {
      TwinForeign(c, o, a, rollback, now, promise.account, Finish(o, promise, isSuccess, now).value.accounts[promise.account]);
    }
  }

  lemma OwnFinish(c: State, o: State, a: AccountId, rollback: map<ProductId, JarCompanion>, now: Timestamp, promise: Promise, isSuccess: bool)
    requires TwinStates(c, o, a, rollback, now)
    requires !promise.AfterFee? && promise.account == a && Owned(promise) !! rollback.Keys
    requires promise.AfterRemainder? ==> promise.into in o.products && IsPlain(o.products, promise.into)
    ensures Finish(c, promise, isSuccess, now).Ok? <==> Finish(o, promise, isSuccess, now).Ok?
    ensures Finish(o, promise, isSuccess, now).Ok? ==>
              TwinStates(Finish(c, promise, isSuccess, now).value, Finish(o, promise, isSuccess, now).value, a, rollback, now)
  {
    match promise
    case AfterWithdraw(_, requests, _) => TwinFinishWithdraw(c.accounts[a], o.accounts[a], rollback, o.products, PartsOf(requests), isSuccess, now);
    case AfterRemainder(_, _, _, _, _, _, _) => TwinFinishRestake(c.accounts[a], o.accounts[a], rollback, o.products, promise, isSuccess, now);
    case AfterClaim(_, _, _, _, _) => TwinFinishClaim(c.accounts[a], o.accounts[a], rollback, o.products, promise, isSuccess, now);
  }
}
