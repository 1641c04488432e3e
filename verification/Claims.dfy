/** Claiming the interest of all unlocked jars. */
module Claims {
  import opened Numbers
  import opened Types
  import opened Interest
  import opened Jars
  import opened Settlement
  import opened Accounts
  import opened Promises

  const MAX_JARS_PER_CLAIM: nat := 200

  predicate AllAccrue(account: Account, products: map<ProductId, Product>, now: Timestamp)
    requires Known(account, products)
  {
    forall p :: p in account.jars && !account.jars[p].isLocked ==>
      CanAccrue(account, products[p].terms, account.jars[p], now)
  }

  function InterestOf(account: Account, products: map<ProductId, Product>, p: ProductId, now: Timestamp): (TokenAmount, nat)
    requires Known(account, products)
    requires p in account.jars && CanAccrue(account, products[p].terms, account.jars[p], now)
  {
    JarInterest(RateFor(products[p].terms, account, now), account.jars[p], now)
  }

  /** Unlocked jars with something to claim. */
  function Claimable(account: Account, products: map<ProductId, Product>, now: Timestamp): map<ProductId, TokenAmount>
    requires Known(account, products)
    requires AllAccrue(account, products, now)
  {
    map p | p in account.jars && !account.jars[p].isLocked && InterestOf(account, products, p, now).0 != 0 ::
      InterestOf(account, products, p, now).0
  }

  /** The claimed interest leaves the caches. */
  function WithClaims(account: Account, products: map<ProductId, Product>, now: Timestamp): Account
    requires Known(account, products)
    requires AllAccrue(account, products, now)
  {
    var amounts := Claimable(account, products, now);
    account.(jars := map p | p in account.jars ::
      if p in amounts then Claimed(account.jars[p], InterestOf(account, products, p, now).1, now)
      else account.jars[p])
  }

  function Rollbacks(account: Account, ps: set<ProductId>): map<ProductId, JarCompanion>
    requires ps <= account.jars.Keys
  {
    map p | p in ps :: Rollback(account.jars[p])
  }

  function ClaimTotal(a: AccountId, account: Account, products: map<ProductId, Product>, now: Timestamp): (r: Result<Outcome>)
    requires Known(account, products)
    ensures r.Ok? ==> r.value.account.features == account.features && r.value.account.nonce == account.nonce
  {
    var settled :- Settle(account, products, now);
    ClaimSettled(a, settled, products, now)
  }

  function ClaimSettled(a: AccountId, settled: Account, products: map<ProductId, Product>, now: Timestamp): Result<Outcome>
    requires Known(settled, products)
  {
    if !AllAccrue(settled, products, now) then Err(TimestampOutOfRange) else
      var amounts := Claimable(settled, products, now);
      if |amounts| > MAX_JARS_PER_CLAIM then Err(TooManyJars)
      else if amounts == map[] then Ok(Outcome(settled, None))
      else
        Ok(Outcome(AllWithLock(WithClaims(settled, products, now), amounts.Keys, true),
                   Some(AfterClaim(a, Rollbacks(settled, amounts.Keys), amounts, settled.score, settled.timezone))))
  }

  // --- The callback -----------------------------------------------------------

  /** Success unlocks, and closes what is empty; failure puts the snapshot back. */
  function FinishClaim(account: Account, promise: Promise, isSuccess: bool): Result<Account>
    requires promise.AfterClaim?
  {
    var ps := promise.rollback.Keys;
    if !(ps <= account.jars.Keys) then Err(JarNotFound)
    else if isSuccess then
      Ok(account.(jars := map p | p in account.jars && (p in ps ==> !ShouldClose(account.jars[p])) ::
           if p in ps then WithLock(account.jars[p], false) else account.jars[p]))
    else
      Ok(account.(
           jars := map p | p in account.jars ::
             if p in ps then Applied(account.jars[p], promise.rollback[p]) else account.jars[p],
           timezone := promise.timezone,
           score := promise.score))
  }

  /** Snapshots carry a cache, a remainder and an open lock, and no deposits. */
  predicate AreRollbacks(rollback: map<ProductId, JarCompanion>) {
    forall p :: p in rollback ==>
      && rollback[p].deposits.None? && rollback[p].cache.Some?
      && rollback[p].isLocked == Some(false) && rollback[p].claimRemainder.Some?
  }

  lemma WithClaimsKeepsHoldings(settled: Account, products: map<ProductId, Product>, now: Timestamp)
    requires Known(settled, products)
    requires AllAccrue(settled, products, now)
    ensures SameHoldings(settled, WithClaims(settled, products, now), now)
    ensures Claimable(settled, products, now).Keys <= settled.jars.Keys
    ensures forall p :: p in Claimable(settled, products, now) ==> !settled.jars[p].isLocked
  {
  }

  lemma ClaimSettledOpens(a: AccountId, before: Account, settled: Account, products: map<ProductId, Product>, now: Timestamp)
    requires Known(before, products)
    requires SameHoldings(before, settled, now)
    requires ClaimSettled(a, settled, products, now).Ok?
    ensures Opened(before, ClaimSettled(a, settled, products, now).value, products, now)
  {
    var amounts := Claimable(settled, products, now);
    if amounts == map[] {
      SameHoldingsOpen(before, settled, products, now);
    } else {
      WithClaimsKeepsHoldings(settled, products, now);
      LockingOpens(before, WithClaims(settled, products, now), amounts.Keys, map[], products, now);
    }
  }

  lemma ClaimTotalOpens(a: AccountId, account: Account, products: map<ProductId, Product>, now: Timestamp)
    requires Known(account, products)
    requires ClaimTotal(a, account, products, now).Ok?
    ensures Opened(account, ClaimTotal(a, account, products, now).value, products, now)
  {
    SettleKeepsHoldings(account, products, now);
    ClaimSettledOpens(a, account, Settle(account, products, now).value, products, now);
  }

  lemma FinishClaimCloses(account: Account, promise: Promise, products: map<ProductId, Product>, isSuccess: bool, now: Timestamp)
    requires Known(account, products)
    requires promise.AfterClaim? && AreRollbacks(promise.rollback) && SnapshotsArePast(promise, now)
    requires FinishClaim(account, promise, isSuccess).Ok?
    ensures Closes(account, FinishClaim(account, promise, isSuccess).value, promise.rollback.Keys, products, now)
  {
  }

  // --- A claim that succeeds --------------------------------------------------

  /** The account after a claim whose transfer succeeds. */
  function AfterClaimed(outcome: Outcome): Result<Account>
    requires outcome.promise.Some? ==> outcome.promise.value.AfterClaim?
  {
    if outcome.promise.None? then Ok(outcome.account) else FinishClaim(outcome.account, outcome.promise.value, true)
  }

  function ClaimedFrom(outcome: Outcome, p: ProductId): TokenAmount
    requires outcome.promise.Some? ==> outcome.promise.value.AfterClaim?
  {
    if outcome.promise.Some? && p in outcome.promise.value.amounts then outcome.promise.value.amounts[p] else 0
  }

  function ClaimedJar(jar: Jar, interest: TokenAmount, remainder: nat, now: Timestamp): Jar {
    if interest == 0 then jar else Claimed(jar, remainder, now)
  }

  lemma OutcomeOfJar(a: AccountId, settled: Account, products: map<ProductId, Product>, now: Timestamp, p: ProductId)
    requires Known(settled, products) && p in settled.jars && !settled.jars[p].isLocked
    requires ClaimSettled(a, settled, products, now).Ok?
    ensures CanAccrue(settled, products[p].terms, settled.jars[p], now)
    ensures var outcome := ClaimSettled(a, settled, products, now).value;
            var (interest, remainder) := InterestOf(settled, products, p, now);
            && outcome.account.jars.Keys == settled.jars.Keys
            && outcome.account.features == settled.features && outcome.account.timezone == settled.timezone
            && outcome.account.score == settled.score
            && (outcome.promise.Some? ==>
                  && outcome.promise.value.AfterClaim? && outcome.promise.value.timezone == settled.timezone
                  && outcome.promise.value.amounts.Keys == outcome.promise.value.rollback.Keys <= settled.jars.Keys)
            && (p in OwnedBy(outcome.promise) <==> interest != 0)
            && (interest != 0 ==> outcome.promise.value.amounts[p] == interest)
            && outcome.account.jars[p] == if interest == 0 then settled.jars[p] else WithLock(Claimed(settled.jars[p], remainder, now), true)
  {
  }

  /** What a completed claim pays from one jar, and what it leaves of it: the jar is
      claimed or untouched, and gone only if it is empty. */
  lemma SettledClaimOfJar(a: AccountId, settled: Account, products: map<ProductId, Product>, now: Timestamp, p: ProductId)
    requires Known(settled, products) && p in settled.jars && !settled.jars[p].isLocked
    requires ClaimSettled(a, settled, products, now).Ok?
    ensures CanAccrue(settled, products[p].terms, settled.jars[p], now)
    ensures var outcome := ClaimSettled(a, settled, products, now).value;
            var (interest, remainder) := InterestOf(settled, products, p, now);
            && (outcome.promise.Some? ==> outcome.promise.value.AfterClaim?)
            && ClaimedFrom(outcome, p) == interest
            && AfterClaimed(outcome).Ok?
            && var after := AfterClaimed(outcome).value;
               var jar' := ClaimedJar(settled.jars[p], interest, remainder, now);
               && after.features == settled.features && after.timezone == settled.timezone && after.score == settled.score
               && after.jars.Keys <= settled.jars.Keys
               && (p !in after.jars ==> ShouldClose(jar'))
               && (interest != 0 && ShouldClose(jar') ==> p !in after.jars)
               && (p in after.jars ==> after.jars[p] == jar')
  {
    OutcomeOfJar(a, settled, products, now, p);
    var (interest, remainder) := InterestOf(settled, products, p, now);
    assert WithLock(WithLock(Claimed(settled.jars[p], remainder, now), true), false) == Claimed(settled.jars[p], remainder, now);
  }
}
