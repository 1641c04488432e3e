/** On a fixed-term jar whose deposits have all matured, claiming and withdrawing
    commute. */
module Commuting {
  import opened Numbers
  import opened Types
  import opened Interest
  import opened Jars
  import opened Settlement
  import opened Accounts
  import opened Promises
  import opened Withdrawals
  import opened Claims
  import opened Schedules

  // --- One jar ----------------------------------------------------------------

  predicate AllMature(terms: Terms, deposits: seq<Deposit>, now: Timestamp) {
    forall i :: 0 <= i < |deposits| ==> terms.IsLiquid(deposits[i], now)
  }

  lemma {:induction false} NothingSinceNow(rate: Rate, cached: JarCache, deposits: seq<Deposit>, now: Timestamp)
    requires rate.terms.Fixed? && cached.updatedAt == now
    ensures SumInterest(rate, Some(cached), now, deposits) == (0, 0)
  {
    if deposits != [] {
      NothingSinceNow(rate, cached, deposits[..|deposits| - 1], now);
    }
  }

  /** Computed twice at the same moment, the interest is what was cached. */
  lemma CachedNow(rate: Rate, jar: Jar, now: Timestamp)
    requires rate.terms.Fixed?
    requires jar.cache.Some? && jar.cache.value.updatedAt == now && jar.claimRemainder < MS_IN_YEAR
    ensures JarInterest(rate, jar, now) == (jar.cache.value.interest, jar.claimRemainder)
  {
    NothingSinceNow(rate, jar.cache.value, jar.deposits, now);
  }

  lemma AllIsLiquid(terms: Terms, deposits: seq<Deposit>, now: Timestamp)
    requires AllMature(terms, deposits, now)
    ensures LiquidBalance(terms, now, deposits) == (Principal(deposits), |deposits|)
  {
    LiquidPrefixIs(terms, now, deposits, |deposits|);
    assert deposits[..|deposits|] == deposits;
  }

  // --- A withdrawal that succeeds ---------------------------------------------

  function RequestOf(outcome: Outcome, p: ProductId): Withdrawal
    requires outcome.promise.Some? && outcome.promise.value.AfterWithdraw? && p in outcome.promise.value.requests
  {
    outcome.promise.value.requests[p]
  }

  /** The account after a withdrawal from one jar whose transfer succeeds. */
  function AfterWithdrawn(outcome: Outcome): Result<Account>
    requires outcome.promise.Some? && outcome.promise.value.AfterWithdraw?
  {
    FinishWithdraw(outcome.account, PartsOf(outcome.promise.value.requests), true)
  }

  lemma WithdrawalOfMatureJar(a: AccountId, account: Account, products: map<ProductId, Product>, p: ProductId, now: Timestamp)
    requires Known(account, products) && p in account.jars && products[p].terms.Fixed?
    requires AllMature(products[p].terms, account.jars[p].deposits, now)
    requires Withdraw(a, account, products, p, now).Ok?
    ensures var outcome := Withdraw(a, account, products, p, now).value;
            var principal := Principal(account.jars[p].deposits);
            var (interest, remainder) := JarInterest(AccountRate(products[p].terms, account), account.jars[p], now);
            && outcome.promise.Some? && outcome.promise.value.AfterWithdraw? && p in outcome.promise.value.requests
            && RequestOf(outcome, p) == Withdrawal(principal, products[p].CalculateFee(principal), |account.jars[p].deposits|)
            && AfterWithdrawn(outcome).Ok?
            && var after := AfterWithdrawn(outcome).value;
               && Known(after, products)
               && after.features == account.features && after.timezone == account.timezone
               && (p in after.jars <==> interest != 0)
               && (p in after.jars ==> after.jars[p] == Jar([], Some(JarCache(now, interest)), false, remainder))
  {
    AllIsLiquid(products[p].terms, account.jars[p].deposits, now);
    var locked := WithJar(account, p, WithLock(account.jars[p], true));
    assert RateFor(products[p].terms, locked, now) == AccountRate(products[p].terms, account);
    assert JarInterest(AccountRate(products[p].terms, account), locked.jars[p], now)
        == JarInterest(AccountRate(products[p].terms, account), account.jars[p], now);
  }

  // --- Both orders ------------------------------------------------------------

  /** Claim, then withdraw: the interest is paid first, and the withdrawal closes
      the jar. */
  lemma ClaimThenWithdraw(a: AccountId, account: Account, products: map<ProductId, Product>, p: ProductId, now: Timestamp)
    requires Known(account, products) && p in account.jars && products[p].terms.Fixed?
    requires !account.jars[p].isLocked && account.jars[p].deposits != []
    requires AllMature(products[p].terms, account.jars[p].deposits, now)
    requires ClaimTotal(a, account, products, now).Ok? && Withdraw(a, account, products, p, now).Ok?
    ensures var outcome := ClaimTotal(a, account, products, now).value;
            && (outcome.promise.Some? ==> outcome.promise.value.AfterClaim?)
            && ClaimedFrom(outcome, p) == JarInterest(AccountRate(products[p].terms, account), account.jars[p], now).0
            && AfterClaimed(outcome).Ok? && Known(AfterClaimed(outcome).value, products)
            && var claimed := AfterClaimed(outcome).value;
               && Withdraw(a, claimed, products, p, now).Ok?
               && var withdrawal := Withdraw(a, claimed, products, p, now).value;
                  var principal := Principal(account.jars[p].deposits);
                  && withdrawal.promise.Some? && withdrawal.promise.value.AfterWithdraw? && p in withdrawal.promise.value.requests
                  && RequestOf(withdrawal, p).amount == principal
                  && RequestOf(withdrawal, p).fee == products[p].CalculateFee(principal)
                  && AfterWithdrawn(withdrawal).Ok?
                  && p !in AfterWithdrawn(withdrawal).value.jars
  {
    ClaimOfJar(a, account, products, now, p);
    var rate := AccountRate(products[p].terms, account);
    var (interest, remainder) := JarInterest(rate, account.jars[p], now);
    var claimed := AfterClaimed(ClaimTotal(a, account, products, now).value).value;
    assert p in claimed.jars && claimed.jars[p] == ClaimedJar(account.jars[p], interest, remainder, now);
    if interest != 0 {
      JarInterestIsExact(rate, account.jars[p], now);
      CachedNow(rate, claimed.jars[p], now);
    }
    SameDepositsSameWithdrawal(a, account, claimed, products, p, now);
    WithdrawalOfMatureJar(a, claimed, products, p, now);
  }

  /** Whether a withdrawal of a fixed-term jar is accepted depends on its deposits. */
  lemma SameDepositsSameWithdrawal(a: AccountId, account: Account, account': Account, products: map<ProductId, Product>, p: ProductId, now: Timestamp)
    requires Known(account, products) && Known(account', products)
    requires p in account.jars && p in account'.jars && products[p].terms.Fixed?
    requires account'.jars[p].deposits == account.jars[p].deposits && !account'.jars[p].isLocked
    requires Withdraw(a, account, products, p, now).Ok?
    ensures Withdraw(a, account', products, p, now).Ok?
  {
    var locked, locked' := WithJar(account, p, WithLock(account.jars[p], true)), WithJar(account', p, WithLock(account'.jars[p], true));
    assert RefreshJar(locked', products, p, now).Ok?;
    assert RequestFor(products[p], RefreshJar(locked', products, p, now).value.jars[p], now)
        == RequestFor(products[p], RefreshJar(locked, products, p, now).value.jars[p], now);
    assert FeesCovered(map[p := RequestFor(products[p], RefreshJar(locked, products, p, now).value.jars[p], now)]);
  }

  // --- The claim that comes second --------------------------------------------

  lemma {:induction false} SmallerSet<T>(s: set<T>, t: set<T>)
    requires s <= t
    ensures |s| <= |t|
  {
    if s != {} {
      var x :| x in s;
      SmallerSet(s - {x}, t - {x});
    }
  }

  /** Taking mature deposits out of one jar leaves no more to claim than before. */
  lemma WithdrawnClaims(a: AccountId, account: Account, withdrawn: Account, products: map<ProductId, Product>, p: ProductId, now: Timestamp)
    requires Known(account, products) && Known(withdrawn, products)
    requires p in account.jars && products[p].terms.Fixed? && !account.jars[p].isLocked
    requires withdrawn.timezone == account.timezone && withdrawn.score == account.score && withdrawn.features == account.features
    requires withdrawn.jars.Keys <= account.jars.Keys
    requires forall q :: q in withdrawn.jars && q != p ==> withdrawn.jars[q] == account.jars[q]
    requires p in withdrawn.jars ==> !withdrawn.jars[p].isLocked && withdrawn.jars[p].deposits == []
    requires p in withdrawn.jars ==> JarInterest(AccountRate(products[p].terms, account), account.jars[p], now).0 != 0
    requires ClaimTotal(a, account, products, now).Ok?
    ensures ClaimTotal(a, withdrawn, products, now).Ok?
  {
    var settled, settled' := Settle(account, products, now).value, Settle(withdrawn, products, now).value;
    assert settled'.score == settled.score && settled'.timezone == settled.timezone && settled'.jars.Keys <= settled.jars.Keys;
    forall q | q in settled'.jars && q != p ensures settled'.jars[q] == settled.jars[q] {
    }
    SettledClaims(a, settled, settled', products, p, now);
  }

  lemma SettledClaims(a: AccountId, settled: Account, settled': Account, products: map<ProductId, Product>, p: ProductId, now: Timestamp)
    requires Known(settled, products) && Known(settled', products)
    requires p in settled.jars && products[p].terms.Fixed? && !settled.jars[p].isLocked
    requires settled'.timezone == settled.timezone && settled'.score == settled.score && settled'.features == settled.features
    requires settled'.jars.Keys <= settled.jars.Keys
    requires forall q :: q in settled'.jars && q != p ==> settled'.jars[q] == settled.jars[q]
    requires p in settled'.jars ==> JarInterest(AccountRate(products[p].terms, settled), settled.jars[p], now).0 != 0
    requires ClaimSettled(a, settled, products, now).Ok?
    ensures ClaimSettled(a, settled', products, now).Ok?
  {
    forall q | q in settled'.jars && !settled'.jars[q].isLocked ensures CanAccrue(settled', products[q].terms, settled'.jars[q], now) {
      assert q != p ==> CanAccrue(settled, products[q].terms, settled.jars[q], now);
    }
    assert InterestOf(settled, products, p, now) == JarInterest(AccountRate(products[p].terms, settled), settled.jars[p], now);
    forall q | q in Claimable(settled', products, now) ensures q in Claimable(settled, products, now) {
      assert q != p ==> RateFor(products[q].terms, settled', now) == RateFor(products[q].terms, settled, now);
    }
    SmallerSet(Claimable(settled', products, now).Keys, Claimable(settled, products, now).Keys);
  }

  /** Withdraw, then claim: the emptied jar keeps its interest, and the claim pays
      it and closes the jar; without interest the withdrawal closes it. */
  lemma WithdrawThenClaim(a: AccountId, account: Account, products: map<ProductId, Product>, p: ProductId, now: Timestamp)
    requires Known(account, products) && p in account.jars && products[p].terms.Fixed?
    requires !account.jars[p].isLocked
    requires AllMature(products[p].terms, account.jars[p].deposits, now)
    requires ClaimTotal(a, account, products, now).Ok? && Withdraw(a, account, products, p, now).Ok?
    ensures var withdrawal := Withdraw(a, account, products, p, now).value;
            var principal := Principal(account.jars[p].deposits);
            && withdrawal.promise.Some? && withdrawal.promise.value.AfterWithdraw? && p in withdrawal.promise.value.requests
            && RequestOf(withdrawal, p).amount == principal
            && RequestOf(withdrawal, p).fee == products[p].CalculateFee(principal)
            && AfterWithdrawn(withdrawal).Ok? && Known(AfterWithdrawn(withdrawal).value, products)
            && var withdrawn := AfterWithdrawn(withdrawal).value;
               && ClaimTotal(a, withdrawn, products, now).Ok?
               && var outcome := ClaimTotal(a, withdrawn, products, now).value;
                  && (outcome.promise.Some? ==> outcome.promise.value.AfterClaim?)
                  && ClaimedFrom(outcome, p) == JarInterest(AccountRate(products[p].terms, account), account.jars[p], now).0
                  && AfterClaimed(outcome).Ok?
                  && p !in AfterClaimed(outcome).value.jars
  {
    WithdrawalOfMatureJar(a, account, products, p, now);
    var rate := AccountRate(products[p].terms, account);
    var (interest, remainder) := JarInterest(rate, account.jars[p], now);
    var withdrawn := AfterWithdrawn(Withdraw(a, account, products, p, now).value).value;
    WithdrawalKeepsOthers(a, account, products, p, now);
    WithdrawnClaims(a, account, withdrawn, products, p, now);
    if p in withdrawn.jars {
      JarInterestIsExact(rate, account.jars[p], now);
      CachedNow(rate, withdrawn.jars[p], now);
      ClaimOfJar(a, withdrawn, products, now, p);
    } else {
      ClaimWithoutJar(a, withdrawn, products, now, p);
    }
  }

  lemma WithdrawalKeepsOthers(a: AccountId, account: Account, products: map<ProductId, Product>, p: ProductId, now: Timestamp)
    requires Known(account, products)
    requires Withdraw(a, account, products, p, now).Ok?
    ensures var outcome := Withdraw(a, account, products, p, now).value;
            && outcome.promise.Some? && outcome.promise.value.AfterWithdraw?
            && (AfterWithdrawn(outcome).Ok? ==>
                  var after := AfterWithdrawn(outcome).value;
                  && after.score == account.score
                  && after.jars.Keys <= account.jars.Keys
                  && forall q :: q in after.jars && q != p ==> after.jars[q] == account.jars[q])
  {
  }

  /** In both orders the jar pays the same interest, principal and fee and is
      closed; of what it owed, less than one token of interest is dropped. */
  lemma ClaimAndWithdrawCommute(a: AccountId, account: Account, products: map<ProductId, Product>, p: ProductId, now: Timestamp)
    requires Known(account, products) && p in account.jars && products[p].terms.Fixed?
    requires !account.jars[p].isLocked && account.jars[p].deposits != []
    requires AllMature(products[p].terms, account.jars[p].deposits, now)
    requires ClaimTotal(a, account, products, now).Ok? && Withdraw(a, account, products, p, now).Ok?
    ensures var claimFirst, withdrawFirst := ClaimTotal(a, account, products, now).value, Withdraw(a, account, products, p, now).value;
            var rate := AccountRate(products[p].terms, account);
            && (claimFirst.promise.Some? ==> claimFirst.promise.value.AfterClaim?)
            && withdrawFirst.promise.Some? && withdrawFirst.promise.value.AfterWithdraw? && p in withdrawFirst.promise.value.requests
            && AfterClaimed(claimFirst).Ok? && Known(AfterClaimed(claimFirst).value, products)
            && AfterWithdrawn(withdrawFirst).Ok? && Known(AfterWithdrawn(withdrawFirst).value, products)
            && Withdraw(a, AfterClaimed(claimFirst).value, products, p, now).Ok?
            && ClaimTotal(a, AfterWithdrawn(withdrawFirst).value, products, now).Ok?
            && (var withdrawSecond := Withdraw(a, AfterClaimed(claimFirst).value, products, p, now).value;
                var claimSecond := ClaimTotal(a, AfterWithdrawn(withdrawFirst).value, products, now).value;
                && (claimSecond.promise.Some? ==> claimSecond.promise.value.AfterClaim?)
                && withdrawSecond.promise.Some? && withdrawSecond.promise.value.AfterWithdraw?
                && p in withdrawSecond.promise.value.requests
                && ClaimedFrom(claimFirst, p) == ClaimedFrom(claimSecond, p)
                && RequestOf(withdrawFirst, p).amount == RequestOf(withdrawSecond, p).amount == Principal(account.jars[p].deposits)
                && RequestOf(withdrawFirst, p).fee == RequestOf(withdrawSecond, p).fee
                && AfterWithdrawn(withdrawSecond).Ok? && p !in AfterWithdrawn(withdrawSecond).value.jars
                && AfterClaimed(claimSecond).Ok? && p !in AfterClaimed(claimSecond).value.jars)
            && var owed := OwedUnits(account.jars[p]) + SumUnits(rate, account.jars[p].cache, now, account.jars[p].deposits);
               0 <= owed - ClaimedFrom(claimFirst, p) * MS_IN_YEAR < MS_IN_YEAR
  {
    ClaimThenWithdraw(a, account, products, p, now);
    WithdrawThenClaim(a, account, products, p, now);
    JarInterestIsExact(AccountRate(products[p].terms, account), account.jars[p], now);
  }
}
