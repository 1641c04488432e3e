/** When interest is claimed does not matter. For products that do not depend on a
    score and a rate that does not change, what a jar will have paid and owe at a
    later moment is the same for every schedule of claims, a claim that fails
    leaves no trace, and claiming and withdrawing commute. */
module Schedules {
  import opened Numbers
  import opened Types
  import opened Interest
  import opened Jars
  import opened Settlement
  import opened Accounts
  import opened Promises
  import opened Claims

  /** The rate of a product without scores does not depend on the time. */
  function AccountRate(terms: Terms, account: Account): Rate
    requires !terms.IsScoreBased()
  {
    Rate(terms, account.timezone, terms.apy.Resolve(account.features.increasedApy))
  }

  // --- Interest adds up over time ---------------------------------------------

  /** The longest a deposit can have earned for by a moment. */
  function LongestTerm(terms: Terms, deposit: Deposit, moment: Timestamp): Duration {
    var life := SaturatingSub(moment, deposit.createdAt);
    if terms.Flexible? then life else Min(life, terms.lockupTerm)
  }

  /** All that the deposit can have earned so far fits 128 bits. */
  predicate LifeFits(rate: Rate, deposit: Deposit, moment: Timestamp) {
    LongestTerm(rate.terms, deposit, moment) * YearlyInterest(deposit.principal, rate.apy) <= U128_MAX
  }

  predicate LivesFit(rate: Rate, deposits: seq<Deposit>, moment: Timestamp) {
    forall i :: 0 <= i < |deposits| ==> LifeFits(rate, deposits[i], moment)
  }

  /** Nothing in the jar is newer than the moment. */
  predicate IsPast(jar: Jar, moment: Timestamp) {
    && (jar.cache.Some? ==> jar.cache.value.updatedAt <= moment)
    && forall i :: 0 <= i < |jar.deposits| ==> jar.deposits[i].createdAt <= moment
  }

  lemma EarnedSplits(rate: Rate, cache: Option<JarCache>, cached: JarCache, deposit: Deposit, later: Timestamp)
    requires !rate.terms.IsScoreBased()
    requires cached.updatedAt <= later && deposit.createdAt <= cached.updatedAt
    requires cache.Some? ==> cache.value.updatedAt <= cached.updatedAt
    requires LifeFits(rate, deposit, later)
    ensures EarnedUnits(deposit.principal, rate.apy, EarningTerm(rate, cache, later, deposit))
         == EarnedUnits(deposit.principal, rate.apy, EarningTerm(rate, cache, cached.updatedAt, deposit))
            + EarnedUnits(deposit.principal, rate.apy, EarningTerm(rate, Some(cached), later, deposit))
  {
    var whole := EarningTerm(rate, cache, later, deposit);
    var first := EarningTerm(rate, cache, cached.updatedAt, deposit);
    var second := EarningTerm(rate, Some(cached), later, deposit);
    var yearly := YearlyInterest(deposit.principal, rate.apy);
    assert whole == first + second && whole <= LongestTerm(rate.terms, deposit, later);
    ProductsFit(whole, first, second, LongestTerm(rate.terms, deposit, later), yearly);
  }

  lemma ProductsFit(whole: nat, first: nat, second: nat, life: nat, yearly: nat)
    requires whole == first + second && whole <= life && life * yearly <= U128_MAX
    ensures SaturatedProduct(whole, yearly) == SaturatedProduct(first, yearly) + SaturatedProduct(second, yearly)
  {
    assert whole * yearly <= life * yearly;
    assert whole * yearly == first * yearly + second * yearly;
  }

  lemma {:induction false} UnitsSplit(rate: Rate, cache: Option<JarCache>, cached: JarCache, deposits: seq<Deposit>, later: Timestamp)
    requires !rate.terms.IsScoreBased()
    requires cached.updatedAt <= later
    requires cache.Some? ==> cache.value.updatedAt <= cached.updatedAt
    requires forall i :: 0 <= i < |deposits| ==> deposits[i].createdAt <= cached.updatedAt
    requires LivesFit(rate, deposits, later)
    ensures SumUnits(rate, cache, later, deposits)
         == SumUnits(rate, cache, cached.updatedAt, deposits) + SumUnits(rate, Some(cached), later, deposits)
  {
    if deposits != [] {
      var n := |deposits| - 1;
      UnitsSplit(rate, cache, cached, deposits[..n], later);
      EarnedSplits(rate, cache, cached, deposits[n], later);
    }
  }

  /** What the jar will owe at a moment if it is left alone, in units. */
  function Promised(rate: Rate, jar: Jar, moment: Timestamp): nat
    requires !rate.terms.IsScoreBased()
  {
    OwedUnits(jar) + SumUnits(rate, jar.cache, moment, jar.deposits)
  }

  lemma ClaimKeepsPromise(rate: Rate, jar: Jar, now: Timestamp, later: Timestamp)
    requires !rate.terms.IsScoreBased()
    requires IsPast(jar, now) && now <= later && LivesFit(rate, jar.deposits, later)
    ensures var (interest, remainder) := JarInterest(rate, jar, now);
            interest * MS_IN_YEAR + Promised(rate, Claimed(jar, remainder, now), later) == Promised(rate, jar, later)
  {
    JarInterestIsExact(rate, jar, now);
    UnitsSplit(rate, jar.cache, JarCache(now, 0), jar.deposits, later);
  }

  lemma RefreshKeepsPromise(rate: Rate, jar: Jar, now: Timestamp, later: Timestamp)
    requires !rate.terms.IsScoreBased()
    requires IsPast(jar, now) && now <= later && LivesFit(rate, jar.deposits, later)
    ensures Promised(rate, Refreshed(rate, jar, now), later) == Promised(rate, jar, later)
  {
    JarInterestIsExact(rate, jar, now);
    UnitsSplit(rate, jar.cache, JarCache(now, JarInterest(rate, jar, now).0), jar.deposits, later);
  }

  /** A new deposit adds the same, whatever is cached. */
  lemma PushAddsToPromise(rate: Rate, jar: Jar, deposit: Deposit, later: Timestamp)
    requires !rate.terms.IsScoreBased()
    requires jar.cache.Some? ==> jar.cache.value.updatedAt <= deposit.createdAt
    ensures Promised(rate, WithDeposit(jar, deposit), later)
         == Promised(rate, jar, later) + EarnedUnits(deposit.principal, rate.apy, EarningTerm(rate, None, later, deposit))
  {
    assert (jar.deposits + [deposit])[..|jar.deposits|] == jar.deposits;
  }

  /** The promise determines tokens and remainder. */
  lemma SamePromiseSameInterest(rate: Rate, jar: Jar, jar': Jar, moment: Timestamp)
    requires !rate.terms.IsScoreBased()
    requires Promised(rate, jar, moment) == Promised(rate, jar', moment)
    ensures JarInterest(rate, jar, moment) == JarInterest(rate, jar', moment)
  {
    JarInterestIsExact(rate, jar, moment);
    JarInterestIsExact(rate, jar', moment);
    var (i, r) := JarInterest(rate, jar, moment);
    var (i', r') := JarInterest(rate, jar', moment);
    UnitsAreUnique(i, r, i', r');
  }

  // --- Claim schedules --------------------------------------------------------

  predicate Ascending(times: seq<Timestamp>) {
    forall i, j :: 0 <= i < j < |times| ==> times[i] <= times[j]
  }

  /** Claiming at each of the times; where there is nothing to claim the jar stays
      as it is. Returns what was paid in all, and the jar. */
  function ClaimAt(rate: Rate, jar: Jar, times: seq<Timestamp>): (TokenAmount, Jar)
    requires !rate.terms.IsScoreBased()
  {
    if times == [] then (0, jar) else
      var n := |times| - 1;
      var (paid, before) := ClaimAt(rate, jar, times[..n]);
      var (interest, remainder) := JarInterest(rate, before, times[n]);
      if interest == 0 then (paid, before) else (paid + interest, Claimed(before, remainder, times[n]))
  }

  lemma {:induction false} ClaimsKeepPromise(rate: Rate, jar: Jar, times: seq<Timestamp>, now: Timestamp, later: Timestamp)
    requires !rate.terms.IsScoreBased()
    requires Ascending(times) && forall i :: 0 <= i < |times| ==> now <= times[i] <= later
    requires IsPast(jar, now) && now <= later && LivesFit(rate, jar.deposits, later)
    ensures var (paid, after) := ClaimAt(rate, jar, times);
            && paid * MS_IN_YEAR + Promised(rate, after, later) == Promised(rate, jar, later)
            && after.deposits == jar.deposits
            && IsPast(after, if times == [] then now else times[|times| - 1])
  {
    if times != [] {
      var n := |times| - 1;
      ClaimsKeepPromise(rate, jar, times[..n], now, later);
      var (paid, before) := ClaimAt(rate, jar, times[..n]);
      ClaimKeepsPromise(rate, before, times[n], later);
      var interest := JarInterest(rate, before, times[n]).0;
      assert (paid + interest) * MS_IN_YEAR == paid * MS_IN_YEAR + interest * MS_IN_YEAR;
    }
  }

  /** Any sequence of claims pays, together with what is still pending, exactly the
      interest of never claiming, and leaves the same remainder. */
  lemma SchedulesAgree(rate: Rate, jar: Jar, times: seq<Timestamp>, now: Timestamp, later: Timestamp)
    requires !rate.terms.IsScoreBased()
    requires Ascending(times) && forall i :: 0 <= i < |times| ==> now <= times[i] <= later
    requires IsPast(jar, now) && now <= later && LivesFit(rate, jar.deposits, later)
    ensures var (paid, after) := ClaimAt(rate, jar, times);
            var (pending, remainder) := JarInterest(rate, after, later);
            (paid + pending, remainder) == JarInterest(rate, jar, later)
  {
    ClaimsKeepPromise(rate, jar, times, now, later);
    var (paid, after) := ClaimAt(rate, jar, times);
    PaidAndPending(rate, jar, paid, after, later);
  }

  lemma PaidAndPending(rate: Rate, jar: Jar, paid: TokenAmount, after: Jar, later: Timestamp)
    requires !rate.terms.IsScoreBased()
    requires paid * MS_IN_YEAR + Promised(rate, after, later) == Promised(rate, jar, later)
    ensures var (pending, remainder) := JarInterest(rate, after, later);
            (paid + pending, remainder) == JarInterest(rate, jar, later)
  {
    JarInterestIsExact(rate, after, later);
    JarInterestIsExact(rate, jar, later);
    TokensMatch(paid, JarInterest(rate, after, later), JarInterest(rate, jar, later));
  }

  lemma TokensMatch(paid: nat, pending: (nat, nat), whole: (nat, nat))
    requires paid * MS_IN_YEAR + Units(pending.0, pending.1) == Units(whole.0, whole.1)
    requires pending.1 < MS_IN_YEAR && whole.1 < MS_IN_YEAR
    ensures (paid + pending.0, pending.1) == whole
  {
    UnitsAreUnique(paid + pending.0, pending.1, whole.0, whole.1);
  }

  /** The exact yearly interest times the term never falls short of what a deposit
      is credited, and exceeds it by less than one unit for every millisecond. */
  lemma FlooringCostsLessThanTheTerm(rate: Rate, deposit: Deposit, term: Duration)
    requires deposit.principal * rate.apy.significand <= U128_MAX
    requires term * YearlyInterest(deposit.principal, rate.apy) <= U128_MAX
    ensures var scale := Pow10(rate.apy.exponent);
            var units := EarnedUnits(deposit.principal, rate.apy, term);
            && units * scale <= term * (deposit.principal * rate.apy.significand)
            && (term > 0 ==> term * (deposit.principal * rate.apy.significand) < (units + term) * scale)
  {
    var scale, yearly := Pow10(rate.apy.exponent), YearlyInterest(deposit.principal, rate.apy);
    var exact := deposit.principal * rate.apy.significand;
    assert yearly * scale <= exact < yearly * scale + scale;
    TimesTerm(term, yearly, scale, exact);
  }

  lemma TimesTerm(term: nat, yearly: nat, scale: nat, exact: nat)
    requires yearly * scale <= exact < yearly * scale + scale
    ensures (term * yearly) * scale <= term * exact
    ensures term > 0 ==> term * exact < (term * yearly + term) * scale
  {
    assert (term * yearly) * scale == term * (yearly * scale);
    assert (term * yearly + term) * scale == term * (yearly * scale + scale);
    assert term * (yearly * scale) <= term * exact;
  }

  // --- The account's claims ---------------------------------------------------

  lemma ClaimOfJar(a: AccountId, account: Account, products: map<ProductId, Product>, now: Timestamp, p: ProductId)
    requires Known(account, products) && p in account.jars && !account.jars[p].isLocked
    requires !products[p].terms.IsScoreBased()
    requires ClaimTotal(a, account, products, now).Ok?
    ensures var outcome := ClaimTotal(a, account, products, now).value;
            var (interest, remainder) := JarInterest(AccountRate(products[p].terms, account), account.jars[p], now);
            && (outcome.promise.Some? ==> outcome.promise.value.AfterClaim?)
            && ClaimedFrom(outcome, p) == interest
            && AfterClaimed(outcome).Ok?
            && var after := AfterClaimed(outcome).value;
               var jar' := ClaimedJar(account.jars[p], interest, remainder, now);
               && after.features == account.features && after.timezone == account.timezone
               && Known(after, products)
               && (p !in after.jars ==> ShouldClose(jar'))
               && (interest != 0 && ShouldClose(jar') ==> p !in after.jars)
               && (p in after.jars ==> after.jars[p] == jar')
  {
    var settled := Settle(account, products, now).value;
    assert settled.jars[p] == account.jars[p];
    assert InterestOf(settled, products, p, now) == JarInterest(AccountRate(products[p].terms, account), account.jars[p], now);
    SettledClaimOfJar(a, settled, products, now, p);
  }

  lemma ClaimWithoutJar(a: AccountId, account: Account, products: map<ProductId, Product>, now: Timestamp, p: ProductId)
    requires Known(account, products) && p !in account.jars
    requires ClaimTotal(a, account, products, now).Ok?
    ensures var outcome := ClaimTotal(a, account, products, now).value;
            && (outcome.promise.Some? ==> outcome.promise.value.AfterClaim?)
            && ClaimedFrom(outcome, p) == 0
            && AfterClaimed(outcome).Ok? && p !in AfterClaimed(outcome).value.jars
  {
  }

  /** The account at some moment, and what this jar has been paid until then. */
  datatype Paid = Paid(amount: TokenAmount, account: Account)

  /** A claim of the account, completed. */
  predicate IsNextClaim(a: AccountId, products: map<ProductId, Product>, p: ProductId, at: Timestamp, before: Paid, after: Paid)
    requires Known(before.account, products)
  {
    && ClaimTotal(a, before.account, products, at).Ok?
    && var outcome := ClaimTotal(a, before.account, products, at).value;
       && (outcome.promise.Some? ==> outcome.promise.value.AfterClaim?)
       && AfterClaimed(outcome) == Ok(after.account)
       && after.amount == before.amount + ClaimedFrom(outcome, p)
  }

  /** The account claims at each of the times, and every claim is completed before
      the next. */
  predicate ClaimsInTurn(a: AccountId, products: map<ProductId, Product>, p: ProductId, times: seq<Timestamp>, states: seq<Paid>) {
    && |states| == |times| + 1
    && states[0].amount == 0
    && (forall i :: 0 <= i < |states| ==> Known(states[i].account, products))
    && forall i :: 0 <= i < |times| ==> IsNextClaim(a, products, p, times[i], states[i], states[i + 1])
  }

  /** Nothing is left but less than a token. */
  predicate IsSpent(jar: Jar) {
    jar.deposits == [] && CachedInterest(jar) == 0 && jar.claimRemainder < MS_IN_YEAR
  }

  lemma SpentEarnsNothing(rate: Rate, jar: Jar, now: Timestamp)
    requires !rate.terms.IsScoreBased() && IsSpent(jar)
    ensures JarInterest(rate, jar, now) == (0, jar.claimRemainder)
  {
  }

  lemma ClosedIsSpent(rate: Rate, jar: Jar, now: Timestamp)
    requires !rate.terms.IsScoreBased()
    requires var (interest, remainder) := JarInterest(rate, jar, now); ShouldClose(ClaimedJar(jar, interest, remainder, now))
    ensures var (interest, remainder) := JarInterest(rate, jar, now); IsSpent(ClaimedJar(jar, interest, remainder, now))
  {
  }

  predicate Follows(rate: Rate, terms: Terms, p: ProductId, state: Paid, claims: (TokenAmount, Jar))
    requires !terms.IsScoreBased()
  {
    && state.amount == claims.0
    && if p in state.account.jars then state.account.jars[p] == claims.1 && AccountRate(terms, state.account) == rate else IsSpent(claims.1)
  }

  lemma NextClaimFollows(a: AccountId, products: map<ProductId, Product>, p: ProductId, at: Timestamp, before: Paid, after: Paid,
                         rate: Rate, claims: (TokenAmount, Jar))
    requires Known(before.account, products) && p in products && !products[p].terms.IsScoreBased()
    requires IsNextClaim(a, products, p, at, before, after)
    requires rate.terms == products[p].terms && Follows(rate, products[p].terms, p, before, claims) && !claims.1.isLocked
    ensures var (interest, remainder) := JarInterest(rate, claims.1, at);
            Follows(rate, products[p].terms, p, after, (claims.0 + interest, ClaimedJar(claims.1, interest, remainder, at)))
  {
    if p in before.account.jars {
      ClaimOfJar(a, before.account, products, at, p);
      var (interest, remainder) := JarInterest(rate, claims.1, at);
      if ShouldClose(ClaimedJar(claims.1, interest, remainder, at)) {
        ClosedIsSpent(rate, claims.1, at);
      }
    } else {
      ClaimWithoutJar(a, before.account, products, at, p);
      SpentEarnsNothing(rate, claims.1, at);
    }
  }

  /** For this jar the account's claims are claims of the jar; it is closed only
      when it is spent. */
  lemma {:induction false} AccountClaimsTheJar(a: AccountId, products: map<ProductId, Product>, p: ProductId, times: seq<Timestamp>, states: seq<Paid>,
                                               k: nat)
    requires ClaimsInTurn(a, products, p, times, states) && k <= |times|
    requires p in states[0].account.jars && !states[0].account.jars[p].isLocked
    requires !products[p].terms.IsScoreBased()
    ensures var rate, jar := AccountRate(products[p].terms, states[0].account), states[0].account.jars[p];
            Follows(rate, products[p].terms, p, states[k], ClaimAt(rate, jar, times[..k]))
  {
    if k > 0 {
      var rate, jar := AccountRate(products[p].terms, states[0].account), states[0].account.jars[p];
      assert times[..k][..k - 1] == times[..k - 1];
      AccountClaimsTheJar(a, products, p, times, states, k - 1);
      ClaimLeavesUnlocked(rate, jar, times[..k - 1]);
      assert IsNextClaim(a, products, p, times[k - 1], states[k - 1], states[k - 1 + 1]);
      NextClaimFollows(a, products, p, times[k - 1], states[k - 1], states[k], rate, ClaimAt(rate, jar, times[..k - 1]));
    }
  }

  lemma {:induction false} ClaimLeavesUnlocked(rate: Rate, jar: Jar, times: seq<Timestamp>)
    requires !rate.terms.IsScoreBased() && !jar.isLocked
    ensures !ClaimAt(rate, jar, times).1.isLocked
  {
    if times != [] {
      ClaimLeavesUnlocked(rate, jar, times[..|times| - 1]);
    }
  }

  /** Paid and pending are the whole; a closed jar has paid it. */
  predicate Completes(paid: TokenAmount, pending: (TokenAmount, nat), isOpen: bool, whole: (TokenAmount, nat)) {
    if isOpen then (paid + pending.0, pending.1) == whole else pending == (0, 0) && paid == whole.0
  }

  function PendingOf(terms: Terms, account: Account, p: ProductId, now: Timestamp): (TokenAmount, nat)
    requires !terms.IsScoreBased()
  {
    if p in account.jars then JarInterest(AccountRate(terms, account), account.jars[p], now) else (0, 0)
  }

  /** Any sequence of claims of the account pays for this jar, together with what is
      pending, exactly the interest of never claiming, and carries the same remainder;
      if the jar was closed on the way, the claims have paid all of it. */
  lemma AccountSchedulesAgree(a: AccountId, products: map<ProductId, Product>, p: ProductId, times: seq<Timestamp>, states: seq<Paid>,
                              now: Timestamp, later: Timestamp)
    requires ClaimsInTurn(a, products, p, times, states)
    requires p in states[0].account.jars && !states[0].account.jars[p].isLocked
    requires !products[p].terms.IsScoreBased() && Ordered(states[0].account, now) && now <= later
    requires Ascending(times) && forall i :: 0 <= i < |times| ==> now <= times[i] <= later
    requires LivesFit(AccountRate(products[p].terms, states[0].account), states[0].account.jars[p].deposits, later)
    ensures var terms, end := products[p].terms, states[|times|];
            Completes(end.amount, PendingOf(terms, end.account, p, later), p in end.account.jars, PendingOf(terms, states[0].account, p, later))
  {
    var rate, jar := AccountRate(products[p].terms, states[0].account), states[0].account.jars[p];
    AccountClaimsTheJar(a, products, p, times, states, |times|);
    assert times[..|times|] == times;
    assert IsPast(jar, now) by {
      assert InOrder(jar.deposits, now);
    }
    ScheduleOf(rate, jar, times, now, later);
  }

  lemma ScheduleOf(rate: Rate, jar: Jar, times: seq<Timestamp>, now: Timestamp, later: Timestamp)
    requires !rate.terms.IsScoreBased()
    requires Ascending(times) && forall i :: 0 <= i < |times| ==> now <= times[i] <= later
    requires IsPast(jar, now) && now <= later && LivesFit(rate, jar.deposits, later)
    ensures var (paid, after) := ClaimAt(rate, jar, times);
            var (pending, remainder) := JarInterest(rate, after, later);
            && (paid + pending, remainder) == JarInterest(rate, jar, later)
            && (IsSpent(after) ==> paid == JarInterest(rate, jar, later).0)
  {
    SchedulesAgree(rate, jar, times, now, later);
    var after := ClaimAt(rate, jar, times).1;
    if IsSpent(after) {
      SpentEarnsNothing(rate, after, later);
    }
  }

  // --- The exact interest -----------------------------------------------------

  /** The interest before any rounding, scaled by the power of ten of the rate. */
  function ExactTotal(rate: Rate, cache: Option<JarCache>, now: Timestamp, deposits: seq<Deposit>): nat
    requires !rate.terms.IsScoreBased()
  {
    if deposits == [] then 0 else
      var deposit := deposits[|deposits| - 1];
      ExactTotal(rate, cache, now, deposits[..|deposits| - 1])
      + ExactUnits(rate, deposit.principal, EarningTerm(rate, cache, now, deposit))
  }

  function ExactUnits(rate: Rate, principal: TokenAmount, term: Duration): nat {
    term * (principal * rate.apy.significand)
  }

  /** The rate does not saturate on any deposit. */
  predicate ProductsExact(rate: Rate, deposits: seq<Deposit>) {
    forall i :: 0 <= i < |deposits| ==> deposits[i].principal * rate.apy.significand <= U128_MAX
  }

  function TotalTerm(rate: Rate, cache: Option<JarCache>, now: Timestamp, deposits: seq<Deposit>): nat
    requires !rate.terms.IsScoreBased()
  {
    if deposits == [] then 0 else
      TotalTerm(rate, cache, now, deposits[..|deposits| - 1]) + EarningTerm(rate, cache, now, deposits[|deposits| - 1])
  }

  lemma {:induction false} FlooringCostsLessThanTheTerms(rate: Rate, cache: Option<JarCache>, now: Timestamp, deposits: seq<Deposit>)
    requires !rate.terms.IsScoreBased() && LivesFit(rate, deposits, now)
    requires ProductsExact(rate, deposits)
    ensures Floors(SumUnits(rate, cache, now, deposits), ExactTotal(rate, cache, now, deposits), TotalTerm(rate, cache, now, deposits),
                   Pow10(rate.apy.exponent))
  {
    if deposits != [] {
      var n := |deposits| - 1;
      var term, scale := EarningTerm(rate, cache, now, deposits[n]), Pow10(rate.apy.exponent);
      FlooringCostsLessThanTheTerms(rate, cache, now, deposits[..n]);
      OneFloors(rate, cache, now, deposits[n]);
      FloorsAdd(SumUnits(rate, cache, now, deposits[..n]), ExactTotal(rate, cache, now, deposits[..n]), TotalTerm(rate, cache, now, deposits[..n]),
                EarnedUnits(deposits[n].principal, rate.apy, term), ExactUnits(rate, deposits[n].principal, term), term, scale);
    }
  }

  /** Never above the exact interest, and below it by at most a unit a millisecond. */
  predicate Floors(units: nat, exact: nat, term: nat, scale: nat) {
    units * scale <= exact <= (units + term) * scale
  }

  lemma FloorsAdd(u: nat, x: nat, t: nat, u': nat, x': nat, t': nat, scale: nat)
    requires Floors(u, x, t, scale) && Floors(u', x', t', scale)
    ensures Floors(u + u', x + x', t + t', scale)
  {
    assert (u + u') * scale == u * scale + u' * scale;
    assert ((u + u') + (t + t')) * scale == (u + t) * scale + (u' + t') * scale;
  }

  lemma OneFloors(rate: Rate, cache: Option<JarCache>, now: Timestamp, deposit: Deposit)
    requires !rate.terms.IsScoreBased() && LifeFits(rate, deposit, now)
    requires deposit.principal * rate.apy.significand <= U128_MAX
    ensures var term := EarningTerm(rate, cache, now, deposit);
            Floors(EarnedUnits(deposit.principal, rate.apy, term), ExactUnits(rate, deposit.principal, term), term, Pow10(rate.apy.exponent))
  {
    var term := EarningTerm(rate, cache, now, deposit);
    TimesAtMost(YearlyInterest(deposit.principal, rate.apy), term, LongestTerm(rate.terms, deposit, now));
    FlooringCostsLessThanTheTerm(rate, deposit, term);
  }

  /** Whatever the number of claims, a jar brings in exactly the units of all its
      deposits' terms, and what it had: never more than the exact interest, short of
      it by less than one unit for every millisecond of every deposit, and with less
      than one token in the carry. */
  lemma NoScheduleOverpays(a: AccountId, products: map<ProductId, Product>, p: ProductId, times: seq<Timestamp>, states: seq<Paid>,
                           now: Timestamp, later: Timestamp)
    requires ClaimsInTurn(a, products, p, times, states)
    requires p in states[0].account.jars && !states[0].account.jars[p].isLocked
    requires !products[p].terms.IsScoreBased() && Ordered(states[0].account, now) && now <= later
    requires Ascending(times) && forall i :: 0 <= i < |times| ==> now <= times[i] <= later
    requires var rate, deposits := AccountRate(products[p].terms, states[0].account), states[0].account.jars[p].deposits;
             LivesFit(rate, deposits, later) && ProductsExact(rate, deposits)
    ensures var rate, jar, end := AccountRate(products[p].terms, states[0].account), states[0].account.jars[p], states[|times|];
            var pending := PendingOf(products[p].terms, end.account, p, later);
            && pending.1 < MS_IN_YEAR
            && Brings(rate, jar, later, Units(end.amount + pending.0, pending.1) - OwedUnits(jar), p in end.account.jars)
  {
    var terms, end := products[p].terms, states[|times|];
    AccountSchedulesAgree(a, products, p, times, states, now, later);
    ScheduleBrings(AccountRate(terms, states[0].account), states[0].account.jars[p], end.amount, PendingOf(terms, end.account, p, later), later,
                   p in end.account.jars);
  }

  lemma ScheduleBrings(rate: Rate, jar: Jar, paid: TokenAmount, pending: (TokenAmount, nat), later: Timestamp, isOpen: bool)
    requires !rate.terms.IsScoreBased() && LivesFit(rate, jar.deposits, later)
    requires ProductsExact(rate, jar.deposits)
    requires Completes(paid, pending, isOpen, JarInterest(rate, jar, later))
    ensures pending.1 < MS_IN_YEAR && Brings(rate, jar, later, Units(paid + pending.0, pending.1) - OwedUnits(jar), isOpen)
  {
    FlooringCostsLessThanTheTerms(rate, jar.cache, later, jar.deposits);
    if isOpen {
      BringsAll(rate, jar, later);
    } else {
      BringsRounded(rate, jar, later);
    }
  }

  /** Exactly the units of all terms, at most the exact interest, and short of it by
      at most a unit a millisecond; a closed jar keeps less than a token of it back. */
  predicate Brings(rate: Rate, jar: Jar, later: Timestamp, brought: int, isOpen: bool)
    requires !rate.terms.IsScoreBased()
  {
    var scale, exact := Pow10(rate.apy.exponent), ExactTotal(rate, jar.cache, later, jar.deposits);
    && brought * scale <= exact
    && (if isOpen then brought == SumUnits(rate, jar.cache, later, jar.deposits)
        else SumUnits(rate, jar.cache, later, jar.deposits) - MS_IN_YEAR < brought)
    && (isOpen ==> exact <= (brought + TotalTerm(rate, jar.cache, later, jar.deposits)) * scale)
  }

  lemma BringsAll(rate: Rate, jar: Jar, later: Timestamp)
    requires !rate.terms.IsScoreBased()
    requires Floors(SumUnits(rate, jar.cache, later, jar.deposits), ExactTotal(rate, jar.cache, later, jar.deposits),
                    TotalTerm(rate, jar.cache, later, jar.deposits), Pow10(rate.apy.exponent))
    ensures var (interest, remainder) := JarInterest(rate, jar, later);
            remainder < MS_IN_YEAR && Brings(rate, jar, later, Units(interest, remainder) - OwedUnits(jar), true)
  {
    JarInterestIsExact(rate, jar, later);
  }

  lemma BringsRounded(rate: Rate, jar: Jar, later: Timestamp)
    requires !rate.terms.IsScoreBased()
    requires Floors(SumUnits(rate, jar.cache, later, jar.deposits), ExactTotal(rate, jar.cache, later, jar.deposits),
                    TotalTerm(rate, jar.cache, later, jar.deposits), Pow10(rate.apy.exponent))
    ensures Brings(rate, jar, later, Units(JarInterest(rate, jar, later).0, 0) - OwedUnits(jar), false)
  {
    JarInterestIsExact(rate, jar, later);
    FewerUnits(Units(JarInterest(rate, jar, later).0, 0) - OwedUnits(jar), SumUnits(rate, jar.cache, later, jar.deposits), Pow10(rate.apy.exponent));
  }

  lemma FewerUnits(less: int, more: int, scale: nat)
    requires less <= more
    ensures less * scale <= more * scale
  {
  }
}
