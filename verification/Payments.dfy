/** What a settlement and a claim pay, in numbers. The amounts are written down here
    a second time, from the terms of the product, the score records and the times
    alone; the lemmas say that the contract pays exactly these. */
module Payments {
  import opened Numbers
  import opened Types
  import opened Interest
  import opened Jars
  import opened Settlement
  import opened Accounts
  import opened Promises
  import opened Claims

  // --- Rates ------------------------------------------------------------------

  /** Points a record counts for, 1000 being one percent a year. The cap of a tiered
      product depends on the account; only there the booster counts, and no more
      than 100 % in all. */
  function PointsOf(terms: Terms, hasIncreasedCap: bool, record: DailyScore): nat
    requires terms.IsScoreBased()
  {
    match terms
    case ScoreBased(cap, _) => Min(record.value, cap)
    case TieredScoreBased(Constant(cap), _) => Min(Min(record.value, cap) + record.booster, 100_000)
    case TieredScoreBased(Tier(increased, usual), _) =>
      Min(Min(record.value, if hasIncreasedCap then increased else usual) + record.booster, 100_000)
  }

  /** The yearly rate of a product without scores. */
  function PlainApy(terms: Terms, hasIncreasedApy: bool): UDecimal
    requires !terms.IsScoreBased()
  {
    match terms.apy
    case Constant(apy) => apy
    case Tier(increased, usual) => if hasIncreasedApy then increased else usual
  }

  /** Interest of a year in whole tokens; the product stops at 128 bits. */
  function OfYear(principal: TokenAmount, numerator: nat, denominator: nat): nat
    requires denominator > 0
  {
    Min(principal * numerator, U128_MAX) / denominator
  }

  /** Interest of a number of milliseconds, in parts of a token. */
  function OfMs(ms: nat, yearly: nat): nat {
    Min(ms * yearly, U128_MAX)
  }

  // --- Times ------------------------------------------------------------------

  function CachedAt(jar: Jar): Timestamp {
    if jar.cache.Some? then jar.cache.value.updatedAt else 0
  }

  /** Milliseconds of the day from `start` after the deposit came and after what has
      been cached. */
  function MsOfDay(start: Timestamp, cachedAt: Timestamp, deposit: Deposit): nat {
    Max(0, start + MS_IN_DAY - Max(start, Max(deposit.createdAt, cachedAt)))
  }

  /** Milliseconds of the running local day, until the term of the deposit is over. */
  function MsOfRunningDay(offset: int, lockup: Duration, cachedAt: Timestamp, deposit: Deposit, now: Timestamp): nat {
    Max(0, Min(now, deposit.createdAt + lockup) - Max(offset + now / MS_IN_DAY * MS_IN_DAY, Max(deposit.createdAt, cachedAt)))
  }

  /** Milliseconds since the cache, until the term of the deposit is over if it has one. */
  function MsSince(terms: Terms, cachedAt: Timestamp, deposit: Deposit, now: Timestamp): nat
    requires !terms.IsScoreBased()
  {
    var end := if terms.Fixed? then Min(now, deposit.createdAt + terms.lockupTerm) else now;
    Max(0, end - Max(deposit.createdAt, cachedAt))
  }

  // --- Amounts ----------------------------------------------------------------

  /** All deposits for the day from `start` at so many points. */
  function UnitsOfDay(start: Timestamp, cachedAt: Timestamp, points: nat, deposits: seq<Deposit>): nat {
    if deposits == [] then 0 else
      var n := |deposits| - 1;
      UnitsOfDay(start, cachedAt, points, deposits[..n])
      + OfMs(MsOfDay(start, cachedAt, deposits[n]), OfYear(deposits[n].principal, points, 100_000))
  }

  function UnitsOfRunningDay(offset: int, lockup: Duration, cachedAt: Timestamp, points: nat, deposits: seq<Deposit>, now: Timestamp): nat {
    if deposits == [] then 0 else
      var n := |deposits| - 1;
      UnitsOfRunningDay(offset, lockup, cachedAt, points, deposits[..n], now)
      + OfMs(MsOfRunningDay(offset, lockup, cachedAt, deposits[n], now), OfYear(deposits[n].principal, points, 100_000))
  }

  function UnitsSince(terms: Terms, apy: UDecimal, cachedAt: Timestamp, deposits: seq<Deposit>, now: Timestamp): nat
    requires !terms.IsScoreBased()
  {
    if deposits == [] then 0 else
      var n := |deposits| - 1;
      UnitsSince(terms, apy, cachedAt, deposits[..n], now)
      + OfMs(MsSince(terms, cachedAt, deposits[n], now), OfYear(deposits[n].principal, apy.significand, Pow10(apy.exponent)))
  }

  /** The day that earns by the score of the day before the last update; on the first
      day of the epoch, the second day. */
  function DayOfUpdate(updatedAt: Timestamp): Timestamp {
    Max(updatedAt / MS_IN_DAY * MS_IN_DAY, MS_IN_DAY)
  }

  /** What is due for the days that have ended since the last update: the score of a
      day is paid for the day after it. */
  function UnitsDue(terms: Terms, hasIncreasedCap: bool, window: ScoreWindow, days: nat, jar: Jar): nat
    requires terms.IsScoreBased()
  {
    var ofYesterday := UnitsOfDay(DayOfUpdate(window.updatedAt), CachedAt(jar), PointsOf(terms, hasIncreasedCap, window.yesterday), jar.deposits);
    var ofToday := UnitsOfDay(window.updatedAt / MS_IN_DAY * MS_IN_DAY + MS_IN_DAY, CachedAt(jar), PointsOf(terms, hasIncreasedCap, window.today),
                              jar.deposits);
    if days == 0 then 0 else if days == 1 then ofYesterday else ofYesterday + ofToday
  }

  /** The jar's cache is behind the start of today by more than a day, as for any
      cache that is not ahead of the clock after the first day of the epoch. */
  predicate IsBehind(jar: Jar, now: Timestamp) {
    Max(CachedAt(jar) - MS_IN_DAY, 0) < now / MS_IN_DAY * MS_IN_DAY
  }

  // --- Settlements ------------------------------------------------------------

  lemma HundredThousand()
    ensures Pow10(5) == 100_000
  {
    assert Pow10(3) == 1000;
  }

  lemma PointsAreTheRate(terms: Terms, features: Features, record: DailyScore, principal: TokenAmount)
    requires terms.IsScoreBased()
    ensures YearlyInterest(principal, DueApy(record, terms, features)) == OfYear(principal, PointsOf(terms, features.increasedScoreCap, record), 100_000)
  {
    HundredThousand();
  }

  lemma {:induction false} DayIsPaid(dayStart: Timestamp, terms: Terms, features: Features, record: DailyScore, jar: Jar, deposits: seq<Deposit>)
    requires terms.IsScoreBased()
    ensures var (i, r) := DayInterest(dayStart, DueApy(record, terms, features), jar.cache, deposits);
            Units(i, r) == UnitsOfDay(dayStart + MS_IN_DAY, CachedAt(jar), PointsOf(terms, features.increasedScoreCap, record), deposits)
  {
    if deposits != [] {
      var n := |deposits| - 1;
      DayIsPaid(dayStart, terms, features, record, jar, deposits[..n]);
      PointsAreTheRate(terms, features, record, deposits[n].principal);
      assert DueTerm(dayStart, jar.cache, deposits[n]) == MsOfDay(dayStart + MS_IN_DAY, CachedAt(jar), deposits[n]);
    }
  }

  lemma StartsOfDays(t: Timestamp)
    ensures StartOfTheDay(t) == t / MS_IN_DAY * MS_IN_DAY
    ensures StartOfTheDay(SaturatingSub(t, MS_IN_DAY)) + MS_IN_DAY == DayOfUpdate(t)
  {
  }

  lemma OneRecord(start: Timestamp, record: DailyScore, terms: Terms, features: Features, jar: Jar)
    requires terms.IsScoreBased()
    ensures DueInterest([(start, record)], terms, features, jar) == DayInterest(start, DueApy(record, terms, features), jar.cache, jar.deposits)
  {
    var due := [(start, record)];
    assert due[..0] == [];
    assert DueInterest(due[..0], terms, features, jar) == (0, 0);
  }

  lemma TwoRecords(first: (Timestamp, DailyScore), start: Timestamp, record: DailyScore, terms: Terms, features: Features, jar: Jar)
    requires terms.IsScoreBased()
    ensures var (i, r) := DueInterest([first], terms, features, jar);
            var (i', r') := DayInterest(start, DueApy(record, terms, features), jar.cache, jar.deposits);
            DueInterest([first, (start, record)], terms, features, jar) == (i + i', r + r')
  {
    var due := [first, (start, record)];
    assert due[..1] == [first];
  }

  lemma DueIsPaid(terms: Terms, features: Features, window: ScoreWindow, days: nat, jar: Jar)
    requires terms.IsScoreBased()
    ensures var (i, r) := DueInterest(DueScores(window, days), terms, features, jar);
            Units(i, r) == UnitsDue(terms, features.increasedScoreCap, window, days, jar)
  {
    var today, yesterday := StartOfTheDay(window.updatedAt), StartOfTheDay(SaturatingSub(window.updatedAt, MS_IN_DAY));
    StartsOfDays(window.updatedAt);
    DayIsPaid(yesterday, terms, features, window.yesterday, jar, jar.deposits);
    if days == 1 {
      OneRecord(yesterday, window.yesterday, terms, features, jar);
    } else if days > 1 {
      DayIsPaid(today, terms, features, window.today, jar, jar.deposits);
      OneRecord(today, window.today, terms, features, jar);
      TwoRecords((today, window.today), yesterday, window.yesterday, terms, features, jar);
    }
  }

  /** A settlement pays every score jar exactly what is due for the ended days, and
      nothing else about its deposits changes. */
  lemma SettlementPays(account: Account, products: map<ProductId, Product>, p: ProductId, now: Timestamp)
    requires Known(account, products) && p in account.jars && products[p].terms.IsScoreBased()
    requires account.timezone.IsValid() && Settle(account, products, now).Ok?
    ensures DaysKnown(account.timezone, account.score.updatedAt, now)
    ensures var jar, settled := account.jars[p], Settle(account, products, now).value;
            var days := DaysSince(account.timezone, account.score.updatedAt, now);
            && p in settled.jars
            && settled.jars[p].deposits == jar.deposits && settled.jars[p].isLocked == jar.isLocked
            && OwedUnits(settled.jars[p])
               == OwedUnits(jar) + (if IsBehind(jar, now) then UnitsDue(products[p].terms, account.features.increasedScoreCap, account.score, days, jar) else 0)
            && CachedAt(settled.jars[p]) == if IsBehind(jar, now) && days > 0 then now / MS_IN_DAY * MS_IN_DAY else CachedAt(jar)
  {
    var jar, days := account.jars[p], DaysSince(account.timezone, account.score.updatedAt, now);
    StartsOfDays(now);
    DueIsPaid(products[p].terms, account.features, account.score, days, jar);
  }

  // --- Claims -----------------------------------------------------------------

  lemma {:induction false} RunningDayIsPaid(rate: Rate, jar: Jar, points: nat, deposits: seq<Deposit>, now: Timestamp)
    requires rate.terms.IsScoreBased() && (deposits != [] ==> rate.timezone.InRange(StartOfTheDay(now)))
    requires forall principal: TokenAmount :: YearlyInterest(principal, rate.apy) == OfYear(principal, points, 100_000)
    ensures SumUnits(rate, jar.cache, now, deposits)
         == UnitsOfRunningDay(rate.timezone.offset, rate.terms.lockupTerm, CachedAt(jar), points, deposits, now)
  {
    if deposits != [] {
      var n := |deposits| - 1;
      StartsOfDays(now);
      RunningDayIsPaid(rate, jar, points, deposits[..n], now);
      assert EarningTerm(rate, jar.cache, now, deposits[n])
          == MsOfRunningDay(rate.timezone.offset, rate.terms.lockupTerm, CachedAt(jar), deposits[n], now);
    }
  }

  lemma {:induction false} PlainIsPaid(rate: Rate, jar: Jar, deposits: seq<Deposit>, now: Timestamp)
    requires !rate.terms.IsScoreBased()
    ensures SumUnits(rate, jar.cache, now, deposits) == UnitsSince(rate.terms, rate.apy, CachedAt(jar), deposits, now)
  {
    if deposits != [] {
      var n := |deposits| - 1;
      PlainIsPaid(rate, jar, deposits[..n], now);
      assert EarningTerm(rate, jar.cache, now, deposits[n]) == MsSince(rate.terms, CachedAt(jar), deposits[n], now);
    }
  }

  lemma {:induction false} NoPointsEarnNothing(offset: int, lockup: Duration, cachedAt: Timestamp, deposits: seq<Deposit>, now: Timestamp)
    ensures UnitsOfRunningDay(offset, lockup, cachedAt, 0, deposits, now) == 0
  {
    if deposits != [] {
      NoPointsEarnNothing(offset, lockup, cachedAt, deposits[..|deposits| - 1], now);
    }
  }

  /** The running day pays by yesterday's score on the day of the last update, and
      nothing on later days. */
  function UnitsRunning(terms: Terms, hasIncreasedCap: bool, offset: int, window: ScoreWindow, days: nat, jar: Jar, now: Timestamp): nat
    requires terms.IsScoreBased()
  {
    if days > 0 then 0
    else UnitsOfRunningDay(offset, terms.lockupTerm, CachedAt(jar), PointsOf(terms, hasIncreasedCap, window.yesterday), jar.deposits, now)
  }

  lemma ScoreJarOwes(settled: Account, terms: Terms, jar: Jar, days: nat, now: Timestamp)
    requires terms.IsScoreBased() && DaysKnown(settled.timezone, settled.score.updatedAt, now)
    requires days == DaysSince(settled.timezone, settled.score.updatedAt, now)
    requires days > 0 ==> LastFinalized(settled.score, days) == NO_SCORE
    requires jar.deposits != [] ==> settled.timezone.InRange(StartOfTheDay(now))
    ensures SumUnits(RateFor(terms, settled, now), jar.cache, now, jar.deposits)
         == UnitsRunning(terms, settled.features.increasedScoreCap, settled.timezone.offset, settled.score, days, jar, now)
  {
    var rate, record := RateFor(terms, settled, now), LastFinalized(settled.score, days);
    var points := PointsOf(terms, settled.features.increasedScoreCap, record);
    HundredThousand();
    RunningDayIsPaid(rate, jar, points, jar.deposits, now);
    if days > 0 {
      NoPointsEarnNothing(settled.timezone.offset, terms.lockupTerm, CachedAt(jar), jar.deposits, now);
    }
  }

  /** What a claim does to an unlocked jar that is owed so much: whole tokens are paid,
      the rest is carried; with less than a token the jar is left alone. */
  predicate Pays(outcome: Outcome, p: ProductId, units: nat, now: Timestamp) {
    && p in outcome.account.jars
    && if units < MS_IN_YEAR then
         && !outcome.account.jars[p].isLocked && OwedUnits(outcome.account.jars[p]) <= units
         && (outcome.promise.Some? ==> outcome.promise.value.AfterClaim? && p !in outcome.promise.value.amounts)
       else
         && outcome.promise.Some? && outcome.promise.value.AfterClaim? && p in outcome.promise.value.amounts
         && outcome.promise.value.amounts[p] == units / MS_IN_YEAR
         && outcome.account.jars[p].isLocked
         && outcome.account.jars[p].cache == Some(JarCache(now, 0)) && outcome.account.jars[p].claimRemainder == units % MS_IN_YEAR
  }

  lemma SettledClaimPays(a: AccountId, settled: Account, products: map<ProductId, Product>, now: Timestamp, p: ProductId)
    requires Known(settled, products) && p in settled.jars && !settled.jars[p].isLocked
    requires ClaimSettled(a, settled, products, now).Ok?
    ensures CanAccrue(settled, products[p].terms, settled.jars[p], now)
    ensures Pays(ClaimSettled(a, settled, products, now).value, p,
                 OwedUnits(settled.jars[p]) + SumUnits(RateFor(products[p].terms, settled, now), settled.jars[p].cache, now, settled.jars[p].deposits), now)
  {
    OutcomeOfJar(a, settled, products, now, p);
    var jar, rate := settled.jars[p], RateFor(products[p].terms, settled, now);
    JarInterestIsExact(rate, jar, now);
    var (interest, remainder) := JarInterest(rate, jar, now);
    var units := OwedUnits(jar) + SumUnits(rate, jar.cache, now, jar.deposits);
    UnitsAreUnique(interest, remainder, units / MS_IN_YEAR, units % MS_IN_YEAR);
  }

  /** A settlement leaves what the running day pays as it is. */
  lemma SettlementKeepsRunningDay(account: Account, products: map<ProductId, Product>, p: ProductId, now: Timestamp)
    requires Known(account, products) && p in account.jars && products[p].terms.IsScoreBased()
    requires account.timezone.IsValid() && Settle(account, products, now).Ok?
    ensures DaysKnown(account.timezone, account.score.updatedAt, now)
    ensures var terms, settled, flag := products[p].terms, Settle(account, products, now).value, account.features.increasedScoreCap;
            var days := DaysSince(account.timezone, account.score.updatedAt, now);
            && settled.timezone == account.timezone && settled.score.updatedAt == account.score.updatedAt
            && (days > 0 ==> LastFinalized(settled.score, days) == NO_SCORE)
            && p in settled.jars
            && UnitsRunning(terms, flag, account.timezone.offset, settled.score, days, settled.jars[p], now)
               == UnitsRunning(terms, flag, account.timezone.offset, account.score, days, account.jars[p], now)
  {
  }

  lemma ClaimSettles(a: AccountId, account: Account, products: map<ProductId, Product>, p: ProductId, now: Timestamp)
    requires Known(account, products) && p in account.jars && !account.jars[p].isLocked
    requires ClaimTotal(a, account, products, now).Ok?
    ensures Settle(account, products, now).Ok?
    ensures var settled := Settle(account, products, now).value;
            && Known(settled, products) && p in settled.jars && !settled.jars[p].isLocked
            && ClaimSettled(a, settled, products, now) == ClaimTotal(a, account, products, now)
            && (settled.jars[p].deposits != [] && products[p].terms.IsScoreBased() ==> settled.timezone.InRange(StartOfTheDay(now)))
  {
    SettleKeepsHoldings(account, products, now);
    UnlockedAccrue(a, Settle(account, products, now).value, products, p, now);
  }

  lemma UnlockedAccrue(a: AccountId, settled: Account, products: map<ProductId, Product>, p: ProductId, now: Timestamp)
    requires Known(settled, products) && p in settled.jars && !settled.jars[p].isLocked
    requires ClaimSettled(a, settled, products, now).Ok?
    ensures CanAccrue(settled, products[p].terms, settled.jars[p], now)
  {
  }

  /** A claim pays a score jar what it is owed already, the ended days, and the running
      day on the day of the last update. */
  lemma ClaimPaysScores(a: AccountId, account: Account, products: map<ProductId, Product>, p: ProductId, now: Timestamp)
    requires Known(account, products) && p in account.jars && !account.jars[p].isLocked && products[p].terms.IsScoreBased()
    requires account.timezone.IsValid() && ClaimTotal(a, account, products, now).Ok?
    ensures DaysKnown(account.timezone, account.score.updatedAt, now)
    ensures var jar, terms, hasIncreasedCap := account.jars[p], products[p].terms, account.features.increasedScoreCap;
            var days := DaysSince(account.timezone, account.score.updatedAt, now);
            var ended := if IsBehind(jar, now) then UnitsDue(terms, hasIncreasedCap, account.score, days, jar) else 0;
            Pays(ClaimTotal(a, account, products, now).value, p,
                 OwedUnits(jar) + ended + UnitsRunning(terms, hasIncreasedCap, account.timezone.offset, account.score, days, jar, now), now)
  {
    ClaimSettles(a, account, products, p, now);
    var settled := Settle(account, products, now).value;
    SettledClaimPays(a, settled, products, now, p);
    SettlementPays(account, products, p, now);
    SettlementKeepsRunningDay(account, products, p, now);
    ScoreJarOwes(settled, products[p].terms, settled.jars[p], DaysSince(account.timezone, account.score.updatedAt, now), now);
  }

  /** A claim pays any other jar what it is owed already and what its deposits have
      earned since the cache. */
  lemma ClaimPaysPlain(a: AccountId, account: Account, products: map<ProductId, Product>, p: ProductId, now: Timestamp)
    requires Known(account, products) && p in account.jars && !account.jars[p].isLocked && !products[p].terms.IsScoreBased()
    requires ClaimTotal(a, account, products, now).Ok?
    ensures var jar, terms := account.jars[p], products[p].terms;
            Pays(ClaimTotal(a, account, products, now).value, p,
                 OwedUnits(jar) + UnitsSince(terms, PlainApy(terms, account.features.increasedApy), CachedAt(jar), jar.deposits, now), now)
  {
    var settled := Settle(account, products, now).value;
    SettledClaimPays(a, settled, products, now, p);
    PlainIsPaid(RateFor(products[p].terms, settled, now), settled.jars[p], settled.jars[p].deposits, now);
  }

  // --- Refreshes --------------------------------------------------------------

  /** The cache holds everything that is owed, up to now. */
  predicate IsCachedNow(jar: Jar, units: nat, now: Timestamp) {
    jar.cache == Some(JarCache(now, units / MS_IN_YEAR)) && jar.claimRemainder == units % MS_IN_YEAR
  }

  lemma RefreshCaches(rate: Rate, jar: Jar, now: Timestamp)
    requires TermsInRange(rate, jar, now)
    ensures IsCachedNow(Refreshed(rate, jar, now), OwedUnits(jar) + SumUnits(rate, jar.cache, now, jar.deposits), now)
  {
    JarInterestIsExact(rate, jar, now);
    var (interest, remainder) := JarInterest(rate, jar, now);
    var units := OwedUnits(jar) + SumUnits(rate, jar.cache, now, jar.deposits);
    UnitsAreUnique(interest, remainder, units / MS_IN_YEAR, units % MS_IN_YEAR);
  }

  lemma RefreshSettles(account: Account, products: map<ProductId, Product>, p: ProductId, now: Timestamp)
    requires Known(account, products) && p in account.jars && RefreshAll(account, products, now).Ok?
    ensures Settle(account, products, now).Ok?
    ensures var settled := Settle(account, products, now).value;
            && p in settled.jars && CanAccrue(settled, products[p].terms, settled.jars[p], now)
            && RefreshAll(account, products, now).value.jars.Keys == account.jars.Keys
            && RefreshAll(account, products, now).value.jars[p] == Refreshed(RateFor(products[p].terms, settled, now), settled.jars[p], now)
  {
  }

  /** A refresh before a change of rate keeps everything: what was owed, the ended days,
      and what has been earned since. */
  lemma RefreshKeepsScores(account: Account, products: map<ProductId, Product>, p: ProductId, now: Timestamp)
    requires Known(account, products) && p in account.jars && products[p].terms.IsScoreBased()
    requires account.timezone.IsValid() && RefreshAll(account, products, now).Ok?
    ensures DaysKnown(account.timezone, account.score.updatedAt, now) && RefreshAll(account, products, now).value.jars.Keys == account.jars.Keys
    ensures var jar, terms, hasIncreasedCap := account.jars[p], products[p].terms, account.features.increasedScoreCap;
            var days := DaysSince(account.timezone, account.score.updatedAt, now);
            var ended := if IsBehind(jar, now) then UnitsDue(terms, hasIncreasedCap, account.score, days, jar) else 0;
            IsCachedNow(RefreshAll(account, products, now).value.jars[p],
                        OwedUnits(jar) + ended + UnitsRunning(terms, hasIncreasedCap, account.timezone.offset, account.score, days, jar, now), now)
  {
    RefreshSettles(account, products, p, now);
    var settled := Settle(account, products, now).value;
    RefreshCaches(RateFor(products[p].terms, settled, now), settled.jars[p], now);
    SettlementPays(account, products, p, now);
    SettlementKeepsRunningDay(account, products, p, now);
    ScoreJarOwes(settled, products[p].terms, settled.jars[p], DaysSince(account.timezone, account.score.updatedAt, now), now);
  }

  lemma RefreshKeepsPlain(account: Account, products: map<ProductId, Product>, p: ProductId, now: Timestamp)
    requires Known(account, products) && p in account.jars && !products[p].terms.IsScoreBased()
    requires RefreshAll(account, products, now).Ok?
    ensures RefreshAll(account, products, now).value.jars.Keys == account.jars.Keys
    ensures var jar, terms := account.jars[p], products[p].terms;
            IsCachedNow(RefreshAll(account, products, now).value.jars[p],
                        OwedUnits(jar) + UnitsSince(terms, PlainApy(terms, account.features.increasedApy), CachedAt(jar), jar.deposits, now), now)
  {
    RefreshSettles(account, products, p, now);
    var settled := Settle(account, products, now).value;
    RefreshCaches(RateFor(products[p].terms, settled, now), settled.jars[p], now);
    PlainIsPaid(RateFor(products[p].terms, settled, now), settled.jars[p], settled.jars[p].deposits, now);
  }

  // --- A tiered day -----------------------------------------------------------

  const RUN: ProductId := "run"

  /** 36 500 000 tokens from day 10; on day 20 a capped score and a booster of 5 %. */
  const RUNNER := Account(
    1,
    map[RUN := Jar([Deposit(10 * MS_IN_DAY, 36_500_000)], Some(JarCache(10 * MS_IN_DAY, 0)), false, 0)],
    Timezone(0),
    ScoreWindow(20 * MS_IN_DAY, DailyScore(10_000, 5_000), NO_SCORE),
    Features(false, false))

  const TRACKS := map[RUN := Product(RUN, 1, 100_000_000, TieredScoreBased(Constant(10_000), MS_IN_YEAR), None, Some("key"), true)]

  lemma RunnerIsDue()
    ensures UnitsDue(TRACKS[RUN].terms, false, RUNNER.score, 2, RUNNER.jars[RUN]) == 15_000 * MS_IN_YEAR
  {
    var deposits, started := RUNNER.jars[RUN].deposits, 10 * MS_IN_DAY;
    assert deposits[..0] == [];
    assert UnitsOfDay(20 * MS_IN_DAY, started, 0, deposits) == 0;
    assert UnitsOfDay(21 * MS_IN_DAY, started, 15_000, deposits) == MS_IN_DAY * 5_475_000;
  }

  lemma RunnerIsAccepted(a: AccountId)
    ensures ClaimTotal(a, RUNNER, TRACKS, 22 * MS_IN_DAY).Ok?
  {
    var now := 22 * MS_IN_DAY;
    var settled := Settle(RUNNER, TRACKS, now).value;
    assert settled.jars.Keys == {RUN};
    assert AllAccrue(settled, TRACKS, now);
    OnlyOneJar(Claimable(settled, TRACKS, now).Keys);
  }

  lemma OnlyOneJar(ps: set<ProductId>)
    requires ps <= {RUN}
    ensures |ps| <= 1
  {
    assert ps == {} || ps == {RUN};
  }

  /** A claim at the start of day 22 pays one day at 15 %: 10 % for the score, which is
      at the cap, and 5 % for the booster. */
  lemma ABoostedDayIsPaid(a: AccountId)
    ensures ClaimTotal(a, RUNNER, TRACKS, 22 * MS_IN_DAY).Ok?
    ensures Pays(ClaimTotal(a, RUNNER, TRACKS, 22 * MS_IN_DAY).value, RUN, 15_000 * MS_IN_YEAR, 22 * MS_IN_DAY)
  {
    RunnerIsDue();
    RunnerIsAccepted(a);
    ClaimPaysScores(a, RUNNER, TRACKS, RUN, 22 * MS_IN_DAY);
    assert IsBehind(RUNNER.jars[RUN], 22 * MS_IN_DAY);
    assert DaysSince(RUNNER.timezone, RUNNER.score.updatedAt, 22 * MS_IN_DAY) == 2;
    assert OwedUnits(RUNNER.jars[RUN]) == 0;
  }
}
