/** Settlement of score products. The score of a day sets the rate of the next
    day; when days pass without an update, the finished days are paid from the
    two-day window and the window moves on. */
module Settlement {
  import opened Numbers
  import opened Types
  import opened Interest
  import opened Jars

  // --- The window -------------------------------------------------------------

  function Shifted(window: ScoreWindow): ScoreWindow {
    window.(today := NO_SCORE, yesterday := window.today)
  }

  function Wiped(window: ScoreWindow): ScoreWindow {
    window.(today := NO_SCORE, yesterday := NO_SCORE)
  }

  /** The window after a settlement; the update time stays. */
  function MovedOn(window: ScoreWindow, days: nat): ScoreWindow {
    if days == 0 then window else if days == 1 then Shifted(window) else Wiped(window)
  }

  // --- What is due ------------------------------------------------------------

  /** Finished score days with the UTC start of each. */
  function DueScores(window: ScoreWindow, days: nat): seq<(Timestamp, DailyScore)> {
    if days == 0 then []
    else if days == 1 then [(StartOfTheDay(SaturatingSub(window.updatedAt, MS_IN_DAY)), window.yesterday)]
    else [(StartOfTheDay(window.updatedAt), window.today),
          (StartOfTheDay(SaturatingSub(window.updatedAt, MS_IN_DAY)), window.yesterday)]
  }

  /** Calculation dates move one day back to meet the dates of the scores. */
  function AdjustRelative(t: Timestamp): Timestamp {
    SaturatingSub(t, MS_IN_DAY)
  }

  function CachedAtRelative(cache: Option<JarCache>): Timestamp {
    if cache.Some? then AdjustRelative(cache.value.updatedAt) else 0
  }

  function ScoreCapFor(terms: Terms, features: Features): Score
    requires terms.IsScoreBased()
  {
    if terms.ScoreBased? then terms.scoreCap else terms.tieredScoreCap.Resolve(features.increasedScoreCap)
  }

  function DueApy(record: DailyScore, terms: Terms, features: Features): UDecimal
    requires terms.IsScoreBased()
  {
    CappedApy(record, ScoreCapFor(terms, features), terms.TieredScoreBased?)
  }

  function DueTerm(dayStart: Timestamp, cache: Option<JarCache>, deposit: Deposit): Duration {
    SaturatingSub(dayStart + MS_IN_DAY,
                  Max(Max(AdjustRelative(deposit.createdAt), dayStart), CachedAtRelative(cache)))
  }

  function DayInterest(dayStart: Timestamp, apy: UDecimal, cache: Option<JarCache>, deposits: seq<Deposit>): (TokenAmount, nat) {
    if deposits == [] then (0, 0) else
      var (interest, remainder) := DayInterest(dayStart, apy, cache, deposits[..|deposits| - 1]);
      var deposit := deposits[|deposits| - 1];
      var (i, r) := GetInterest(deposit.principal, apy, DueTerm(dayStart, cache, deposit));
      (interest + i, remainder + r)
  }

  function DueInterest(due: seq<(Timestamp, DailyScore)>, terms: Terms, features: Features, jar: Jar): (TokenAmount, nat)
    requires terms.IsScoreBased()
  {
    if due == [] then (0, 0) else
      var (interest, remainder) := DueInterest(due[..|due| - 1], terms, features, jar);
      var (dayStart, record) := due[|due| - 1];
      var (i, r) := DayInterest(dayStart, DueApy(record, terms, features), jar.cache, jar.deposits);
      (interest + i, remainder + r)
  }

  // --- Settling ---------------------------------------------------------------

  /** A settlement touches the jar: a score product not cached since today. */
  predicate IsDue(due: seq<(Timestamp, DailyScore)>, terms: Terms, jar: Jar, now: Timestamp) {
    terms.IsScoreBased() && due != [] && CachedAtRelative(jar.cache) < StartOfTheDay(now)
  }

  /** The settled interest joins the cache, which then counts from the start of
      today; the remainder is carried as it is. */
  function SettledJar(due: seq<(Timestamp, DailyScore)>, terms: Terms, features: Features, jar: Jar, now: Timestamp): Jar {
    if !IsDue(due, terms, jar, now) then jar else
      var (interest, remainder) := DueInterest(due, terms, features, jar);
      WithCache(jar, CachedInterest(jar) + interest, jar.claimRemainder + remainder, StartOfTheDay(now))
  }

  function SettledAccount(account: Account, products: map<ProductId, Product>, now: Timestamp): Account
    requires account.jars.Keys <= products.Keys
    requires DaysKnown(account.timezone, account.score.updatedAt, now)
  {
    var days := DaysSince(account.timezone, account.score.updatedAt, now);
    var due := DueScores(account.score, days);
    account.(
      jars := map p | p in account.jars :: SettledJar(due, products[p].terms, account.features, account.jars[p], now),
      score := MovedOn(account.score, days))
  }

  function Settle(account: Account, products: map<ProductId, Product>, now: Timestamp): (r: Result<Account>)
    requires account.jars.Keys <= products.Keys
    ensures r.Ok? ==> r.value.features == account.features && r.value.nonce == account.nonce
  {
    if !account.timezone.IsValid() then Ok(account)
    else if !DaysKnown(account.timezone, account.score.updatedAt, now) then Err(TimestampOutOfRange)
    else Ok(SettledAccount(account, products, now))
  }

  // --- Bound ------------------------------------------------------------------

  lemma DueApyAtMostOne(record: DailyScore, terms: Terms, features: Features)
    requires terms.IsScoreBased()
    ensures var apy := DueApy(record, terms, features); apy.significand <= Pow10(apy.exponent)
  {
    assert Pow10(5) == 100_000 by {
      assert Pow10(2) == 100;
      assert Pow10(3) == 1000;
      assert Pow10(4) == 10_000;
    }
  }

  lemma {:induction false} DayInterestBound(dayStart: Timestamp, apy: UDecimal, cache: Option<JarCache>, deposits: seq<Deposit>)
    requires apy.significand <= Pow10(apy.exponent)
    ensures var (i, r) := DayInterest(dayStart, apy, cache, deposits);
            Units(i, r) <= MS_IN_DAY * Principal(deposits)
  {
    if deposits != [] {
      DayInterestBound(dayStart, apy, cache, deposits[..|deposits| - 1]);
      var deposit := deposits[|deposits| - 1];
      var term := DueTerm(dayStart, cache, deposit);
      RateAtMostOne(apy, deposit.principal);
      TermTimesRate(term, YearlyInterest(deposit.principal, apy), deposit.principal);
      var rest := Principal(deposits[..|deposits| - 1]);
      assert MS_IN_DAY * (rest + deposit.principal) == MS_IN_DAY * rest + MS_IN_DAY * deposit.principal;
    }
  }

  lemma TermTimesRate(term: nat, yearly: nat, principal: nat)
    requires term <= MS_IN_DAY && yearly <= principal
    ensures SaturatedProduct(term, yearly) <= MS_IN_DAY * principal
  {
    assert term * yearly <= MS_IN_DAY * yearly;
    assert MS_IN_DAY * yearly <= MS_IN_DAY * principal;
  }

  lemma {:induction false} DueInterestBound(due: seq<(Timestamp, DailyScore)>, terms: Terms, features: Features, jar: Jar, day: nat)
    requires terms.IsScoreBased()
    requires day == MS_IN_DAY * Principal(jar.deposits)
    requires |due| <= 2
    ensures var (i, r) := DueInterest(due, terms, features, jar);
            Units(i, r) <= day + day
    ensures |due| <= 1 ==> var (i, r) := DueInterest(due, terms, features, jar);
                           Units(i, r) <= day
    ensures |due| == 0 ==> DueInterest(due, terms, features, jar) == (0, 0)
  {
    if due != [] {
      var n := |due| - 1;
      DueInterestBound(due[..n], terms, features, jar, day);
      DueApyAtMostOne(due[n].1, terms, features);
      DayInterestBound(due[n].0, DueApy(due[n].1, terms, features), jar.cache, jar.deposits);
    }
  }

  /** Whatever the timezone, the window and the gap, one settlement credits a jar
      with at most two days at 100% a year, and nothing else changes in it. */
  lemma SettlementIsBounded(account: Account, products: map<ProductId, Product>, now: Timestamp, p: ProductId)
    requires account.jars.Keys <= products.Keys
    requires p in account.jars
    requires Settle(account, products, now).Ok?
    ensures var after := Settle(account, products, now).value;
            && p in after.jars
            && OwedUnits(account.jars[p]) <= OwedUnits(after.jars[p])
            && OwedUnits(after.jars[p])
                 <= OwedUnits(account.jars[p]) + 2 * (MS_IN_DAY * Principal(account.jars[p].deposits))
            && after.jars[p].deposits == account.jars[p].deposits
            && after.jars[p].isLocked == account.jars[p].isLocked
            && (!products[p].terms.IsScoreBased() ==> after.jars[p] == account.jars[p])
  {
    var jar := account.jars[p];
    if account.timezone.IsValid() {
      var due := DueScores(account.score, DaysSince(account.timezone, account.score.updatedAt, now));
      if IsDue(due, products[p].terms, jar, now) {
        DueInterestBound(due, products[p].terms, account.features, jar, MS_IN_DAY * Principal(jar.deposits));
      }
    }
  }
}
