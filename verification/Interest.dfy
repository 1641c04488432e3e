/** Interest of one jar: what has been cached plus what every deposit has earned
    since. Amounts are counted in `1 / MS_IN_YEAR` of a token, so that the split
    into whole tokens and a carried remainder loses nothing. */
module Interest {
  import opened Numbers
  import opened Types

  // --- Score records as rates -------------------------------------------------

  /** The compound score that corresponds to 100% a year. */
  const MAX_COMPOUND_SCORE: nat := 100_000

  /** 1000 points are one percent. */
  function ScoreToApy(score: nat): UDecimal {
    UDecimal(score, 5)
  }

  function CappedApy(record: DailyScore, cap: Score, includeBooster: bool): UDecimal {
    var capped := Min(record.value, cap);
    if includeBooster then ScoreToApy(Min(capped + record.booster, MAX_COMPOUND_SCORE)) else ScoreToApy(capped)
  }

  /** The booster comes on top of the capped score, and both together stop at 100%. */
  lemma BoosterComesOnTop(record: DailyScore, cap: Score)
    ensures CappedApy(record, cap, true).significand
         == Min(CappedApy(record, cap, false).significand + record.booster, CappedApy(DailyScore(0xFFFF, 0xFFFF), 0xFFFF, true).significand)
    ensures SaturatingMul(CappedApy(DailyScore(0xFFFF, 0xFFFF), 0xFFFF, true), 1) == 1
  {
    assert Pow10(5) == MAX_COMPOUND_SCORE by {
      assert Pow10(2) == 100;
      assert Pow10(3) == 1000;
      assert Pow10(4) == 10_000;
    }
    QuotientUnique(SaturatedProduct(1, MAX_COMPOUND_SCORE), Pow10(5), 1);
  }

  /** The number of local days since the last update can be computed: both times
      shift without overflow and the difference fits 16 bits. */
  predicate DaysKnown(tz: Timezone, updatedAt: Timestamp, now: Timestamp) {
    && tz.InRange(now)
    && tz.InRange(updatedAt)
    && 0 <= tz.LocalDay(now) - tz.LocalDay(updatedAt) <= 0xFFFF
  }

  function DaysSince(tz: Timezone, updatedAt: Timestamp, now: Timestamp): nat
    requires DaysKnown(tz, updatedAt, now)
  {
    tz.LocalDay(now) - tz.LocalDay(updatedAt)
  }

  /** The score of the day before the current one. */
  function LastFinalized(window: ScoreWindow, days: nat): DailyScore {
    if days == 0 then window.yesterday
    else if days == 1 then window.today
    else NO_SCORE
  }

  // --- Rates ------------------------------------------------------------------

  /** Everything besides the jar and the clock that determines its interest. */
  datatype Rate = Rate(terms: Terms, timezone: Timezone, apy: UDecimal)

  /** Computing the rate does not abort. */
  predicate RateKnown(terms: Terms, account: Account, now: Timestamp) {
    terms.IsScoreBased() ==> DaysKnown(account.timezone, account.score.updatedAt, now)
  }

  function RateFor(terms: Terms, account: Account, now: Timestamp): Rate
    requires RateKnown(terms, account, now)
  {
    Rate(terms, account.timezone, ApyFor(terms, account, now))
  }

  function ApyFor(terms: Terms, account: Account, now: Timestamp): UDecimal
    requires RateKnown(terms, account, now)
  {
    match terms
    case Fixed(_, apy) => apy.Resolve(account.features.increasedApy)
    case Flexible(apy) => apy.Resolve(account.features.increasedApy)
    case ScoreBased(cap, _) =>
      CappedApy(LastFinalized(account.score, DaysSince(account.timezone, account.score.updatedAt, now)), cap, false)
    case TieredScoreBased(cap, _) =>
      CappedApy(LastFinalized(account.score, DaysSince(account.timezone, account.score.updatedAt, now)),
                cap.Resolve(account.features.increasedScoreCap), true)
  }

  // --- One deposit ------------------------------------------------------------

  function EarningSince(cache: Option<JarCache>, deposit: Deposit): Timestamp {
    if cache.Some? then Max(cache.value.updatedAt, deposit.createdAt) else deposit.createdAt
  }

  /** Milliseconds a deposit earns for, from the cached moment to `now`. Score
      products earn from the start of the day only, earlier days being settled. */
  function EarningTerm(rate: Rate, cache: Option<JarCache>, now: Timestamp, deposit: Deposit): Duration
    requires rate.terms.IsScoreBased() ==> rate.timezone.InRange(StartOfTheDay(now))
  {
    var since := EarningSince(cache, deposit);
    match rate.terms
    case Fixed(lockup, _) => SaturatingSub(Min(now, deposit.createdAt + lockup), since)
    case Flexible(_) => SaturatingSub(now, since)
    case ScoreBased(_, lockup) =>
      SaturatingSub(Min(now, deposit.createdAt + lockup), Max(rate.timezone.Adjust(StartOfTheDay(now)), since))
    case TieredScoreBased(_, lockup) =>
      SaturatingSub(Min(now, deposit.createdAt + lockup), Max(rate.timezone.Adjust(StartOfTheDay(now)), since))
  }

  function YearlyInterest(principal: TokenAmount, apy: UDecimal): TokenAmount {
    SaturatingMul(apy, principal)
  }

  /** Interest in `1 / MS_IN_YEAR` of a token; the product stops at 128 bits. */
  function EarnedUnits(principal: TokenAmount, apy: UDecimal, term: Duration): nat {
    SaturatedProduct(term, YearlyInterest(principal, apy))
  }

  function GetInterest(principal: TokenAmount, apy: UDecimal, term: Duration): (TokenAmount, nat) {
    var units := EarnedUnits(principal, apy, term);
    (units / MS_IN_YEAR, units % MS_IN_YEAR)
  }

  // --- A jar ------------------------------------------------------------------

  /** No time shift in the interest computation aborts. */
  predicate TermsInRange(rate: Rate, jar: Jar, now: Timestamp) {
    rate.terms.IsScoreBased() && jar.deposits != [] ==> rate.timezone.InRange(StartOfTheDay(now))
  }

  function SumInterest(rate: Rate, cache: Option<JarCache>, now: Timestamp, deposits: seq<Deposit>): (TokenAmount, nat)
    requires rate.terms.IsScoreBased() && deposits != [] ==> rate.timezone.InRange(StartOfTheDay(now))
  {
    if deposits == [] then (0, 0) else
      var (interest, remainder) := SumInterest(rate, cache, now, deposits[..|deposits| - 1]);
      var deposit := deposits[|deposits| - 1];
      var (i, r) := GetInterest(deposit.principal, rate.apy, EarningTerm(rate, cache, now, deposit));
      (interest + i, remainder + r)
  }

  function JarInterest(rate: Rate, jar: Jar, now: Timestamp): (TokenAmount, nat)
    requires TermsInRange(rate, jar, now)
  {
    var (interest, remainder) := SumInterest(rate, jar.cache, now, jar.deposits);
    var total := jar.claimRemainder + remainder;
    (CachedInterest(jar) + interest + total / MS_IN_YEAR, total % MS_IN_YEAR)
  }

  function CachedInterest(jar: Jar): TokenAmount {
    if jar.cache.Some? then jar.cache.value.interest else 0
  }

  // --- Exactness --------------------------------------------------------------

  /** Whole tokens and remainder together, in units. */
  function Units(interest: TokenAmount, remainder: nat): nat {
    interest * MS_IN_YEAR + remainder
  }

  /** What the jar already owes, in units. */
  function OwedUnits(jar: Jar): nat {
    Units(CachedInterest(jar), jar.claimRemainder)
  }

  /** What the deposits have earned since the cached moment, in units. */
  function SumUnits(rate: Rate, cache: Option<JarCache>, now: Timestamp, deposits: seq<Deposit>): nat
    requires rate.terms.IsScoreBased() && deposits != [] ==> rate.timezone.InRange(StartOfTheDay(now))
  {
    if deposits == [] then 0 else
      var deposit := deposits[|deposits| - 1];
      SumUnits(rate, cache, now, deposits[..|deposits| - 1])
      + EarnedUnits(deposit.principal, rate.apy, EarningTerm(rate, cache, now, deposit))
  }

  lemma {:induction false} SumInterestIsExact(rate: Rate, cache: Option<JarCache>, now: Timestamp, deposits: seq<Deposit>)
    requires rate.terms.IsScoreBased() && deposits != [] ==> rate.timezone.InRange(StartOfTheDay(now))
    ensures var (i, r) := SumInterest(rate, cache, now, deposits);
            Units(i, r) == SumUnits(rate, cache, now, deposits)
  {
    if deposits != [] {
      SumInterestIsExact(rate, cache, now, deposits[..|deposits| - 1]);
    }
  }

  /** Splitting every deposit's interest into tokens and remainder, and carrying
      the summed remainders over, loses nothing: the result is exactly what was
      owed plus what was earned, and its remainder is below one token. */
  lemma JarInterestIsExact(rate: Rate, jar: Jar, now: Timestamp)
    requires TermsInRange(rate, jar, now)
    ensures var (i, r) := JarInterest(rate, jar, now);
            && Units(i, r) == OwedUnits(jar) + SumUnits(rate, jar.cache, now, jar.deposits)
            && r < MS_IN_YEAR
  {
    SumInterestIsExact(rate, jar.cache, now, jar.deposits);
  }

  /** Tokens and remainder are determined by the units. */
  lemma UnitsAreUnique(i: nat, r: nat, i': nat, r': nat)
    requires Units(i, r) == Units(i', r')
    requires r < MS_IN_YEAR && r' < MS_IN_YEAR
    ensures i == i' && r == r'
  {
  }

  /** The sum of the remainders of fewer than half a billion deposits fits the
      64-bit accumulator. */
  lemma {:induction false} RemaindersFit(rate: Rate, cache: Option<JarCache>, now: Timestamp, deposits: seq<Deposit>)
    requires rate.terms.IsScoreBased() && deposits != [] ==> rate.timezone.InRange(StartOfTheDay(now))
    ensures SumInterest(rate, cache, now, deposits).1 <= |deposits| * (MS_IN_YEAR - 1)
    ensures |deposits| <= 500_000_000 ==> SumInterest(rate, cache, now, deposits).1 <= U64_MAX
  {
    if deposits != [] {
      RemaindersFit(rate, cache, now, deposits[..|deposits| - 1]);
    }
  }
}
