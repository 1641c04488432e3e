/** Score jars are never over-credited. In UTC, over any run of recordings and
    completed claims, what a deposit is ever credited with for the score of one day
    is at most one full day at the rate of that day's total score, although the
    settlement may move the cache back to the start of the day. */
module OverCredit {
  import opened Numbers
  import opened Types
  import opened MapSum
  import opened Interest
  import opened Jars
  import opened Settlement
  import opened Scores
  import opened Credits

  const UTC := Timezone(0)

  // --- Days -------------------------------------------------------------------

  lemma DayBounds(t: Timestamp)
    ensures Day(t) * MS_IN_DAY <= t < Day(t) * MS_IN_DAY + MS_IN_DAY
    ensures StartOfTheDay(t) == Day(t) * MS_IN_DAY
    ensures Day(StartOfTheDay(t)) == Day(t)
    ensures t >= MS_IN_DAY ==> Day(t) >= 1 && Day(SaturatingSub(t, MS_IN_DAY)) == Day(t) - 1
    ensures t >= MS_IN_DAY ==> StartOfTheDay(SaturatingSub(t, MS_IN_DAY)) == (Day(t) - 1) * MS_IN_DAY
  {
    assert t - t % MS_IN_DAY == t / MS_IN_DAY * MS_IN_DAY;
  }

  /** How much of a day starting at `start` has passed at a moment. */
  function Passed(start: int, moment: int): nat {
    Max(0, Min(moment - start, MS_IN_DAY))
  }

  function Moment(cache: Option<JarCache>): Timestamp {
    if cache.Some? then cache.value.updatedAt else 0
  }

  // --- Rates ------------------------------------------------------------------

  function Total(book: ScoreBook, day: int): nat {
    At(book.totals, day)
  }

  /** The yearly interest at the rate of all increments ever accepted for a day. */
  function DayRate(principal: TokenAmount, cap: Score, book: ScoreBook, day: int): TokenAmount {
    YearlyInterest(principal, ScoreToApy(Min(cap, Total(book, day))))
  }

  lemma YearlyGrowsWithScore(principal: TokenAmount, score: nat, score': nat)
    requires score <= score'
    ensures YearlyInterest(principal, ScoreToApy(score)) <= YearlyInterest(principal, ScoreToApy(score'))
  {
    assert principal * score <= principal * score';
    QuotientMonotone(SaturatedProduct(principal, score), SaturatedProduct(principal, score'), Pow10(5));
  }

  lemma ZeroScoreEarnsNothing(principal: TokenAmount)
    ensures YearlyInterest(principal, ScoreToApy(0)) == 0
  {
    QuotientUnique(0, Pow10(5), 0);
  }

  /** An entry stays below its term at any rate that is at least its own. */
  lemma CreditFits(deposit: nat, day: int, principal: TokenAmount, apy: UDecimal, term: Duration, limit: nat)
    requires term == 0 || YearlyInterest(principal, apy) <= limit
    ensures var credit := CreditFor(deposit, day, principal, apy, term);
            credit.units <= credit.term * limit && credit.term <= term
  {
    var yearly := YearlyInterest(principal, apy);
    if term > 0 {
      assert term * yearly <= term * limit;
    }
  }

  // --- What always holds ------------------------------------------------------

  /** The window shows the totals of its update day and the day before; or it has
      been shifted since, and the cache has passed the day whose score it keeps. */
  ghost predicate Shows(window: ScoreWindow, book: ScoreBook, moment: Timestamp, last: Timestamp) {
    var day := Day(window.updatedAt);
    || (window.today.value <= Total(book, day) && window.yesterday.value <= Total(book, day - 1))
    || IsShifted(window, book, moment, last)
  }

  ghost predicate IsShifted(window: ScoreWindow, book: ScoreBook, moment: Timestamp, last: Timestamp) {
    var day := Day(window.updatedAt);
    && window.today.value == 0 && window.yesterday.value <= Total(book, day)
    && (day + 1) * MS_IN_DAY <= moment && day + 1 <= Day(last)
  }

  predicate IsZero(window: ScoreWindow) {
    window.today.value == 0 && window.yesterday.value == 0
  }

  /** One deposit: no day has been credited for more than a day, and days that are
      still to be settled have room left. */
  ghost predicate Within(window: ScoreWindow, moment: Timestamp, last: Timestamp, credits: seq<Credit>, deposit: nat) {
    var today := Day(window.updatedAt);
    && (forall day: int :: TermFor(credits, deposit, day) <= MS_IN_DAY)
    && (forall day: int :: day > today ==> TermFor(credits, deposit, day) == 0)
    && (TermFor(credits, deposit, today) == 0 || (today + 2 <= Day(last) && IsZero(window)))
    && TermFor(credits, deposit, today - 1) <= Passed(today * MS_IN_DAY, moment)
  }

  /** One deposit: no day has been credited above the rate of its total. */
  ghost predicate Below(credits: seq<Credit>, book: ScoreBook, cap: Score, deposit: nat, principal: TokenAmount) {
    forall day: int :: UnitsFor(credits, deposit, day) <= TermFor(credits, deposit, day) * DayRate(principal, cap, book, day)
  }

  lemma BelowAppend(a: seq<Credit>, b: seq<Credit>, book: ScoreBook, cap: Score, deposit: nat, principal: TokenAmount)
    requires Below(a, book, cap, deposit, principal) && Below(b, book, cap, deposit, principal)
    ensures Below(a + b, book, cap, deposit, principal)
  {
    forall day: int ensures UnitsFor(a + b, deposit, day) <= TermFor(a + b, deposit, day) * DayRate(principal, cap, book, day) {
      CreditsAppend(a, b, deposit, day);
      BoundsAdd(TermFor(a, deposit, day), TermFor(b, deposit, day), DayRate(principal, cap, book, day),
                UnitsFor(a, deposit, day), UnitsFor(b, deposit, day));
    }
  }

  lemma BoundsAdd(a: nat, b: nat, rate: nat, u: nat, v: nat)
    requires u <= a * rate && v <= b * rate
    ensures u + v <= (a + b) * rate
  {
  }

  // --- Adding entries for one day ---------------------------------------------

  /** Entries that credit the deposit for one day only. */
  ghost predicate CreditsOneDay(added: seq<Credit>, deposit: nat, day: int, term: nat) {
    && (forall d: int :: d != day ==> TermFor(added, deposit, d) == 0)
    && TermFor(added, deposit, day) <= term
  }

  /** The credited day is yesterday's of the window: there is room for what has not
      passed of the update day. */
  lemma YesterdayCredited(window: ScoreWindow, moment: Timestamp, moment': Timestamp, last: Timestamp, credits: seq<Credit>, added: seq<Credit>,
                          deposit: nat, term: nat)
    requires Within(window, moment, last, credits, deposit)
    requires CreditsOneDay(added, deposit, Day(window.updatedAt) - 1, term)
    requires Passed(Day(window.updatedAt) * MS_IN_DAY, moment) + term <= Passed(Day(window.updatedAt) * MS_IN_DAY, moment')
    ensures Within(window, moment', last, credits + added, deposit)
  {
    forall d: int ensures TermFor(credits + added, deposit, d) == TermFor(credits, deposit, d) + TermFor(added, deposit, d) {
      CreditsAppend(credits, added, deposit, d);
    }
  }

  /** The credited day is the update day itself, two days on. */
  lemma TodayCredited(window: ScoreWindow, moment: Timestamp, last: Timestamp, credits: seq<Credit>, added: seq<Credit>, deposit: nat)
    requires Within(window, moment, last, credits, deposit)
    requires CreditsOneDay(added, deposit, Day(window.updatedAt), MS_IN_DAY)
    requires IsZero(window) ==> TermFor(added, deposit, Day(window.updatedAt)) == 0
    requires Day(window.updatedAt) + 2 <= Day(last)
    ensures Within(Wiped(window), moment, last, credits + added, deposit)
  {
    forall d: int ensures TermFor(credits + added, deposit, d) == TermFor(credits, deposit, d) + TermFor(added, deposit, d) {
      CreditsAppend(credits, added, deposit, d);
    }
  }

  lemma NothingCredited(window: ScoreWindow, moment: Timestamp, moment': Timestamp, last: Timestamp, credits: seq<Credit>, added: seq<Credit>, deposit: nat)
    requires Within(window, moment, last, credits, deposit)
    requires forall d: int :: TermFor(added, deposit, d) == 0
    requires moment <= moment'
    ensures Within(window, moment', last, credits + added, deposit)
  {
    forall d: int ensures TermFor(credits + added, deposit, d) == TermFor(credits, deposit, d) {
      CreditsAppend(credits, added, deposit, d);
    }
  }

  // --- What the code credits --------------------------------------------------

  lemma DayCreditsOneDay(dayStart: Timestamp, record: DailyScore, terms: Terms, features: Features, jar: Jar, deposit: nat, term: nat)
    requires terms.ScoreBased? && deposit < |jar.deposits|
    requires DueTerm(dayStart, jar.cache, jar.deposits[deposit]) <= term
    ensures var credits := DayCredits(dayStart, DueApy(record, terms, features), jar.cache, jar.deposits);
            && CreditsOneDay(credits, deposit, Day(dayStart), term)
            && (record.value == 0 ==> TermFor(credits, deposit, Day(dayStart)) == 0)
  {
    var apy := DueApy(record, terms, features);
    var credits := DayCredits(dayStart, apy, jar.cache, jar.deposits);
    forall d: int ensures d != Day(dayStart) ==> TermFor(credits, deposit, d) == 0 {
      DayCreditsFor(dayStart, apy, jar.cache, jar.deposits, deposit, d);
    }
    DayCreditsFor(dayStart, apy, jar.cache, jar.deposits, deposit, Day(dayStart));
    ZeroScoreEarnsNothing(jar.deposits[deposit].principal);
  }

  lemma DayCreditsBelow(dayStart: Timestamp, record: DailyScore, terms: Terms, features: Features, jar: Jar, book: ScoreBook, deposit: nat)
    requires terms.ScoreBased? && deposit < |jar.deposits|
    requires DueTerm(dayStart, jar.cache, jar.deposits[deposit]) == 0 || record.value <= Total(book, Day(dayStart))
    ensures Below(DayCredits(dayStart, DueApy(record, terms, features), jar.cache, jar.deposits), book, terms.scoreCap,
                  deposit, jar.deposits[deposit].principal)
  {
    var apy, principal, day := DueApy(record, terms, features), jar.deposits[deposit].principal, Day(dayStart);
    var credits := DayCredits(dayStart, apy, jar.cache, jar.deposits);
    forall d: int ensures UnitsFor(credits, deposit, d) <= TermFor(credits, deposit, d) * DayRate(principal, terms.scoreCap, book, d) {
      DayCreditsFor(dayStart, apy, jar.cache, jar.deposits, deposit, d);
      if d == day {
        if record.value <= Total(book, day) {
          YearlyGrowsWithScore(principal, Min(record.value, terms.scoreCap), Min(terms.scoreCap, Total(book, day)));
        }
        CreditFits(deposit, day, principal, apy, DueTerm(dayStart, jar.cache, jar.deposits[deposit]), DayRate(principal, terms.scoreCap, book, day));
      }
    }
  }

  /** Finishing the day after a score day credits what had not passed of it, by the
      cache or by the deposit's creation; no more and no less. */
  lemma DueTermIsTheRest(day: nat, cache: Option<JarCache>, deposit: Deposit)
    ensures DueTerm(day * MS_IN_DAY, cache, deposit) + Passed((day + 1) * MS_IN_DAY, Max(Moment(cache), deposit.createdAt)) == MS_IN_DAY
    ensures DueTerm(day * MS_IN_DAY, cache, deposit) + Passed((day + 1) * MS_IN_DAY, Moment(cache)) <= MS_IN_DAY
  {
  }

  lemma LiveCreditsOneDay(rate: Rate, jar: Jar, now: Timestamp, record: DailyScore, deposit: nat)
    requires rate.terms.ScoreBased? && rate.timezone == UTC && UTC.InRange(StartOfTheDay(now))
    requires rate.apy == CappedApy(record, rate.terms.scoreCap, false)
    requires deposit < |jar.deposits| && Moment(jar.cache) <= now
    ensures var credits := LiveCredits(rate, jar.cache, now, jar.deposits);
            var rest := Passed(Day(now) * MS_IN_DAY, now) - Passed(Day(now) * MS_IN_DAY, Moment(jar.cache));
            && rest >= 0
            && CreditsOneDay(credits, deposit, Day(now) - 1, rest)
            && (record.value == 0 ==> TermFor(credits, deposit, Day(now) - 1) == 0)
  {
    DayBounds(now);
    var credits := LiveCredits(rate, jar.cache, now, jar.deposits);
    forall d: int ensures d != Day(now) - 1 ==> TermFor(credits, deposit, d) == 0 {
      LiveCreditsFor(rate, jar.cache, now, jar.deposits, deposit, d);
    }
    LiveCreditsFor(rate, jar.cache, now, jar.deposits, deposit, Day(now) - 1);
    ZeroScoreEarnsNothing(jar.deposits[deposit].principal);
  }

  lemma LiveCreditsBelow(rate: Rate, jar: Jar, now: Timestamp, record: DailyScore, book: ScoreBook, deposit: nat)
    requires rate.terms.ScoreBased? && rate.timezone == UTC && UTC.InRange(StartOfTheDay(now))
    requires rate.apy == CappedApy(record, rate.terms.scoreCap, false)
    requires deposit < |jar.deposits|
    requires record.value <= Total(book, Day(now) - 1)
    ensures Below(LiveCredits(rate, jar.cache, now, jar.deposits), book, rate.terms.scoreCap, deposit, jar.deposits[deposit].principal)
  {
    var principal, day: int, cap := jar.deposits[deposit].principal, Day(now) - 1, rate.terms.scoreCap;
    var credits := LiveCredits(rate, jar.cache, now, jar.deposits);
    forall d: int ensures UnitsFor(credits, deposit, d) <= TermFor(credits, deposit, d) * DayRate(principal, cap, book, d) {
      LiveCreditsFor(rate, jar.cache, now, jar.deposits, deposit, d);
      if d == day {
        YearlyGrowsWithScore(principal, Min(record.value, cap), Min(cap, Total(book, day)));
        CreditFits(deposit, day, principal, rate.apy, EarningTerm(rate, jar.cache, now, jar.deposits[deposit]), DayRate(principal, cap, book, day));
      }
    }
  }

  // --- A settlement -----------------------------------------------------------

  lemma DayIsMonotone(t: Timestamp, t': Timestamp)
    requires t <= t'
    ensures Day(t) <= Day(t')
  {
  }

  /** The days since the update, and the entries a settlement makes. */
  function DaysOf(window: ScoreWindow, now: Timestamp): nat
    requires DaysKnown(UTC, window.updatedAt, now)
  {
    DaysSince(UTC, window.updatedAt, now)
  }

  function SettleCredits(window: ScoreWindow, terms: Terms, features: Features, jar: Jar, now: Timestamp): seq<Credit>
    requires terms.IsScoreBased() && DaysKnown(UTC, window.updatedAt, now)
  {
    var due := DueScores(window, DaysOf(window, now));
    if IsDue(due, terms, jar, now) then DueCredits(due, terms, features, jar) else []
  }

  function SettledBy(window: ScoreWindow, terms: Terms, features: Features, jar: Jar, now: Timestamp): Jar
    requires DaysKnown(UTC, window.updatedAt, now)
  {
    SettledJar(DueScores(window, DaysOf(window, now)), terms, features, jar, now)
  }

  /** A settlement of finished days moves the cache to the start of today, be it
      forward or back. */
  lemma SettlementMovesCache(window: ScoreWindow, terms: Terms, features: Features, jar: Jar, now: Timestamp)
    requires terms.IsScoreBased() && DaysKnown(UTC, window.updatedAt, now)
    requires Moment(jar.cache) <= now
    ensures DaysOf(window, now) == Day(now) - Day(window.updatedAt)
    ensures DaysOf(window, now) > 0 ==>
              && IsDue(DueScores(window, DaysOf(window, now)), terms, jar, now)
              && Moment(SettledBy(window, terms, features, jar, now).cache) == Day(now) * MS_IN_DAY
    ensures DaysOf(window, now) == 0 ==> SettledBy(window, terms, features, jar, now) == jar && SettleCredits(window, terms, features, jar, now) == []
    ensures Moment(SettledBy(window, terms, features, jar, now).cache) <= now
    ensures SettledBy(window, terms, features, jar, now).deposits == jar.deposits
  {
    DayBounds(now);
  }

  /** The entries of a settlement, day by day. */
  lemma SettleCreditsAre(window: ScoreWindow, terms: Terms, features: Features, jar: Jar, now: Timestamp)
    requires terms.IsScoreBased() && DaysKnown(UTC, window.updatedAt, now)
    requires Moment(jar.cache) <= now && MS_IN_DAY <= window.updatedAt
    ensures var today := Day(window.updatedAt);
            var forYesterday := DayCredits((today - 1) * MS_IN_DAY, DueApy(window.yesterday, terms, features), jar.cache, jar.deposits);
            SettleCredits(window, terms, features, jar, now)
            == if DaysOf(window, now) == 0 then []
               else if DaysOf(window, now) == 1 then forYesterday
               else DayCredits(today * MS_IN_DAY, DueApy(window.today, terms, features), jar.cache, jar.deposits) + forYesterday
  {
    SettlementMovesCache(window, terms, features, jar, now);
    DayBounds(window.updatedAt);
    var start, before := StartOfTheDay(window.updatedAt), StartOfTheDay(SaturatingSub(window.updatedAt, MS_IN_DAY));
    OneDue((before, window.yesterday), terms, features, jar);
    TwoDue((start, window.today), (before, window.yesterday), terms, features, jar);
  }

  lemma DayOfStart(day: nat)
    ensures Day(day * MS_IN_DAY) == day
  {
  }

  /** What is left of the update day for yesterday's score. */
  function Rest(window: ScoreWindow, moment: Timestamp): nat {
    MS_IN_DAY - Passed(Day(window.updatedAt) * MS_IN_DAY, moment)
  }

  lemma OneDayWithin(window: ScoreWindow, terms: Terms, features: Features, jar: Jar, now: Timestamp, credits: seq<Credit>, deposit: nat)
    requires terms.ScoreBased? && DaysKnown(UTC, window.updatedAt, now)
    requires MS_IN_DAY <= window.updatedAt && Moment(jar.cache) <= now && deposit < |jar.deposits|
    requires DaysOf(window, now) == 1
    requires Within(window, Moment(jar.cache), now, credits, deposit)
    ensures Within(Shifted(window), Day(now) * MS_IN_DAY, now, credits + SettleCredits(window, terms, features, jar, now), deposit)
  {
    SettleCreditsAre(window, terms, features, jar, now);
    DayBounds(window.updatedAt);
    var before, rest := Day(window.updatedAt) - 1, Rest(window, Moment(jar.cache));
    DayOfStart(before);
    DueTermIsTheRest(before, jar.cache, jar.deposits[deposit]);
    DayCreditsOneDay(before * MS_IN_DAY, window.yesterday, terms, features, jar, deposit, rest);
    YesterdayCredited(window, Moment(jar.cache), Day(now) * MS_IN_DAY, now, credits, SettleCredits(window, terms, features, jar, now), deposit, rest);
  }

  lemma ManyDaysWithin(window: ScoreWindow, terms: Terms, features: Features, jar: Jar, now: Timestamp, credits: seq<Credit>, deposit: nat)
    requires terms.ScoreBased? && DaysKnown(UTC, window.updatedAt, now)
    requires MS_IN_DAY <= window.updatedAt && Moment(jar.cache) <= now && deposit < |jar.deposits|
    requires DaysOf(window, now) >= 2
    requires Within(window, Moment(jar.cache), now, credits, deposit)
    ensures Within(Wiped(window), Day(now) * MS_IN_DAY, now, credits + SettleCredits(window, terms, features, jar, now), deposit)
  {
    DayBounds(window.updatedAt);
    SettleCreditsAre(window, terms, features, jar, now);
    var forToday := DayCredits(Day(window.updatedAt) * MS_IN_DAY, DueApy(window.today, terms, features), jar.cache, jar.deposits);
    TodayWithin(window, terms, features, jar, now, credits, deposit);
    YesterdayWithin(window, terms, features, jar, now, credits + forToday, deposit);
    var forYesterday := DayCredits((Day(window.updatedAt) - 1) * MS_IN_DAY, DueApy(window.yesterday, terms, features), jar.cache, jar.deposits);
    assert credits + (forToday + forYesterday) == credits + forToday + forYesterday;
  }

  lemma TodayWithin(window: ScoreWindow, terms: Terms, features: Features, jar: Jar, now: Timestamp, credits: seq<Credit>, deposit: nat)
    requires terms.ScoreBased? && deposit < |jar.deposits|
    requires Day(window.updatedAt) + 2 <= Day(now)
    requires Within(window, Moment(jar.cache), now, credits, deposit)
    ensures Within(Wiped(window), Moment(jar.cache), now,
                   credits + DayCredits(Day(window.updatedAt) * MS_IN_DAY, DueApy(window.today, terms, features), jar.cache, jar.deposits), deposit)
  {
    var today := Day(window.updatedAt);
    DayOfStart(today);
    DueTermIsTheRest(today, jar.cache, jar.deposits[deposit]);
    DayCreditsOneDay(today * MS_IN_DAY, window.today, terms, features, jar, deposit, MS_IN_DAY);
    TodayCredited(window, Moment(jar.cache), now, credits,
                  DayCredits(today * MS_IN_DAY, DueApy(window.today, terms, features), jar.cache, jar.deposits), deposit);
  }

  lemma YesterdayWithin(window: ScoreWindow, terms: Terms, features: Features, jar: Jar, now: Timestamp, credits: seq<Credit>, deposit: nat)
    requires terms.ScoreBased? && deposit < |jar.deposits|
    requires 1 <= Day(window.updatedAt) && Day(window.updatedAt) + 2 <= Day(now)
    requires Within(Wiped(window), Moment(jar.cache), now, credits, deposit)
    ensures Within(Wiped(window), Day(now) * MS_IN_DAY, now,
                   credits + DayCredits((Day(window.updatedAt) - 1) * MS_IN_DAY, DueApy(window.yesterday, terms, features), jar.cache, jar.deposits),
                   deposit)
  {
    var before, rest := Day(window.updatedAt) - 1, Rest(window, Moment(jar.cache));
    DayOfStart(before);
    DueTermIsTheRest(before, jar.cache, jar.deposits[deposit]);
    DayCreditsOneDay(before * MS_IN_DAY, window.yesterday, terms, features, jar, deposit, rest);
    YesterdayCredited(Wiped(window), Moment(jar.cache), Day(now) * MS_IN_DAY, now, credits,
                      DayCredits(before * MS_IN_DAY, DueApy(window.yesterday, terms, features), jar.cache, jar.deposits), deposit, rest);
  }

  lemma SettledBelow(window: ScoreWindow, terms: Terms, features: Features, jar: Jar, now: Timestamp, book: ScoreBook, deposit: nat)
    requires terms.ScoreBased? && DaysKnown(UTC, window.updatedAt, now)
    requires MS_IN_DAY <= window.updatedAt && Moment(jar.cache) <= now && deposit < |jar.deposits|
    requires Shows(window, book, Moment(jar.cache), now)
    ensures Below(SettleCredits(window, terms, features, jar, now), book, terms.scoreCap, deposit, jar.deposits[deposit].principal)
  {
    SettleCreditsAre(window, terms, features, jar, now);
    DayBounds(window.updatedAt);
    var today, before, principal := Day(window.updatedAt), Day(window.updatedAt) - 1, jar.deposits[deposit].principal;
    DayOfStart(today);
    DayOfStart(before);
    DueTermIsTheRest(before, jar.cache, jar.deposits[deposit]);
    DayCreditsBelow(today * MS_IN_DAY, window.today, terms, features, jar, book, deposit);
    DayCreditsBelow(before * MS_IN_DAY, window.yesterday, terms, features, jar, book, deposit);
    BelowAppend(DayCredits(today * MS_IN_DAY, DueApy(window.today, terms, features), jar.cache, jar.deposits),
                DayCredits(before * MS_IN_DAY, DueApy(window.yesterday, terms, features), jar.cache, jar.deposits),
                book, terms.scoreCap, deposit, principal);
  }

  /** What is in force for one deposit at a moment. */
  ghost predicate Sound(window: ScoreWindow, jar: Jar, last: Timestamp, credits: seq<Credit>, book: ScoreBook, cap: Score, deposit: nat) {
    && MS_IN_DAY <= window.updatedAt
    && Moment(jar.cache) <= last
    && deposit < |jar.deposits|
    && Shows(window, book, Moment(jar.cache), last)
    && Within(window, Moment(jar.cache), last, credits, deposit)
    && Below(credits, book, cap, deposit, jar.deposits[deposit].principal)
  }

  lemma LaterIsSound(window: ScoreWindow, jar: Jar, last: Timestamp, later: Timestamp, credits: seq<Credit>, book: ScoreBook, cap: Score, deposit: nat)
    requires last <= later && Sound(window, jar, last, credits, book, cap, deposit)
    ensures Sound(window, jar, later, credits, book, cap, deposit)
  {
    DayIsMonotone(last, later);
  }

  lemma SettledShows(window: ScoreWindow, book: ScoreBook, moment: Timestamp, now: Timestamp)
    requires DaysKnown(UTC, window.updatedAt, now) && DaysOf(window, now) > 0
    requires Shows(window, book, moment, now)
    ensures Shows(MovedOn(window, DaysOf(window, now)), book, Day(now) * MS_IN_DAY, now)
  {
  }

  lemma SettledIsSound(window: ScoreWindow, terms: Terms, features: Features, jar: Jar, last: Timestamp, now: Timestamp, credits: seq<Credit>,
                       book: ScoreBook, deposit: nat)
    requires terms.ScoreBased? && DaysKnown(UTC, window.updatedAt, now) && last <= now
    requires Sound(window, jar, last, credits, book, terms.scoreCap, deposit)
    ensures Sound(MovedOn(window, DaysOf(window, now)), SettledBy(window, terms, features, jar, now), now,
                  credits + SettleCredits(window, terms, features, jar, now), book, terms.scoreCap, deposit)
  {
    LaterIsSound(window, jar, last, now, credits, book, terms.scoreCap, deposit);
    SettlementMovesCache(window, terms, features, jar, now);
    if DaysOf(window, now) == 0 {
      assert credits + [] == credits;
    } else {
      SettledShows(window, book, Moment(jar.cache), now);
      SettledBelow(window, terms, features, jar, now, book, deposit);
      BelowAppend(credits, SettleCredits(window, terms, features, jar, now), book, terms.scoreCap, deposit, jar.deposits[deposit].principal);
      if DaysOf(window, now) == 1 {
        OneDayWithin(window, terms, features, jar, now, credits, deposit);
      } else {
        ManyDaysWithin(window, terms, features, jar, now, credits, deposit);
      }
    }
  }

  /** After a settlement the window shows at most the totals of today and yesterday. */
  lemma SettledWindowIsCurrent(window: ScoreWindow, book: ScoreBook, moment: Timestamp, last: Timestamp, now: Timestamp)
    requires DaysKnown(UTC, window.updatedAt, now) && last <= now
    requires Shows(window, book, moment, last)
    ensures var moved := MovedOn(window, DaysOf(window, now));
            && moved.today.value <= Total(book, Day(now))
            && moved.yesterday.value <= Total(book, Day(now) - 1)
            && (DaysOf(window, now) > 0 ==> LastFinalized(moved, DaysOf(window, now)).value == 0)
            && (DaysOf(window, now) == 0 ==> LastFinalized(moved, 0).value <= Total(book, Day(now) - 1))
  {
    DayIsMonotone(last, now);
  }

  // --- A claim ----------------------------------------------------------------

  lemma ClaimWithin(window: ScoreWindow, rate: Rate, jar: Jar, now: Timestamp, credits: seq<Credit>, deposit: nat, days: nat)
    requires rate.terms.ScoreBased? && rate.timezone == UTC && UTC.InRange(StartOfTheDay(now))
    requires rate.apy == CappedApy(LastFinalized(window, days), rate.terms.scoreCap, false)
    requires deposit < |jar.deposits| && Moment(jar.cache) <= now
    requires days == Day(now) - Day(window.updatedAt)
    requires days > 0 ==> LastFinalized(window, days).value == 0
    requires Within(window, Moment(jar.cache), now, credits, deposit)
    ensures Within(window, now, now, credits + LiveCredits(rate, jar.cache, now, jar.deposits), deposit)
  {
    var added := LiveCredits(rate, jar.cache, now, jar.deposits);
    LiveCreditsOneDay(rate, jar, now, LastFinalized(window, days), deposit);
    if days == 0 {
      YesterdayCredited(window, Moment(jar.cache), now, now, credits, added, deposit,
                        Passed(Day(now) * MS_IN_DAY, now) - Passed(Day(now) * MS_IN_DAY, Moment(jar.cache)));
    } else {
      NothingCredited(window, Moment(jar.cache), now, now, credits, added, deposit);
    }
  }

  lemma ClaimShows(window: ScoreWindow, book: ScoreBook, moment: Timestamp, now: Timestamp)
    requires Shows(window, book, moment, now) && moment <= now
    ensures Shows(window, book, now, now)
  {
  }

  /** A claim right after a settlement: the running day is paid up to now, and only
      if the window was updated today. */
  lemma ClaimIsSound(window: ScoreWindow, rate: Rate, jar: Jar, now: Timestamp, credits: seq<Credit>, book: ScoreBook, deposit: nat,
                     days: nat, remainder: nat)
    requires rate.terms.ScoreBased? && rate.timezone == UTC && UTC.InRange(StartOfTheDay(now))
    requires rate.apy == CappedApy(LastFinalized(window, days), rate.terms.scoreCap, false)
    requires Sound(window, jar, now, credits, book, rate.terms.scoreCap, deposit)
    requires days == Day(now) - Day(window.updatedAt)
    requires days > 0 ==> LastFinalized(window, days).value == 0
    requires LastFinalized(window, days).value <= Total(book, Day(now) - 1)
    ensures Sound(window, Claimed(jar, remainder, now), now, credits + LiveCredits(rate, jar.cache, now, jar.deposits), book,
                  rate.terms.scoreCap, deposit)
  {
    ClaimWithin(window, rate, jar, now, credits, deposit, days);
    LiveCreditsBelow(rate, jar, now, LastFinalized(window, days), book, deposit);
    BelowAppend(credits, LiveCredits(rate, jar.cache, now, jar.deposits), book, rate.terms.scoreCap, deposit, jar.deposits[deposit].principal);
    ClaimShows(window, book, Moment(jar.cache), now);
  }

  // --- A recording ------------------------------------------------------------

  lemma {:induction false} BookOnlyGrows(book: ScoreBook, increments: seq<(Score, Timestamp)>, tz: Timezone, now: Timestamp, day: int)
    requires AllPast(increments, tz, now)
    ensures Total(book, day) <= Total(Booked(book, increments, tz, now), day)
  {
    if increments != [] {
      BookOnlyGrows(book, increments[..|increments| - 1], tz, now, day);
    }
  }

  predicate IsCurrent(window: ScoreWindow, book: ScoreBook, day: int) {
    window.today.value <= Total(book, day) && window.yesterday.value <= Total(book, day - 1)
  }

  lemma IncrementIsCurrent(window: ScoreWindow, book: ScoreBook, day: int, daysAgo: nat, increment: Score)
    requires daysAgo < DAYS_STORED && IsCurrent(window, book, day)
    ensures IsCurrent(WithIncrement(window, daysAgo, increment), WithTotal(book, day - daysAgo, increment), day)
  {
  }

  lemma {:induction false} RecordedIsCurrent(window: ScoreWindow, increments: seq<(Score, Timestamp)>, now: Timestamp, book: ScoreBook)
    requires AllPast(increments, UTC, now)
    requires IsCurrent(window, book, Day(now))
    ensures IsCurrent(WithIncrements(window, Recent(increments, UTC, now)), Booked(book, increments, UTC, now), Day(now))
  {
    if increments != [] {
      var n := |increments| - 1;
      RecordedIsCurrent(window, increments[..n], now, book);
      LastIsCurrent(window, increments, now, book);
    }
  }

  lemma LastIsCurrent(window: ScoreWindow, increments: seq<(Score, Timestamp)>, now: Timestamp, book: ScoreBook)
    requires AllPast(increments, UTC, now) && increments != []
    requires var rest := increments[..|increments| - 1];
             IsCurrent(WithIncrements(window, Recent(rest, UTC, now)), Booked(book, rest, UTC, now), Day(now))
    ensures IsCurrent(WithIncrements(window, Recent(increments, UTC, now)), Booked(book, increments, UTC, now), Day(now))
  {
    var n := |increments| - 1;
    var recent, daysAgo := Recent(increments[..n], UTC, now), DaysAgo(UTC, increments[n].1, now);
    if daysAgo < DAYS_STORED {
      WithOneMore(window, recent, increments[n].0, daysAgo);
      IncrementIsCurrent(WithIncrements(window, recent), Booked(book, increments[..n], UTC, now), Day(now), daysAgo, increments[n].0);
    } else {
      assert recent + [] == recent;
    }
  }

  lemma WithOneMore(window: ScoreWindow, recent: seq<(Score, nat)>, increment: Score, daysAgo: nat)
    requires OffsetsInBounds(recent) && daysAgo < DAYS_STORED
    ensures OffsetsInBounds(recent + [(increment, daysAgo)])
    ensures WithIncrements(window, recent + [(increment, daysAgo)]) == WithIncrement(WithIncrements(window, recent), daysAgo, increment)
  {
    var all := recent + [(increment, daysAgo)];
    assert all[..|all| - 1] == recent;
  }

  lemma RecordIsWithin(window: ScoreWindow, window': ScoreWindow, moment: Timestamp, now: Timestamp, credits: seq<Credit>, deposit: nat)
    requires Within(window, moment, now, credits, deposit)
    requires Day(window.updatedAt) <= Day(now) && window'.updatedAt == now
    ensures Within(window', moment, now, credits, deposit)
  {
  }

  lemma HigherTotalsBelow(credits: seq<Credit>, book: ScoreBook, book': ScoreBook, cap: Score, deposit: nat, principal: TokenAmount)
    requires Below(credits, book, cap, deposit, principal)
    requires forall day: int :: Total(book, day) <= Total(book', day)
    ensures Below(credits, book', cap, deposit, principal)
  {
    forall day: int ensures UnitsFor(credits, deposit, day) <= TermFor(credits, deposit, day) * DayRate(principal, cap, book', day) {
      assert Total(book, day) <= Total(book', day);
      YearlyGrowsWithScore(principal, Min(cap, Total(book, day)), Min(cap, Total(book', day)));
      TimesAtMost(TermFor(credits, deposit, day), DayRate(principal, cap, book, day), DayRate(principal, cap, book', day));
    }
  }

  lemma CurrentShows(window: ScoreWindow, book: ScoreBook, moment: Timestamp, now: Timestamp)
    requires window.updatedAt == now && IsCurrent(window, book, Day(now))
    ensures Shows(window, book, moment, now)
  {
  }

  lemma RecordIsSound(window: ScoreWindow, jar: Jar, now: Timestamp, increments: seq<(Score, Timestamp)>, credits: seq<Credit>,
                      book: ScoreBook, cap: Score, deposit: nat)
    requires AllPast(increments, UTC, now) && MS_IN_DAY <= now
    requires Sound(window, jar, now, credits, book, cap, deposit)
    requires Day(window.updatedAt) <= Day(now)
    requires IsCurrent(window, book, Day(now))
    ensures Sound(Recorded(window, increments, UTC, now), jar, now, credits, Booked(book, increments, UTC, now), cap, deposit)
  {
    var window', book' := Recorded(window, increments, UTC, now), Booked(book, increments, UTC, now);
    forall day: int ensures Total(book, day) <= Total(book', day) {
      BookOnlyGrows(book, increments, UTC, now, day);
    }
    RecordedIsCurrent(window, increments, now, book);
    CurrentShows(window', book', Moment(jar.cache), now);
    RecordIsWithin(window, window', Moment(jar.cache), now, credits, deposit);
    HigherTotalsBelow(credits, book, book', cap, deposit, jar.deposits[deposit].principal);
  }

  // --- Nothing is left out ----------------------------------------------------

  /** A claim on the day of the update credits a running deposit with exactly the
      part of the day between the cache and now, for yesterday's score. */
  lemma ClaimPaysTheRunningDay(rate: Rate, jar: Jar, now: Timestamp, deposit: nat)
    requires rate.terms.ScoreBased? && rate.timezone == UTC && UTC.InRange(StartOfTheDay(now))
    requires deposit < |jar.deposits| && Moment(jar.cache) <= now
    requires jar.deposits[deposit].createdAt <= Day(now) * MS_IN_DAY && now <= jar.deposits[deposit].createdAt + rate.terms.lockupTerm
    requires YearlyInterest(jar.deposits[deposit].principal, rate.apy) > 0
    ensures TermFor(LiveCredits(rate, jar.cache, now, jar.deposits), deposit, Day(now) - 1)
         == Passed(Day(now) * MS_IN_DAY, now) - Passed(Day(now) * MS_IN_DAY, Moment(jar.cache))
  {
    DayBounds(now);
    LiveCreditsFor(rate, jar.cache, now, jar.deposits, deposit, Day(now) - 1);
  }
}
