/** When the score of a day is paid. The score recorded for a day is paid over the
    next day. A settlement moves the window but not its update time, so one call that
    settles on the next day without recording leaves the score behind for good. */
module ScoreDays {
  import opened Numbers
  import opened Types
  import opened Interest
  import opened Jars
  import opened Settlement
  import opened Scores
  import opened Accounts
  import opened Promises
  import opened Claims
  import opened Credits
  import opened OverCredit
  import opened ScoreRuns

  // --- One settlement, one running day ----------------------------------------

  /** A deposit that is there when the score starts to be paid, does not mature before
      that is over, and earns at this score. */
  predicate IsPayable(terms: Terms, deposit: Deposit, score: Score, day: int)
    requires terms.ScoreBased?
  {
    && deposit.createdAt <= (day + 1) * MS_IN_DAY
    && (day + 2) * MS_IN_DAY <= deposit.createdAt + terms.lockupTerm
    && YearlyInterest(deposit.principal, ScoreToApy(Min(score, terms.scoreCap))) > 0
  }

  /** What a settlement credits for a day: the rest of the next day for each record
      that is dated to it. */
  lemma SettledTerm(window: ScoreWindow, terms: Terms, features: Features, jar: Jar, now: Timestamp, deposit: nat, day: int)
    requires terms.ScoreBased? && DaysKnown(UTC, window.updatedAt, now) && MS_IN_DAY <= window.updatedAt
    requires Moment(jar.cache) <= now && deposit < |jar.deposits|
    ensures var today, term := Day(window.updatedAt), TermFor(SettleCredits(window, terms, features, jar, now), deposit, day);
            && (day != today && day != today - 1 ==> term == 0)
            && (day == today && DaysOf(window, now) <= 1 ==> term == 0)
            && (day == today && window.today.value == 0 ==> term == 0)
            && (day == today - 1 && (window.yesterday.value == 0 || DaysOf(window, now) == 0) ==> term == 0)
            && term <= MS_IN_DAY - Passed((day + 1) * MS_IN_DAY, Moment(jar.cache))
            && (day == today && DaysOf(window, now) > 1 && IsPayable(terms, jar.deposits[deposit], window.today.value, day) ==>
                  term == MS_IN_DAY - Passed((day + 1) * MS_IN_DAY, Moment(jar.cache)))
            && (day == today - 1 && DaysOf(window, now) > 0 && IsPayable(terms, jar.deposits[deposit], window.yesterday.value, day) ==>
                  term == MS_IN_DAY - Passed((day + 1) * MS_IN_DAY, Moment(jar.cache)))
  {
    var today, before: int := Day(window.updatedAt), Day(window.updatedAt) - 1;
    SettleCreditsAre(window, terms, features, jar, now);
    DayBounds(window.updatedAt);
    DayTerm(today, window.today, terms, features, jar, deposit, day);
    DayTerm(before, window.yesterday, terms, features, jar, deposit, day);
    CreditsAppend(DayCredits(today * MS_IN_DAY, DueApy(window.today, terms, features), jar.cache, jar.deposits),
                  DayCredits(before * MS_IN_DAY, DueApy(window.yesterday, terms, features), jar.cache, jar.deposits), deposit, day);
  }

  lemma DayTerm(dated: nat, record: DailyScore, terms: Terms, features: Features, jar: Jar, deposit: nat, day: int)
    requires terms.ScoreBased? && deposit < |jar.deposits|
    ensures var term := TermFor(DayCredits(dated * MS_IN_DAY, DueApy(record, terms, features), jar.cache, jar.deposits), deposit, day);
            && (day != dated || record.value == 0 ==> term == 0)
            && (day == dated ==> term <= MS_IN_DAY - Passed((day + 1) * MS_IN_DAY, Moment(jar.cache)))
            && (day == dated && IsPayable(terms, jar.deposits[deposit], record.value, day) ==>
                  term == MS_IN_DAY - Passed((day + 1) * MS_IN_DAY, Moment(jar.cache)))
  {
    DayOfStart(dated);
    DayCreditsFor(dated * MS_IN_DAY, DueApy(record, terms, features), jar.cache, jar.deposits, deposit, day);
    DueTermIsTheRest(dated, jar.cache, jar.deposits[deposit]);
    ZeroScoreEarnsNothing(jar.deposits[deposit].principal);
  }

  /** What the running day credits: the time since the cache, for yesterday's score. */
  lemma LiveTerm(rate: Rate, window: ScoreWindow, jar: Jar, now: Timestamp, deposit: nat, day: int)
    requires rate.terms.ScoreBased? && rate.timezone == UTC && UTC.InRange(StartOfTheDay(now))
    requires DaysKnown(UTC, window.updatedAt, now)
    requires rate.apy == CappedApy(LastFinalized(window, DaysOf(window, now)), rate.terms.scoreCap, false)
    requires deposit < |jar.deposits| && Moment(jar.cache) <= now
    ensures var score, term := LastFinalized(window, DaysOf(window, now)).value, TermFor(LiveCredits(rate, jar.cache, now, jar.deposits), deposit, day);
            && (day != Day(now) - 1 || score == 0 ==> term == 0)
            && (day == Day(now) - 1 && IsPayable(rate.terms, jar.deposits[deposit], score, day) ==>
                  term == Passed((day + 1) * MS_IN_DAY, now) - Passed((day + 1) * MS_IN_DAY, Moment(jar.cache)))
  {
    var record := LastFinalized(window, DaysOf(window, now));
    DayBounds(now);
    LiveCreditsOneDay(rate, jar, now, record, deposit);
    if day == Day(now) - 1 && IsPayable(rate.terms, jar.deposits[deposit], record.value, day) {
      ClaimPaysTheRunningDay(rate, jar, now, deposit);
    }
  }

  // --- The window afterwards --------------------------------------------------

  /** Nothing more can be credited for the day. */
  predicate IsOver(window: ScoreWindow, moment: Timestamp, last: Timestamp, day: int) {
    var updated := Day(window.updatedAt);
    && MS_IN_DAY <= window.updatedAt && moment <= last && day < Day(last) && updated <= Day(last)
    && (|| (updated == day && window.today.value == 0)
        || (updated == day + 1 && window.yesterday.value == 0)
        || (updated == day + 1 && window.today.value == 0 && (day + 2) * MS_IN_DAY <= moment)
        || updated >= day + 2)
  }

  /** The day after, with something recorded on it: the score of the day before is being
      paid. */
  predicate IsRunning(window: ScoreWindow, moment: Timestamp, last: Timestamp, day: int, score: Score) {
    && MS_IN_DAY <= window.updatedAt && moment <= last
    && Day(window.updatedAt) == day + 1 == Day(last) && window.yesterday.value == score
  }

  /** The day itself, after its last recording. */
  predicate IsRecorded(window: ScoreWindow, moment: Timestamp, last: Timestamp, day: int, score: Score) {
    && MS_IN_DAY <= window.updatedAt && moment <= last
    && Day(window.updatedAt) == day == Day(last) && window.today.value == score
  }

  lemma SettlingWhenOver(window: ScoreWindow, terms: Terms, features: Features, jar: Jar, last: Timestamp, now: Timestamp, deposit: nat, day: int)
    requires terms.ScoreBased? && DaysKnown(UTC, window.updatedAt, now) && last <= now && deposit < |jar.deposits|
    requires IsOver(window, Moment(jar.cache), last, day)
    ensures TermFor(SettleCredits(window, terms, features, jar, now), deposit, day) == 0
    ensures var moved := MovedOn(window, DaysOf(window, now));
            && IsOver(moved, Moment(SettledBy(window, terms, features, jar, now).cache), now, day)
            && (Day(now) == day + 1 ==> moved.yesterday.value == 0)
  {
    DayIsMonotone(last, now);
    DayBounds(now);
    DayBounds(last);
    SettlementMovesCache(window, terms, features, jar, now);
    SettledTerm(window, terms, features, jar, now, deposit, day);
  }

  lemma SettlingWhenRecorded(window: ScoreWindow, terms: Terms, features: Features, jar: Jar, last: Timestamp, now: Timestamp, deposit: nat,
                             day: int, score: Score)
    requires terms.ScoreBased? && DaysKnown(UTC, window.updatedAt, now) && last <= now && deposit < |jar.deposits|
    requires IsRecorded(window, Moment(jar.cache), last, day, score) && day < Day(now)
    ensures var moved, moment := MovedOn(window, DaysOf(window, now)), Moment(SettledBy(window, terms, features, jar, now).cache);
            && IsOver(moved, moment, now, day)
            && (Day(now) == day + 1 ==> moved.yesterday.value == score && moment == (day + 1) * MS_IN_DAY)
    ensures var term := TermFor(SettleCredits(window, terms, features, jar, now), deposit, day);
            && (Day(now) == day + 1 ==> term == 0)
            && (Day(now) >= day + 2 && IsPayable(terms, jar.deposits[deposit], score, day) ==> term == MS_IN_DAY)
  {
    DayBounds(last);
    DayBounds(now);
    SettlementMovesCache(window, terms, features, jar, now);
    SettledTerm(window, terms, features, jar, now, deposit, day);
  }

  lemma SettlingWhenRunning(window: ScoreWindow, terms: Terms, features: Features, jar: Jar, last: Timestamp, now: Timestamp, deposit: nat,
                            day: int, score: Score)
    requires terms.ScoreBased? && DaysKnown(UTC, window.updatedAt, now) && last <= now && deposit < |jar.deposits|
    requires IsRunning(window, Moment(jar.cache), last, day, score)
    ensures var moved, moment := MovedOn(window, DaysOf(window, now)), Moment(SettledBy(window, terms, features, jar, now).cache);
            var term := TermFor(SettleCredits(window, terms, features, jar, now), deposit, day);
            if Day(now) == day + 1 then IsRunning(moved, moment, now, day, score) && moment == Moment(jar.cache) && term == 0
            else
              && IsOver(moved, moment, now, day)
              && (IsPayable(terms, jar.deposits[deposit], score, day) ==> term == MS_IN_DAY - Passed((day + 1) * MS_IN_DAY, Moment(jar.cache)))
  {
    DayIsMonotone(last, now);
    DayBounds(now);
    SettlementMovesCache(window, terms, features, jar, now);
    SettledTerm(window, terms, features, jar, now, deposit, day);
  }

  // --- The call itself --------------------------------------------------------

  /** The call gives the window a new update time: it records, or its booster is taken. */
  predicate Renews(window: ScoreWindow, step: ScoreStep) {
    WindowAfterCall(window, step).updatedAt != window.updatedAt || step.RecordStep?
  }

  /** No late increment for the day. */
  predicate AddsNothingTo(step: ScoreStep, day: int) {
    step.RecordStep? ==> forall i :: 0 <= i < |step.increments| ==> Day(step.increments[i].1) != day
  }

  lemma {:induction false} RecordsElsewhere(window: ScoreWindow, increments: seq<(Score, Timestamp)>, now: Timestamp)
    requires AllPast(increments, UTC, now)
    requires forall i :: 0 <= i < |increments| ==> Day(increments[i].1) != Day(now) - 1
    ensures WithIncrements(window, Recent(increments, UTC, now)).yesterday == window.yesterday
  {
    if increments != [] {
      var n := |increments| - 1;
      var recent, daysAgo := Recent(increments[..n], UTC, now), DaysAgo(UTC, increments[n].1, now);
      RecordsElsewhere(window, increments[..n], now);
      if daysAgo < DAYS_STORED {
        WithOneMore(window, recent, increments[n].0, daysAgo);
      } else {
        assert recent + [] == recent;
      }
    }
  }

  /** On the next day the call leaves the score of the day before as it is. */
  lemma CallKeepsYesterday(window: ScoreWindow, step: ScoreStep, day: int)
    requires step.RecordStep? ==> AllPast(step.increments, UTC, step.at)
    requires AddsNothingTo(step, day) && Day(step.at) == day + 1
    ensures WindowAfterCall(window, step).yesterday.value == window.yesterday.value
  {
    if step.RecordStep? {
      RecordsElsewhere(window, step.increments, step.at);
    }
  }

  lemma CallWhenOver(window: ScoreWindow, step: ScoreStep, moment: Timestamp, day: int)
    requires step.RecordStep? ==> AllPast(step.increments, UTC, step.at)
    requires AddsNothingTo(step, day) && MS_IN_DAY <= step.at
    requires IsOver(window, moment, step.at, day) && (Day(step.at) == day + 1 && Renews(window, step) ==> window.yesterday.value == 0)
    ensures IsOver(WindowAfterCall(window, step), moment, step.at, day)
  {
    UpdatedByNow(window, step);
    if Day(step.at) == day + 1 {
      CallKeepsYesterday(window, step, day);
    }
  }

  lemma CallWhenRunning(window: ScoreWindow, step: ScoreStep, moment: Timestamp, day: int, score: Score)
    requires step.RecordStep? ==> AllPast(step.increments, UTC, step.at)
    requires AddsNothingTo(step, day) && MS_IN_DAY <= step.at && Day(step.at) == day + 1 && moment <= step.at
    requires window.yesterday.value == score && MS_IN_DAY <= window.updatedAt && (Day(window.updatedAt) == day + 1 || Renews(window, step))
    ensures IsRunning(WindowAfterCall(window, step), moment, step.at, day, score)
  {
    UpdatedByNow(window, step);
    CallKeepsYesterday(window, step, day);
  }

  // --- One step ---------------------------------------------------------------

  predicate TraceIsOver(trace: Trace, p: ProductId, day: int)
    requires p in trace.account.jars
  {
    IsOver(trace.account.score, Moment(trace.account.jars[p].cache), trace.last, day)
  }

  predicate TraceIsRunning(trace: Trace, p: ProductId, day: int, score: Score)
    requires p in trace.account.jars
  {
    IsRunning(trace.account.score, Moment(trace.account.jars[p].cache), trace.last, day, score)
  }

  predicate TraceIsRecorded(trace: Trace, p: ProductId, day: int, score: Score)
    requires p in trace.account.jars
  {
    IsRecorded(trace.account.score, Moment(trace.account.jars[p].cache), trace.last, day, score)
  }

  /** What a step credits the deposit for the day. */
  ghost function StepTerm(a: AccountId, products: map<ProductId, Product>, p: ProductId, account: Account, step: ScoreStep, after: Account,
                          deposit: nat, day: int): nat
    requires IsScoreJar(account, products, p) && IsStep(a, products, p, account, step, after)
  {
    TermFor(CreditsOfSettling(account, products, p, step.at), deposit, day) + TermFor(AddedBy(a, products, p, account, step), deposit, day)
  }

  /** The live entries of a step, if there are any, after its settlement. */
  lemma LiveOfStep(a: AccountId, products: map<ProductId, Product>, p: ProductId, account: Account, step: ScoreStep, after: Account,
                   deposit: nat, day: int)
    requires IsScoreJar(account, products, p) && IsStep(a, products, p, account, step, after)
    requires deposit < |account.jars[p].deposits| && Moment(account.jars[p].cache) <= step.at
    ensures DaysKnown(UTC, account.score.updatedAt, step.at)
    ensures var moved := MovedOn(account.score, DaysOf(account.score, step.at));
            var moment := Moment(SettledBy(account.score, products[p].terms, account.features, account.jars[p], step.at).cache);
            var score, term := LastFinalized(moved, DaysOf(account.score, step.at)).value, TermFor(AddedBy(a, products, p, account, step), deposit, day);
            && after.score == WindowAfterCall(moved, step)
            && if !CountsUpToNow(a, products, p, account, step) then Moment(after.jars[p].cache) == moment && term == 0
               else
                 && !Renews(moved, step)
                 && Moment(after.jars[p].cache) == step.at
                 && (day != Day(step.at) - 1 || score == 0 ==> term == 0)
                 && (day == Day(step.at) - 1 && IsPayable(products[p].terms, account.jars[p].deposits[deposit], score, day) ==>
                       term == Passed((day + 1) * MS_IN_DAY, step.at) - Passed((day + 1) * MS_IN_DAY, moment))
  {
    SettlingTheJar(account, products, p, step.at);
    SettlementMovesCache(account.score, products[p].terms, account.features, account.jars[p], step.at);
    var settled := Settle(account, products, step.at).value;
    if CountsUpToNow(a, products, p, account, step) {
      LiveTerm(RateFor(products[p].terms, settled, step.at), settled.score, settled.jars[p], step.at, deposit, day);
    }
  }

  lemma PastFirstDay(window: ScoreWindow, last: Timestamp, now: Timestamp)
    requires MS_IN_DAY <= window.updatedAt && Day(window.updatedAt) <= Day(last) && last <= now
    ensures MS_IN_DAY <= now
  {
    DayBounds(window.updatedAt);
    DayBounds(last);
  }

  lemma StepWhenOver(a: AccountId, products: map<ProductId, Product>, p: ProductId, trace: Trace, step: ScoreStep, after: Account,
                     deposit: nat, day: int)
    requires IsScoreJar(trace.account, products, p) && IsStep(a, products, p, trace.account, step, after)
    requires deposit < |trace.account.jars[p].deposits| && trace.last <= step.at
    requires TraceIsOver(trace, p, day) && AddsNothingTo(step, day)
    ensures StepTerm(a, products, p, trace.account, step, after, deposit, day) == 0
    ensures IsOver(after.score, Moment(after.jars[p].cache), step.at, day)
  {
    var account, window := trace.account, trace.account.score;
    PastFirstDay(window, trace.last, step.at);
    LiveOfStep(a, products, p, account, step, after, deposit, day);
    SettlingWhenOver(window, products[p].terms, account.features, account.jars[p], trace.last, step.at, deposit, day);
    var moved := MovedOn(window, DaysOf(window, step.at));
    CallWhenOver(moved, step, Moment(after.jars[p].cache), day);
  }

  /** A step while the score is being paid, up to what its call does to the window. */
  lemma TermWhenRunning(a: AccountId, products: map<ProductId, Product>, p: ProductId, trace: Trace, step: ScoreStep, after: Account,
                        deposit: nat, day: int, score: Score)
    requires IsScoreJar(trace.account, products, p) && IsStep(a, products, p, trace.account, step, after)
    requires deposit < |trace.account.jars[p].deposits| && trace.last <= step.at
    requires TraceIsRunning(trace, p, day, score)
    requires IsPayable(products[p].terms, trace.account.jars[p].deposits[deposit], score, day)
    ensures DaysKnown(UTC, trace.account.score.updatedAt, step.at) && MS_IN_DAY <= step.at
    ensures var term, moment := StepTerm(a, products, p, trace.account, step, after, deposit, day), Moment(after.jars[p].cache);
            var passed := Passed((day + 1) * MS_IN_DAY, Moment(trace.account.jars[p].cache));
            var moved := MovedOn(trace.account.score, DaysOf(trace.account.score, step.at));
            && after.score == WindowAfterCall(moved, step)
            && if Day(step.at) == day + 1 then IsRunning(moved, moment, step.at, day, score) && passed + term == Passed((day + 1) * MS_IN_DAY, moment)
               else IsOver(moved, moment, step.at, day) && passed + term == MS_IN_DAY
  {
    var account, window := trace.account, trace.account.score;
    PastFirstDay(window, trace.last, step.at);
    DayIsMonotone(trace.last, step.at);
    LiveOfStep(a, products, p, account, step, after, deposit, day);
    SettlingWhenRunning(window, products[p].terms, account.features, account.jars[p], trace.last, step.at, deposit, day, score);
  }

  lemma StepWhenRunning(a: AccountId, products: map<ProductId, Product>, p: ProductId, trace: Trace, step: ScoreStep, after: Account,
                        deposit: nat, day: int, score: Score)
    requires IsScoreJar(trace.account, products, p) && IsStep(a, products, p, trace.account, step, after)
    requires deposit < |trace.account.jars[p].deposits| && trace.last <= step.at
    requires TraceIsRunning(trace, p, day, score) && AddsNothingTo(step, day)
    requires IsPayable(products[p].terms, trace.account.jars[p].deposits[deposit], score, day)
    ensures var term := StepTerm(a, products, p, trace.account, step, after, deposit, day);
            var passed := Passed((day + 1) * MS_IN_DAY, Moment(trace.account.jars[p].cache));
            if Day(step.at) == day + 1 then
              && IsRunning(after.score, Moment(after.jars[p].cache), step.at, day, score)
              && passed + term == Passed((day + 1) * MS_IN_DAY, Moment(after.jars[p].cache))
            else IsOver(after.score, Moment(after.jars[p].cache), step.at, day) && passed + term == MS_IN_DAY
  {
    TermWhenRunning(a, products, p, trace, step, after, deposit, day, score);
    var moved := MovedOn(trace.account.score, DaysOf(trace.account.score, step.at));
    if Day(step.at) == day + 1 {
      CallWhenRunning(moved, step, Moment(after.jars[p].cache), day, score);
    } else {
      CallWhenOver(moved, step, Moment(after.jars[p].cache), day);
    }
  }

  /** The first settlement after the day, and what the step then counts for it. */
  lemma TermWhenRecorded(a: AccountId, products: map<ProductId, Product>, p: ProductId, trace: Trace, step: ScoreStep, after: Account,
                         deposit: nat, day: int, score: Score)
    requires IsScoreJar(trace.account, products, p) && IsStep(a, products, p, trace.account, step, after)
    requires deposit < |trace.account.jars[p].deposits| && trace.last <= step.at && day < Day(step.at)
    requires TraceIsRecorded(trace, p, day, score)
    requires IsPayable(products[p].terms, trace.account.jars[p].deposits[deposit], score, day)
    ensures DaysKnown(UTC, trace.account.score.updatedAt, step.at) && MS_IN_DAY <= step.at
    ensures var term, moment := StepTerm(a, products, p, trace.account, step, after, deposit, day), Moment(after.jars[p].cache);
            var moved := MovedOn(trace.account.score, DaysOf(trace.account.score, step.at));
            && after.score == WindowAfterCall(moved, step)
            && IsOver(moved, moment, step.at, day)
            && if Day(step.at) > day + 1 then term == MS_IN_DAY
               else
                 && moved.yesterday.value == score
                 && term == if Renews(moved, step) then Passed((day + 1) * MS_IN_DAY, moment) else 0
  {
    var account, window := trace.account, trace.account.score;
    PastFirstDay(window, trace.last, step.at);
    LiveOfStep(a, products, p, account, step, after, deposit, day);
    SettlingWhenRecorded(window, products[p].terms, account.features, account.jars[p], trace.last, step.at, deposit, day, score);
  }

  /** The first step after the day: on the next day it must renew the window. */
  lemma StepWhenRecorded(a: AccountId, products: map<ProductId, Product>, p: ProductId, trace: Trace, step: ScoreStep, after: Account,
                         deposit: nat, day: int, score: Score)
    requires IsScoreJar(trace.account, products, p) && IsStep(a, products, p, trace.account, step, after)
    requires deposit < |trace.account.jars[p].deposits| && trace.last <= step.at && day < Day(step.at)
    requires TraceIsRecorded(trace, p, day, score) && AddsNothingTo(step, day)
    requires IsPayable(products[p].terms, trace.account.jars[p].deposits[deposit], score, day)
    ensures DaysKnown(UTC, trace.account.score.updatedAt, step.at)
    ensures var term := StepTerm(a, products, p, trace.account, step, after, deposit, day);
            var moved := MovedOn(trace.account.score, DaysOf(trace.account.score, step.at));
            if Day(step.at) > day + 1 then IsOver(after.score, Moment(after.jars[p].cache), step.at, day) && term == MS_IN_DAY
            else if Renews(moved, step) then
              && IsRunning(after.score, Moment(after.jars[p].cache), step.at, day, score)
              && term == Passed((day + 1) * MS_IN_DAY, Moment(after.jars[p].cache))
            else IsOver(after.score, Moment(after.jars[p].cache), step.at, day) && term == 0
  {
    TermWhenRecorded(a, products, p, trace, step, after, deposit, day, score);
    var moved := MovedOn(trace.account.score, DaysOf(trace.account.score, step.at));
    if Day(step.at) == day + 1 && Renews(moved, step) {
      CallWhenRunning(moved, step, Moment(after.jars[p].cache), day, score);
    } else {
      CallWhenOver(moved, step, Moment(after.jars[p].cache), day);
    }
  }

  // --- Runs -------------------------------------------------------------------

  lemma StepCredits(a: AccountId, products: map<ProductId, Product>, p: ProductId, trace: Trace, step: ScoreStep, deposit: nat, day: int)
    requires IsScoreJar(trace.account, products, p) && IsAccepted(a, products, p, trace, step)
    ensures IsStep(a, products, p, trace.account, step, Attempt(a, products, p, trace.account, step).value)
    ensures var after := AfterScoreStep(a, products, p, trace, step);
            && after.account == Attempt(a, products, p, trace.account, step).value && after.last == step.at
            && after.account.jars[p].deposits == trace.account.jars[p].deposits
            && TermFor(after.credits, deposit, day)
               == TermFor(trace.credits, deposit, day) + StepTerm(a, products, p, trace.account, step, after.account, deposit, day)
  {
    AttemptIsStep(a, products, p, trace.account, step);
    var settling, added := CreditsOfSettling(trace.account, products, p, step.at), AddedBy(a, products, p, trace.account, step);
    CreditsAppend(trace.credits, settling, deposit, day);
    CreditsAppend(trace.credits + settling, added, deposit, day);
  }

  predicate AddNothingTo(steps: seq<ScoreStep>, day: int) {
    forall i :: 0 <= i < |steps| ==> AddsNothingTo(steps[i], day)
  }

  /** Once it is over it stays over. */
  lemma {:induction false} OverIsFinal(a: AccountId, products: map<ProductId, Product>, p: ProductId, trace: Trace, steps: seq<ScoreStep>,
                                       deposit: nat, day: int)
    requires IsScoreJar(trace.account, products, p) && deposit < |trace.account.jars[p].deposits|
    requires TraceIsOver(trace, p, day) && AddNothingTo(steps, day)
    ensures var end := AfterScoreSteps(a, products, p, trace, steps);
            && TraceIsOver(end, p, day)
            && end.account.jars[p].deposits == trace.account.jars[p].deposits
            && TermFor(end.credits, deposit, day) == TermFor(trace.credits, deposit, day)
  {
    if steps != [] {
      var n := |steps| - 1;
      OverIsFinal(a, products, p, trace, steps[..n], deposit, day);
      var before := AfterScoreSteps(a, products, p, trace, steps[..n]);
      if IsAccepted(a, products, p, before, steps[n]) {
        StepCredits(a, products, p, before, steps[n], deposit, day);
        StepWhenOver(a, products, p, before, steps[n], Attempt(a, products, p, before.account, steps[n]).value, deposit, day);
      }
    }
  }

  /** While the score is being paid, exactly the time up to the cache has been credited;
      in the end, all of the day. */
  predicate IsOnTheWay(trace: Trace, p: ProductId, day: int, score: Score, credited: int)
    requires p in trace.account.jars
  {
    || (TraceIsRunning(trace, p, day, score) && credited == Passed((day + 1) * MS_IN_DAY, Moment(trace.account.jars[p].cache)))
    || (TraceIsOver(trace, p, day) && credited == MS_IN_DAY)
  }

  lemma StepOnTheWay(a: AccountId, products: map<ProductId, Product>, p: ProductId, trace: Trace, step: ScoreStep, deposit: nat, day: int,
                     score: Score, credited: int)
    requires IsScoreJar(trace.account, products, p) && deposit < |trace.account.jars[p].deposits|
    requires IsPayable(products[p].terms, trace.account.jars[p].deposits[deposit], score, day)
    requires IsOnTheWay(trace, p, day, score, credited) && AddsNothingTo(step, day)
    ensures var after := AfterScoreStep(a, products, p, trace, step);
            && IsOnTheWay(after, p, day, score, credited + TermFor(after.credits, deposit, day) - TermFor(trace.credits, deposit, day))
            && after.account.jars[p].deposits == trace.account.jars[p].deposits
  {
    if IsAccepted(a, products, p, trace, step) {
      var after := Attempt(a, products, p, trace.account, step).value;
      StepCredits(a, products, p, trace, step, deposit, day);
      if TraceIsRunning(trace, p, day, score) && credited == Passed((day + 1) * MS_IN_DAY, Moment(trace.account.jars[p].cache)) {
        StepWhenRunning(a, products, p, trace, step, after, deposit, day, score);
      } else {
        StepWhenOver(a, products, p, trace, step, after, deposit, day);
      }
    }
  }

  lemma {:induction false} StepsOnTheWay(a: AccountId, products: map<ProductId, Product>, p: ProductId, trace: Trace, steps: seq<ScoreStep>,
                                         deposit: nat, day: int, score: Score, credited: int)
    requires IsScoreJar(trace.account, products, p) && deposit < |trace.account.jars[p].deposits|
    requires IsPayable(products[p].terms, trace.account.jars[p].deposits[deposit], score, day)
    requires IsOnTheWay(trace, p, day, score, credited) && AddNothingTo(steps, day)
    ensures var end := AfterScoreSteps(a, products, p, trace, steps);
            && IsOnTheWay(end, p, day, score, credited + TermFor(end.credits, deposit, day) - TermFor(trace.credits, deposit, day))
            && end.account.jars[p].deposits == trace.account.jars[p].deposits
  {
    if steps != [] {
      var n := |steps| - 1;
      StepsOnTheWay(a, products, p, trace, steps[..n], deposit, day, score, credited);
      var before := AfterScoreSteps(a, products, p, trace, steps[..n]);
      StepOnTheWay(a, products, p, before, steps[n], deposit, day, score,
                   credited + TermFor(before.credits, deposit, day) - TermFor(trace.credits, deposit, day));
    }
  }

  /** The next day's first call settles and does not renew the window. */
  predicate Forfeits(window: ScoreWindow, step: ScoreStep, day: int)
    requires DaysKnown(UTC, window.updatedAt, step.at)
  {
    Day(step.at) == day + 1 && !Renews(MovedOn(window, DaysOf(window, step.at)), step)
  }

  /** After the last recording of a day, over any run of recordings, boosters, feature
      switches, airdrops, withdrawals and claims without late increments for that day:
      the first call after the day decides. If it comes on the next day and does not
      renew the window, the score of the day is never paid, whatever is recorded
      later. Otherwise a running deposit is credited with exactly one whole day, as
      soon as a call two days on has been accepted. */
  lemma UpdateDayIsPaidIff(a: AccountId, products: map<ProductId, Product>, p: ProductId, trace: Trace, first: ScoreStep, more: seq<ScoreStep>,
                           deposit: nat, day: int, score: Score)
    requires IsScoreJar(trace.account, products, p) && deposit < |trace.account.jars[p].deposits|
    requires TraceIsRecorded(trace, p, day, score)
    requires IsPayable(products[p].terms, trace.account.jars[p].deposits[deposit], score, day)
    requires IsAccepted(a, products, p, trace, first) && day < Day(first.at)
    requires AddsNothingTo(first, day) && AddNothingTo(more, day)
    ensures DaysKnown(UTC, trace.account.score.updatedAt, first.at)
    ensures var end := AfterScoreSteps(a, products, p, AfterScoreStep(a, products, p, trace, first), more);
            var credited := TermFor(end.credits, deposit, day) - TermFor(trace.credits, deposit, day);
            && (Forfeits(trace.account.score, first, day) ==> credited == 0)
            && (day + 2 <= Day(end.last) ==> (credited == MS_IN_DAY <==> !Forfeits(trace.account.score, first, day)))
            && 0 <= credited <= MS_IN_DAY
  {
    var after := AfterScoreStep(a, products, p, trace, first);
    StepCredits(a, products, p, trace, first, deposit, day);
    StepWhenRecorded(a, products, p, trace, first, after.account, deposit, day, score);
    if Forfeits(trace.account.score, first, day) {
      OverIsFinal(a, products, p, after, more, deposit, day);
    } else {
      StepsOnTheWay(a, products, p, after, more, deposit, day, score,
                    TermFor(after.credits, deposit, day) - TermFor(trace.credits, deposit, day));
    }
  }

  // --- A score that is lost ---------------------------------------------------

  const STEPS: ProductId := "steps"

  /** 50000 points for day 20 on a deposit of 100000 tokens from day 10. */
  const PRODUCTS: map<ProductId, Product> :=
    map[STEPS := Product(STEPS, 0, 1_000_000, ScoreBased(50_000, 100 * MS_IN_YEAR), None, Some("key"), true)]

  const WALKER := Account(1, map[STEPS := Jar([Deposit(10 * MS_IN_DAY, 100_000)], None, false, 0)], UTC,
                          ScoreWindow(20 * MS_IN_DAY, DailyScore(50_000, 0), NO_SCORE), Features(false, false))

  const WALKED := Trace(WALKER, 0, [], ScoreBook(map[20 := 50_000], map[]), 20 * MS_IN_DAY)

  lemma WalkedIsPayable()
    ensures IsScoreJar(WALKER, PRODUCTS, STEPS) && TraceIsRecorded(WALKED, STEPS, 20, 50_000)
    ensures IsPayable(PRODUCTS[STEPS].terms, WALKER.jars[STEPS].deposits[0], 50_000, 20)
    ensures IsCurrent(WALKER.score, WALKED.book, 20)
  {
    assert Pow10(5) == 100_000 by {
      assert Pow10(2) == 100;
      assert Pow10(4) == 10_000;
    }
    QuotientUnique(SaturatedProduct(100_000, 50_000), 100_000, 50_000);
    assert Day(20 * MS_IN_DAY) == 20;
  }

  /** Both a claim and a feature switch are accepted at any moment of the next year. */
  lemma WalkerIsAccepted(a: AccountId, step: ScoreStep)
    requires step.ClaimStep? || step.SwitchStep?
    requires WALKED.last <= step.at <= 400 * MS_IN_DAY
    ensures IsScoreJar(WALKER, PRODUCTS, STEPS) && IsAccepted(a, PRODUCTS, STEPS, WALKED, step)
  {
    WalkedIsPayable();
    DaysAreKnown(step.at);
    var settled := Settle(WALKER, PRODUCTS, step.at).value;
    SettlingTheJar(WALKER, PRODUCTS, STEPS, step.at);
    assert settled.jars.Keys == {STEPS};
    if step.ClaimStep? {
      assert AllAccrue(settled, PRODUCTS, step.at);
      LoneClaimIsAccepted(a, settled, step.at);
    }
  }

  lemma DaysAreKnown(at: Timestamp)
    requires 20 * MS_IN_DAY <= at <= 400 * MS_IN_DAY
    ensures DaysKnown(UTC, 20 * MS_IN_DAY, at) && Day(at) <= 400
  {
  }

  lemma LoneClaimIsAccepted(a: AccountId, settled: Account, at: Timestamp)
    requires Known(settled, PRODUCTS) && settled.jars.Keys == {STEPS} && AllAccrue(settled, PRODUCTS, at)
    ensures ClaimSettled(a, settled, PRODUCTS, at).Ok?
    ensures var outcome := ClaimSettled(a, settled, PRODUCTS, at).value;
            && (outcome.promise.Some? ==> outcome.promise.value.AfterClaim?)
            && AfterClaimed(outcome).Ok?
  {
    var amounts := Claimable(settled, PRODUCTS, at);
    assert amounts == map[] || amounts.Keys == {STEPS};
    assert |amounts| == |amounts.Keys|;
  }

  /** Claiming or switching a feature on day 21 loses the score of day 20, although
      there may be recordings and claims for ever after; with the same call on day 22
      the whole day is paid. */
  lemma AScoreIsLost(a: AccountId, first: ScoreStep, more: seq<ScoreStep>)
    requires first.ClaimStep? || first.SwitchStep?
    requires 21 <= Day(first.at) <= 22 && AddNothingTo(more, 20)
    ensures IsScoreJar(WALKER, PRODUCTS, STEPS) && IsAccepted(a, PRODUCTS, STEPS, WALKED, first)
    ensures var end := AfterScoreSteps(a, PRODUCTS, STEPS, AfterScoreStep(a, PRODUCTS, STEPS, WALKED, first), more);
            TermFor(end.credits, 0, 20) == if Day(first.at) == 21 then 0 else MS_IN_DAY
  {
    DayBounds(first.at);
    WalkedIsPayable();
    WalkerIsAccepted(a, first);
    UpdateDayIsPaidIff(a, PRODUCTS, STEPS, WALKED, first, more, 0, 20, 50_000);
    LastNeverFalls(a, PRODUCTS, STEPS, AfterScoreStep(a, PRODUCTS, STEPS, WALKED, first), more);
    DayIsMonotone(first.at, AfterScoreSteps(a, PRODUCTS, STEPS, AfterScoreStep(a, PRODUCTS, STEPS, WALKED, first), more).last);
  }

  lemma {:induction false} LastNeverFalls(a: AccountId, products: map<ProductId, Product>, p: ProductId, trace: Trace, steps: seq<ScoreStep>)
    requires IsScoreJar(trace.account, products, p)
    ensures trace.last <= AfterScoreSteps(a, products, p, trace, steps).last
  {
    if steps != [] {
      LastNeverFalls(a, products, p, trace, steps[..|steps| - 1]);
    }
  }
}
