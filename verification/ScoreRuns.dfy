/** Runs of oracle updates, claims and other settling calls on an account in UTC,
    seen from one of its score jars. */
module ScoreRuns {
  import opened Numbers
  import opened Types
  import opened Interest
  import opened Jars
  import opened Settlement
  import opened Scores
  import opened Tickets
  import opened Accounts
  import opened Promises
  import opened Withdrawals
  import opened Claims
  import opened Credits
  import opened OverCredit

  /** Everything that settles and leaves the deposits of the jar alone: recordings,
      boosters and feature switches by the oracle, airdrops with a booster into other
      jars, withdrawals from several other jars, and completed claims. */
  datatype ScoreStep =
    | RecordStep(at: Timestamp, increments: seq<(Score, Timestamp)>)
    | BoostStep(at: Timestamp, value: Score, boostedAt: Timestamp)
    | SwitchStep(at: Timestamp, feature: Feature, isEnabled: bool)
    | AirdropStep(at: Timestamp, ticket: Ticket, amount: TokenAmount, booster: Score, earnedAt: Option<Timestamp>)
    | WithdrawStep(at: Timestamp, ps: set<ProductId>)
    | ClaimStep(at: Timestamp)

  /** The account, what the jar has paid out, every entry it has been credited with,
      the increments ever accepted, and the moment of the last step. */
  datatype Trace = Trace(account: Account, paid: TokenAmount, credits: seq<Credit>, book: ScoreBook, last: Timestamp)

  /** The jar is open, has deposits, and belongs to a plain score product. */
  predicate IsScoreJar(account: Account, products: map<ProductId, Product>, p: ProductId) {
    && Known(account, products)
    && p in account.jars && products[p].terms.ScoreBased?
    && !account.jars[p].isLocked && account.jars[p].deposits != []
    && account.timezone == UTC
  }

  /** The entries a settlement of the account makes for the jar. */
  function CreditsOfSettling(account: Account, products: map<ProductId, Product>, p: ProductId, now: Timestamp): seq<Credit>
    requires IsScoreJar(account, products, p) && Settle(account, products, now).Ok?
  {
    SettleCredits(account.score, products[p].terms, account.features, account.jars[p], now)
  }

  lemma SettlingTheJar(account: Account, products: map<ProductId, Product>, p: ProductId, now: Timestamp)
    requires IsScoreJar(account, products, p) && Settle(account, products, now).Ok?
    ensures var settled := Settle(account, products, now).value;
            && DaysKnown(UTC, account.score.updatedAt, now)
            && IsScoreJar(settled, products, p)
            && settled.jars[p] == SettledBy(account.score, products[p].terms, account.features, account.jars[p], now)
            && settled.score == MovedOn(account.score, DaysOf(account.score, now))
            && settled.jars[p].deposits == account.jars[p].deposits
            && OwedUnits(settled.jars[p]) == OwedUnits(account.jars[p]) + UnitsOf(CreditsOfSettling(account, products, p, now))
  {
    var due := DueScores(account.score, DaysOf(account.score, now));
    if IsDue(due, products[p].terms, account.jars[p], now) {
      DueCreditsAddUp(due, products[p].terms, account.features, account.jars[p]);
    }
  }

  // --- Steps ------------------------------------------------------------------

  /** The account after a call. A withdrawal that wants this jar too is no step, since
      it locks the jar, nor is an airdrop into it or without a booster. */
  function Attempt(a: AccountId, products: map<ProductId, Product>, p: ProductId, account: Account, step: ScoreStep): Result<Account>
    requires Known(account, products)
  {
    match step
    case RecordStep(at, increments) => Updated(account, products, RecordScore(increments), at)
    case BoostStep(at, value, boostedAt) => Updated(account, products, ApplyBooster(value, boostedAt), at)
    case SwitchStep(at, feature, isEnabled) => Updated(account, products, SetFeature(feature, isEnabled), at)
    case AirdropStep(at, ticket, amount, booster, earnedAt) =>
      if ticket.productId !in products || ticket.productId == p || booster == 0 then Err(ProductNotFound)
      else Airdropped(account, products, ticket, amount, booster, earnedAt, at)
    case WithdrawStep(at, ps) =>
      if p in ps then Err(JarIsLocked) else
        var outcome :- WithdrawAll(a, account, products, Some(ps), at);
        Ok(outcome.account)
    case ClaimStep(at) =>
      var outcome :- ClaimTotal(a, account, products, at);
      if outcome.promise.Some? && !outcome.promise.value.AfterClaim? then Err(NoSuchPromise) else AfterClaimed(outcome)
  }

  /** What the call pays from the jar. */
  function PaidBy(a: AccountId, products: map<ProductId, Product>, p: ProductId, account: Account, step: ScoreStep): TokenAmount
    requires Known(account, products)
  {
    if !step.ClaimStep? || ClaimTotal(a, account, products, step.at).Err? then 0 else
      var outcome := ClaimTotal(a, account, products, step.at).value;
      if outcome.promise.Some? && !outcome.promise.value.AfterClaim? then 0 else ClaimedFrom(outcome, p)
  }

  /** The call counts the running day up to now: a refresh always, a claim if it pays. */
  predicate CountsUpToNow(a: AccountId, products: map<ProductId, Product>, p: ProductId, account: Account, step: ScoreStep)
    requires Known(account, products)
  {
    step.SwitchStep? || step.WithdrawStep? || PaidBy(a, products, p, account, step) != 0
  }

  function LiveOf(account: Account, products: map<ProductId, Product>, p: ProductId, now: Timestamp): seq<Credit>
    requires IsScoreJar(account, products, p) && CanAccrue(account, products[p].terms, account.jars[p], now)
  {
    LiveCredits(RateFor(products[p].terms, account, now), account.jars[p].cache, now, account.jars[p].deposits)
  }

  function Boosting(window: ScoreWindow, value: Score, earnedAt: Timestamp, now: Timestamp): ScoreWindow {
    if NotFuture(UTC, earnedAt, now) then WithBooster(window, DaysAgo(UTC, earnedAt, now), value, now) else window
  }

  /** What the call does to the window that a settlement has moved on. */
  function WindowAfterCall(window: ScoreWindow, step: ScoreStep): ScoreWindow {
    match step
    case RecordStep(at, increments) => if AllPast(increments, UTC, at) then Recorded(window, increments, UTC, at) else window
    case BoostStep(at, value, boostedAt) => Boosting(window, value, boostedAt, at)
    case AirdropStep(at, _, _, booster, earnedAt) => Boosting(window, booster, earnedAt.GetOr(at), at)
    case SwitchStep(_, _, _) => window
    case WithdrawStep(_, _) => window
    case ClaimStep(_) => window
  }

  /** What an accepted call does, seen from the jar. */
  ghost predicate IsStep(a: AccountId, products: map<ProductId, Product>, p: ProductId, account: Account, step: ScoreStep, after: Account)
    requires IsScoreJar(account, products, p)
  {
    && Settle(account, products, step.at).Ok?
    && var settled := Settle(account, products, step.at).value;
       && IsScoreJar(settled, products, p) && IsScoreJar(after, products, p)
       && after.jars[p].deposits == account.jars[p].deposits
       && after.score == WindowAfterCall(settled.score, step)
       && (step.RecordStep? ==> AllPast(step.increments, UTC, step.at))
       && if CountsUpToNow(a, products, p, account, step) then
            && CanAccrue(settled, products[p].terms, settled.jars[p], step.at)
            && Moment(after.jars[p].cache) == step.at
            && PaidBy(a, products, p, account, step) * MS_IN_YEAR + OwedUnits(after.jars[p])
               == OwedUnits(settled.jars[p]) + UnitsOf(LiveOf(settled, products, p, step.at))
          else
            PaidBy(a, products, p, account, step) == 0 && after.jars[p] == settled.jars[p]
  }

  lemma UpdateIsStep(a: AccountId, products: map<ProductId, Product>, p: ProductId, account: Account, step: ScoreStep)
    requires IsScoreJar(account, products, p) && (step.RecordStep? || step.BoostStep?)
    requires Attempt(a, products, p, account, step).Ok?
    ensures IsStep(a, products, p, account, step, Attempt(a, products, p, account, step).value)
  {
    SettlingTheJar(account, products, p, step.at);
  }

  lemma AirdropIsStep(a: AccountId, products: map<ProductId, Product>, p: ProductId, account: Account, step: ScoreStep)
    requires IsScoreJar(account, products, p) && step.AirdropStep?
    requires Attempt(a, products, p, account, step).Ok?
    ensures IsStep(a, products, p, account, step, Attempt(a, products, p, account, step).value)
  {
    SettlingTheJar(account, products, p, step.at);
    AirdroppedAddsOne(account, products, step.ticket, step.amount, step.booster, step.earnedAt, step.at);
  }

  lemma RefreshedOwes(settled: Account, products: map<ProductId, Product>, p: ProductId, now: Timestamp)
    requires IsScoreJar(settled, products, p)
    requires CanAccrue(settled, products[p].terms, settled.jars[p], now)
    ensures OwedUnits(Refreshed(RateFor(products[p].terms, settled, now), settled.jars[p], now))
         == OwedUnits(settled.jars[p]) + UnitsOf(LiveOf(settled, products, p, now))
  {
    var rate := RateFor(products[p].terms, settled, now);
    JarInterestIsExact(rate, settled.jars[p], now);
    LiveCreditsAddUp(rate, settled.jars[p].cache, now, settled.jars[p].deposits);
  }

  lemma RefreshIsStep(a: AccountId, products: map<ProductId, Product>, p: ProductId, account: Account, step: ScoreStep)
    requires IsScoreJar(account, products, p) && (step.SwitchStep? || step.WithdrawStep?)
    requires Attempt(a, products, p, account, step).Ok?
    ensures IsStep(a, products, p, account, step, Attempt(a, products, p, account, step).value)
  {
    SettlingTheJar(account, products, p, step.at);
    var settled := Settle(account, products, step.at).value;
    assert CanAccrue(settled, products[p].terms, settled.jars[p], step.at);
    RefreshedOwes(settled, products, p, step.at);
  }

  lemma ClaimIsStep(a: AccountId, products: map<ProductId, Product>, p: ProductId, account: Account, step: ScoreStep)
    requires IsScoreJar(account, products, p) && step.ClaimStep?
    requires Attempt(a, products, p, account, step).Ok?
    ensures IsStep(a, products, p, account, step, Attempt(a, products, p, account, step).value)
  {
    SettlingTheJar(account, products, p, step.at);
    var settled := Settle(account, products, step.at).value;
    SettledClaimOfJar(a, settled, products, step.at, p);
    RefreshedOwes(settled, products, p, step.at);
    var (interest, remainder) := InterestOf(settled, products, p, step.at);
    OwedAfterClaim(settled.jars[p], interest, remainder, step.at);
  }

  lemma OwedAfterClaim(jar: Jar, interest: TokenAmount, remainder: nat, now: Timestamp)
    ensures interest * MS_IN_YEAR + OwedUnits(Claimed(jar, remainder, now)) == OwedUnits(WithCache(jar, interest, remainder, now))
  {
  }

  lemma AttemptIsStep(a: AccountId, products: map<ProductId, Product>, p: ProductId, account: Account, step: ScoreStep)
    requires IsScoreJar(account, products, p)
    requires Attempt(a, products, p, account, step).Ok?
    ensures IsStep(a, products, p, account, step, Attempt(a, products, p, account, step).value)
  {
    if step.ClaimStep? {
      ClaimIsStep(a, products, p, account, step);
    } else if step.SwitchStep? || step.WithdrawStep? {
      RefreshIsStep(a, products, p, account, step);
    } else if step.AirdropStep? {
      AirdropIsStep(a, products, p, account, step);
    } else {
      UpdateIsStep(a, products, p, account, step);
    }
  }

  /** What the step adds to the entries. */
  function AddedBy(a: AccountId, products: map<ProductId, Product>, p: ProductId, account: Account, step: ScoreStep): seq<Credit>
    requires IsScoreJar(account, products, p) && Settle(account, products, step.at).Ok?
    requires var settled := Settle(account, products, step.at).value;
             && IsScoreJar(settled, products, p)
             && (CountsUpToNow(a, products, p, account, step) ==> CanAccrue(settled, products[p].terms, settled.jars[p], step.at))
  {
    if CountsUpToNow(a, products, p, account, step) then LiveOf(Settle(account, products, step.at).value, products, p, step.at) else []
  }

  /** Steps that would turn the clock back are passed over, rejected ones change
      nothing. */
  predicate IsAccepted(a: AccountId, products: map<ProductId, Product>, p: ProductId, trace: Trace, step: ScoreStep)
    requires Known(trace.account, products)
  {
    trace.last <= step.at && Attempt(a, products, p, trace.account, step).Ok?
  }

  function BookAfterStep(book: ScoreBook, step: ScoreStep): ScoreBook {
    if step.RecordStep? && AllPast(step.increments, UTC, step.at) then Booked(book, step.increments, UTC, step.at) else book
  }

  function AfterScoreStep(a: AccountId, products: map<ProductId, Product>, p: ProductId, trace: Trace, step: ScoreStep): (t: Trace)
    requires IsScoreJar(trace.account, products, p)
    ensures IsScoreJar(t.account, products, p)
  {
    if !IsAccepted(a, products, p, trace, step) then trace else
      var account := trace.account;
      AttemptIsStep(a, products, p, account, step);
      Trace(Attempt(a, products, p, account, step).value,
            trace.paid + PaidBy(a, products, p, account, step),
            trace.credits + CreditsOfSettling(account, products, p, step.at) + AddedBy(a, products, p, account, step),
            BookAfterStep(trace.book, step), step.at)
  }

  function AfterScoreSteps(a: AccountId, products: map<ProductId, Product>, p: ProductId, trace: Trace, steps: seq<ScoreStep>): (t: Trace)
    requires IsScoreJar(trace.account, products, p)
    ensures IsScoreJar(t.account, products, p)
  {
    if steps == [] then trace else
      AfterScoreStep(a, products, p, AfterScoreSteps(a, products, p, trace, steps[..|steps| - 1]), steps[|steps| - 1])
  }

  // --- What a step keeps ------------------------------------------------------

  ghost predicate IsSound(products: map<ProductId, Product>, p: ProductId, trace: Trace, deposit: nat)
    requires IsScoreJar(trace.account, products, p)
  {
    && trace.account.score.updatedAt <= trace.last
    && Sound(trace.account.score, trace.account.jars[p], trace.last, trace.credits, trace.book, products[p].terms.scoreCap, deposit)
  }

  lemma SettlePartIsSound(products: map<ProductId, Product>, p: ProductId, trace: Trace, at: Timestamp, deposit: nat)
    requires IsScoreJar(trace.account, products, p) && trace.last <= at
    requires IsSound(products, p, trace, deposit)
    requires Settle(trace.account, products, at).Ok?
    ensures var settled := Settle(trace.account, products, at).value;
            var days := Day(at) - Day(settled.score.updatedAt);
            && IsScoreJar(settled, products, p)
            && settled.score.updatedAt == trace.account.score.updatedAt
            && settled.jars[p].deposits == trace.account.jars[p].deposits
            && DaysKnown(UTC, settled.score.updatedAt, at)
            && days == DaysOf(settled.score, at)
            && (days > 0 ==> LastFinalized(settled.score, days).value == 0)
            && LastFinalized(settled.score, days).value <= Total(trace.book, Day(at) - 1)
            && IsCurrent(settled.score, trace.book, Day(at))
            && Sound(settled.score, settled.jars[p], at, trace.credits + CreditsOfSettling(trace.account, products, p, at), trace.book,
                     products[p].terms.scoreCap, deposit)
  {
    var account, terms := trace.account, products[p].terms;
    SettlingTheJar(account, products, p, at);
    SettledIsSound(account.score, terms, account.features, account.jars[p], trace.last, at, trace.credits, trace.book, deposit);
    SettledWindowIsCurrent(account.score, trace.book, Moment(account.jars[p].cache), trace.last, at);
  }

  /** Of a jar only its deposits and its cached moment matter. */
  lemma SameMomentIsSound(window: ScoreWindow, jar: Jar, jar': Jar, last: Timestamp, credits: seq<Credit>, book: ScoreBook, cap: Score, deposit: nat)
    requires Sound(window, jar, last, credits, book, cap, deposit)
    requires jar'.deposits == jar.deposits && Moment(jar'.cache) == Moment(jar.cache)
    ensures Sound(window, jar', last, credits, book, cap, deposit)
  {
  }

  lemma LivePartIsSound(products: map<ProductId, Product>, p: ProductId, settled: Account, after: Jar, at: Timestamp, credits: seq<Credit>,
                        book: ScoreBook, deposit: nat)
    requires IsScoreJar(settled, products, p) && CanAccrue(settled, products[p].terms, settled.jars[p], at)
    requires DaysKnown(UTC, settled.score.updatedAt, at)
    requires var days := DaysOf(settled.score, at);
             && days == Day(at) - Day(settled.score.updatedAt)
             && (days > 0 ==> LastFinalized(settled.score, days).value == 0)
             && LastFinalized(settled.score, days).value <= Total(book, Day(at) - 1)
    requires Sound(settled.score, settled.jars[p], at, credits, book, products[p].terms.scoreCap, deposit)
    requires after.deposits == settled.jars[p].deposits && Moment(after.cache) == at
    ensures Sound(settled.score, after, at, credits + LiveOf(settled, products, p, at), book, products[p].terms.scoreCap, deposit)
  {
    ClaimIsSound(settled.score, RateFor(products[p].terms, settled, at), settled.jars[p], at, credits, book, deposit, DaysOf(settled.score, at), 0);
    SameMomentIsSound(settled.score, Claimed(settled.jars[p], 0, at), after, at, credits + LiveOf(settled, products, p, at), book,
                      products[p].terms.scoreCap, deposit);
  }

  lemma BoostIsSound(window: ScoreWindow, jar: Jar, value: Score, earnedAt: Timestamp, now: Timestamp, credits: seq<Credit>, book: ScoreBook,
                     cap: Score, deposit: nat)
    requires Sound(window, jar, now, credits, book, cap, deposit) && MS_IN_DAY <= now
    requires Day(window.updatedAt) <= Day(now) && IsCurrent(window, book, Day(now))
    ensures Sound(Boosting(window, value, earnedAt, now), jar, now, credits, book, cap, deposit)
  {
    var window' := Boosting(window, value, earnedAt, now);
    if window'.updatedAt == now {
      CurrentShows(window', book, Moment(jar.cache), now);
      RecordIsWithin(window, window', Moment(jar.cache), now, credits, deposit);
    }
  }

  lemma CallIsSound(window: ScoreWindow, step: ScoreStep, jar: Jar, credits: seq<Credit>, book: ScoreBook, cap: Score, deposit: nat)
    requires Sound(window, jar, step.at, credits, book, cap, deposit) && MS_IN_DAY <= step.at
    requires Day(window.updatedAt) <= Day(step.at) && IsCurrent(window, book, Day(step.at))
    requires step.RecordStep? ==> AllPast(step.increments, UTC, step.at)
    ensures Sound(WindowAfterCall(window, step), jar, step.at, credits, BookAfterStep(book, step), cap, deposit)
  {
    match step
    case RecordStep(at, increments) => RecordIsSound(window, jar, at, increments, credits, book, cap, deposit);
    case BoostStep(at, value, boostedAt) => BoostIsSound(window, jar, value, boostedAt, at, credits, book, cap, deposit);
    case AirdropStep(at, _, _, booster, earnedAt) => BoostIsSound(window, jar, booster, earnedAt.GetOr(at), at, credits, book, cap, deposit);
    case SwitchStep(_, _, _) =>
    case WithdrawStep(_, _) =>
    case ClaimStep(_) =>
  }

  /** The entries a step adds are those of the running day, or none. */
  predicate Adds(settled: Account, products: map<ProductId, Product>, p: ProductId, after: Jar, at: Timestamp, added: seq<Credit>)
    requires IsScoreJar(settled, products, p)
  {
    if CanAccrue(settled, products[p].terms, settled.jars[p], at) && added == LiveOf(settled, products, p, at) && Moment(after.cache) == at
    then after.deposits == settled.jars[p].deposits
    else added == [] && after == settled.jars[p]
  }

  lemma StepAdds(a: AccountId, products: map<ProductId, Product>, p: ProductId, account: Account, step: ScoreStep, after: Account)
    requires IsScoreJar(account, products, p) && IsStep(a, products, p, account, step, after)
    ensures Settle(account, products, step.at).Ok? && IsScoreJar(Settle(account, products, step.at).value, products, p)
    ensures Adds(Settle(account, products, step.at).value, products, p, after.jars[p], step.at, AddedBy(a, products, p, account, step))
  {
    SettlingTheJar(account, products, p, step.at);
  }

  lemma AddedIsSound(products: map<ProductId, Product>, p: ProductId, settled: Account, after: Jar, at: Timestamp, added: seq<Credit>,
                     credits: seq<Credit>, book: ScoreBook, deposit: nat)
    requires IsScoreJar(settled, products, p) && Adds(settled, products, p, after, at, added)
    requires DaysKnown(UTC, settled.score.updatedAt, at)
    requires var days := DaysOf(settled.score, at);
             && days == Day(at) - Day(settled.score.updatedAt)
             && (days > 0 ==> LastFinalized(settled.score, days).value == 0)
             && LastFinalized(settled.score, days).value <= Total(book, Day(at) - 1)
    requires Sound(settled.score, settled.jars[p], at, credits, book, products[p].terms.scoreCap, deposit)
    ensures Sound(settled.score, after, at, credits + added, book, products[p].terms.scoreCap, deposit)
  {
    if added == [] && after == settled.jars[p] {
      assert credits + added == credits;
    } else {
      LivePartIsSound(products, p, settled, after, at, credits, book, deposit);
    }
  }

  /** Settling, and counting the running day up to now where the call does so. */
  lemma CountedIsSound(products: map<ProductId, Product>, p: ProductId, trace: Trace, after: Jar, at: Timestamp, added: seq<Credit>, deposit: nat)
    requires IsScoreJar(trace.account, products, p) && trace.last <= at && IsSound(products, p, trace, deposit)
    requires Settle(trace.account, products, at).Ok? && IsScoreJar(Settle(trace.account, products, at).value, products, p)
    requires Adds(Settle(trace.account, products, at).value, products, p, after, at, added)
    ensures var window := Settle(trace.account, products, at).value.score;
            && window.updatedAt == trace.account.score.updatedAt && IsCurrent(window, trace.book, Day(at))
            && Sound(window, after, at, trace.credits + CreditsOfSettling(trace.account, products, p, at) + added, trace.book,
                     products[p].terms.scoreCap, deposit)
  {
    SettlePartIsSound(products, p, trace, at, deposit);
    AddedIsSound(products, p, Settle(trace.account, products, at).value, after, at, added,
                 trace.credits + CreditsOfSettling(trace.account, products, p, at), trace.book, deposit);
  }

  lemma IsStepIsSound(a: AccountId, products: map<ProductId, Product>, p: ProductId, trace: Trace, step: ScoreStep, after: Account, deposit: nat)
    requires IsScoreJar(trace.account, products, p) && trace.last <= step.at
    requires IsSound(products, p, trace, deposit) && IsStep(a, products, p, trace.account, step, after)
    ensures after.score.updatedAt <= step.at
    ensures Sound(after.score, after.jars[p], step.at,
                  trace.credits + CreditsOfSettling(trace.account, products, p, step.at) + AddedBy(a, products, p, trace.account, step),
                  BookAfterStep(trace.book, step), products[p].terms.scoreCap, deposit)
  {
    StepAdds(a, products, p, trace.account, step, after);
    CountedIsSound(products, p, trace, after.jars[p], step.at, AddedBy(a, products, p, trace.account, step), deposit);
    var window := Settle(trace.account, products, step.at).value.score;
    var credits := trace.credits + CreditsOfSettling(trace.account, products, p, step.at) + AddedBy(a, products, p, trace.account, step);
    DayIsMonotone(window.updatedAt, step.at);
    CallIsSound(window, step, after.jars[p], credits, trace.book, products[p].terms.scoreCap, deposit);
    UpdatedByNow(window, step);
  }

  lemma StepIsSound(a: AccountId, products: map<ProductId, Product>, p: ProductId, trace: Trace, step: ScoreStep, deposit: nat)
    requires IsScoreJar(trace.account, products, p)
    requires IsSound(products, p, trace, deposit) && IsAccepted(a, products, p, trace, step)
    ensures IsSound(products, p, AfterScoreStep(a, products, p, trace, step), deposit)
    ensures AfterScoreStep(a, products, p, trace, step).account.jars[p].deposits == trace.account.jars[p].deposits
  {
    AttemptIsStep(a, products, p, trace.account, step);
    IsStepIsSound(a, products, p, trace, step, Attempt(a, products, p, trace.account, step).value, deposit);
  }

  lemma UpdatedByNow(window: ScoreWindow, step: ScoreStep)
    ensures WindowAfterCall(window, step).updatedAt == window.updatedAt || WindowAfterCall(window, step).updatedAt == step.at
  {
  }

  /** What has been paid and what is owed is what has been credited. */
  lemma StepCreditsAddUp(a: AccountId, products: map<ProductId, Product>, p: ProductId, trace: Trace, step: ScoreStep)
    requires IsScoreJar(trace.account, products, p)
    ensures var after := AfterScoreStep(a, products, p, trace, step);
            after.paid * MS_IN_YEAR + OwedUnits(after.account.jars[p]) + UnitsOf(trace.credits)
            == trace.paid * MS_IN_YEAR + OwedUnits(trace.account.jars[p]) + UnitsOf(after.credits)
  {
    if IsAccepted(a, products, p, trace, step) {
      var account := trace.account;
      AttemptIsStep(a, products, p, account, step);
      SettlingTheJar(account, products, p, step.at);
      var settled, settling := Settle(account, products, step.at).value, CreditsOfSettling(account, products, p, step.at);
      CreditsAppend(trace.credits, settling, 0, 0);
      if CountsUpToNow(a, products, p, account, step) {
        CreditsAppend(trace.credits + settling, LiveOf(settled, products, p, step.at), 0, 0);
        PaidSum(trace.paid, PaidBy(a, products, p, account, step));
      } else {
        assert trace.credits + settling + [] == trace.credits + settling;
      }
    }
  }

  lemma PaidSum(paid: TokenAmount, more: TokenAmount)
    ensures (paid + more) * MS_IN_YEAR == paid * MS_IN_YEAR + more * MS_IN_YEAR
  {
  }

  lemma {:induction false} StepsAreSound(a: AccountId, products: map<ProductId, Product>, p: ProductId, trace: Trace, steps: seq<ScoreStep>, deposit: nat)
    requires IsScoreJar(trace.account, products, p)
    requires IsSound(products, p, trace, deposit)
    ensures var end := AfterScoreSteps(a, products, p, trace, steps);
            && IsSound(products, p, end, deposit)
            && end.account.jars[p].deposits == trace.account.jars[p].deposits
            && end.paid * MS_IN_YEAR + OwedUnits(end.account.jars[p]) + UnitsOf(trace.credits)
               == trace.paid * MS_IN_YEAR + OwedUnits(trace.account.jars[p]) + UnitsOf(end.credits)
  {
    if steps != [] {
      var n := |steps| - 1;
      StepsAreSound(a, products, p, trace, steps[..n], deposit);
      var before := AfterScoreSteps(a, products, p, trace, steps[..n]);
      StepCreditsAddUp(a, products, p, before, steps[n]);
      if IsAccepted(a, products, p, before, steps[n]) {
        StepIsSound(a, products, p, before, steps[n], deposit);
      }
    }
  }

  /** Over any run of steps, what a deposit has been credited with for the score of one
      day, settled and live together, is at most a day at the rate of all increments
      ever accepted for that day; and all that the jar has paid or owes is in these
      credits. The clock is past the first day of the epoch, and the window shows no
      more than the book it starts with. */
  lemma ScoreJarsAreNeverOverCredited(a: AccountId, products: map<ProductId, Product>, p: ProductId, account: Account, book: ScoreBook,
                                      start: Timestamp, steps: seq<ScoreStep>, deposit: nat, day: int)
    requires IsScoreJar(account, products, p) && deposit < |account.jars[p].deposits|
    requires MS_IN_DAY <= account.score.updatedAt <= start && Moment(account.jars[p].cache) <= start
    requires IsCurrent(account.score, book, Day(account.score.updatedAt))
    ensures var end := AfterScoreSteps(a, products, p, Trace(account, 0, [], book, start), steps);
            && UnitsFor(end.credits, deposit, day)
               <= MS_IN_DAY * DayRate(account.jars[p].deposits[deposit].principal, products[p].terms.scoreCap, end.book, day)
            && end.paid * MS_IN_YEAR + OwedUnits(end.account.jars[p]) == OwedUnits(account.jars[p]) + UnitsOf(end.credits)
  {
    var trace := Trace(account, 0, [], book, start);
    assert IsSound(products, p, trace, deposit);
    StepsAreSound(a, products, p, trace, steps, deposit);
    var end := AfterScoreSteps(a, products, p, trace, steps);
    var rate := DayRate(account.jars[p].deposits[deposit].principal, products[p].terms.scoreCap, end.book, day);
    TimesAtMost(rate, TermFor(end.credits, deposit, day), MS_IN_DAY);
  }
}
