/** An account in place: every method does step by step what its specification
    function says at once. Maps are visited in an arbitrary order. */
module StoredAccounts {
  import opened Numbers
  import opened Types
  import opened MapSum
  import opened Interest
  import opened Jars
  import opened Settlement
  import opened Scores
  import opened Accounts
  import opened Contracts

  lemma OneMoreDay(due: seq<(Timestamp, DailyScore)>, k: nat, terms: Terms, features: Features, jar: Jar)
    requires terms.IsScoreBased() && k < |due|
    ensures k == 0 ==> DueInterest(due[..k], terms, features, jar) == (0, 0)
    ensures var (total, rest) := DueInterest(due[..k], terms, features, jar);
            var (interest, remainder) := DayInterest(due[k].0, DueApy(due[k].1, terms, features), jar.cache, jar.deposits);
            DueInterest(due[..k + 1], terms, features, jar) == (total + interest, rest + remainder)
  {
    assert due[..k + 1][..k] == due[..k];
  }

  class StoredAccount {
    var nonce: nat
    var jars: map<ProductId, Jar>
    var timezone: Timezone
    var score: ScoreWindow
    var features: Features

    function Value(): Account
      reads this
    {
      Account(nonce, jars, timezone, score, features)
    }

    constructor (account: Account)
      ensures Value() == account
    {
      nonce, jars, timezone, score, features := account.nonce, account.jars, account.timezone, account.score, account.features;
    }

    // --- Deposits and settings ------------------------------------------------

    method Deposit(p: ProductId, amount: TokenAmount, now: Timestamp)
      modifies this`jars
      ensures Value() == Deposited(old(Value()), p, amount, now)
    {
      if p !in jars {
        jars := jars[p := DEFAULT_JAR];
      }
      jars := jars[p := WithDeposit(jars[p], Types.Deposit(now, amount))];
    }

    method TrySetTimezone(zone: Option<Timezone>) returns (r: Result<()>)
      modifies this`timezone
      ensures r.Ok? <==> Accounts.TrySetTimezone(old(Value()), zone).Ok?
      ensures r.Ok? ==> Value() == Accounts.TrySetTimezone(old(Value()), zone).value
      ensures r.Err? ==> r.error == Accounts.TrySetTimezone(old(Value()), zone).error && Value() == old(Value())
    {
      if timezone.IsValid() {
        return Ok(());
      }
      if zone.None? {
        return Err(TimezoneRequired);
      }
      timezone := zone.value;
      return Ok(());
    }

    method GetTotalPrincipal() returns (total: TokenAmount)
      ensures total == AccountPrincipal(Value())
    {
      total := 0;
      var left := jars.Keys;
      ghost var seen: map<ProductId, TokenAmount> := map[];
      while left != {}
        invariant left <= jars.Keys && seen.Keys == jars.Keys - left
        invariant forall p :: p in seen ==> seen[p] == Principal(jars[p].deposits)
        invariant total == Sum(seen)
        decreases left
      {
        var p :| p in left;
        SumUpdate(seen, p, Principal(jars[p].deposits));
        seen := seen[p := Principal(jars[p].deposits)];
        total := total + Principal(jars[p].deposits);
        left := left - {p};
      }
      assert seen == PrincipalsOf(Value());
    }

    // --- Caches -----------------------------------------------------------------

    method UpdateJarCache(products: map<ProductId, Product>, p: ProductId, now: Timestamp) returns (r: Result<()>)
      requires Known(Value(), products)
      modifies this`jars
      ensures r.Ok? <==> RefreshJar(old(Value()), products, p, now).Ok?
      ensures r.Ok? ==> Value() == RefreshJar(old(Value()), products, p, now).value
      ensures r.Err? ==> r.error == RefreshJar(old(Value()), products, p, now).error && Value() == old(Value())
    {
      if p !in jars {
        return Err(JarNotFound);
      }
      if !CanAccrue(Value(), products[p].terms, jars[p], now) {
        return Err(TimestampOutOfRange);
      }
      var (interest, remainder) := JarInterest(RateFor(products[p].terms, Value(), now), jars[p], now);
      jars := jars[p := WithCache(jars[p], interest, remainder, now)];
      return Ok(());
    }

    /** One jar after the other: the interest of a jar does not depend on the caches
        of the others. */
    method UpdateJarCaches(products: map<ProductId, Product>, ps: set<ProductId>, now: Timestamp) returns (r: Result<()>)
      requires Known(Value(), products) && ps <= jars.Keys
      modifies this`jars
      ensures r.Ok? <==> RefreshJars(old(Value()), products, ps, now).Ok?
      ensures r.Ok? ==> Value() == RefreshJars(old(Value()), products, ps, now).value
      ensures r.Err? ==> r.error == RefreshJars(old(Value()), products, ps, now).error
    {
      ghost var before := Value();
      var left := ps;
      while left != {}
        invariant left <= ps
        invariant Value() == before.(jars := jars) && jars.Keys == before.jars.Keys
        invariant forall p :: p in ps && p !in left ==> CanAccrue(before, products[p].terms, before.jars[p], now)
        invariant forall p :: p in jars ==>
                    jars[p] == if p in ps && p !in left then Refreshed(RateFor(products[p].terms, before, now), before.jars[p], now)
                               else before.jars[p]
        decreases left
      {
        var p :| p in left;
        assert CanAccrue(Value(), products[p].terms, jars[p], now) == CanAccrue(before, products[p].terms, before.jars[p], now);
        var result := UpdateJarCache(products, p, now);
        if result.Err? {
          assert exists q :: q in ps && !CanAccrue(before, products[q].terms, before.jars[q], now);
          return Err(TimestampOutOfRange);
        }
        left := left - {p};
      }
      assert Value().jars == RefreshJars(before, products, ps, now).value.jars;
      return Ok(());
    }

    // --- Settlement ---------------------------------------------------------------

    /** The jar takes part in a settlement. */
    predicate IsEligible(products: map<ProductId, Product>, p: ProductId, now: Timestamp)
      requires Known(Value(), products)
      reads this
    {
      p in jars && products[p].terms.IsScoreBased() && CachedAtRelative(jars[p].cache) < StartOfTheDay(now)
    }

    /** What every score jar is due, accumulated day by day and jar by jar. */
    method GetSettledInterest(products: map<ProductId, Product>, now: Timestamp) returns (r: Result<map<ProductId, (TokenAmount, nat)>>)
      requires Known(Value(), products)
      ensures r.Ok? <==> (timezone.IsValid() ==> DaysKnown(timezone, score.updatedAt, now))
      ensures r.Err? ==> r.error == TimestampOutOfRange
      ensures r.Ok? && !timezone.IsValid() ==> r.value == map[]
      ensures r.Ok? && timezone.IsValid() ==>
                var due := DueScores(score, DaysSince(timezone, score.updatedAt, now));
                && (forall p :: p in r.value <==> IsEligible(products, p, now) && due != [])
                && (forall p :: p in r.value ==> r.value[p] == DueInterest(due, products[p].terms, features, jars[p]))
    {
      if !timezone.IsValid() {
        return Ok(map[]);
      }
      if !DaysKnown(timezone, score.updatedAt, now) {
        return Err(TimestampOutOfRange);
      }
      var due := DueScores(score, DaysSince(timezone, score.updatedAt, now));
      var result: map<ProductId, (TokenAmount, nat)> := map[];
      for k := 0 to |due|
        invariant result == if k == 0 then map[] else DueFor(products, due, k, now)
      {
        result := AddDay(products, now, due, k, result);
      }
      assert due[..|due|] == due;
      return Ok(result);
    }

    /** What the first `k` days bring to every eligible jar. */
    ghost function DueFor(products: map<ProductId, Product>, due: seq<(Timestamp, DailyScore)>, k: nat, now: Timestamp): map<ProductId, (TokenAmount, nat)>
      requires Known(Value(), products) && k <= |due|
      reads this
    {
      map p | p in jars && IsEligible(products, p, now) :: DueInterest(due[..k], products[p].terms, features, jars[p])
    }

    /** One finished day, for every score jar. */
    method AddDay(products: map<ProductId, Product>, now: Timestamp, due: seq<(Timestamp, DailyScore)>, k: nat,
                  before: map<ProductId, (TokenAmount, nat)>)
      returns (result: map<ProductId, (TokenAmount, nat)>)
      requires Known(Value(), products) && k < |due|
      requires before == if k == 0 then map[] else DueFor(products, due, k, now)
      ensures result == DueFor(products, due, k + 1, now)
    {
      ghost var goal := DueFor(products, due, k + 1, now);
      forall p | IsEligible(products, p, now) ensures DayLeadsTo(products, due[k], p, before, goal) {
        OneMoreDay(due, k, products[p].terms, features, jars[p]);
      }
      result := AddDayTo(products, now, due[k], before, goal);
    }

    static function SumOf(sums: map<ProductId, (TokenAmount, nat)>, p: ProductId): (TokenAmount, nat) {
      if p in sums then sums[p] else (0, 0)
    }

    /** For this jar the day leads from one sum to the other. */
    ghost predicate DayLeadsTo(products: map<ProductId, Product>, day: (Timestamp, DailyScore), p: ProductId,
                               before: map<ProductId, (TokenAmount, nat)>, goal: map<ProductId, (TokenAmount, nat)>)
      requires p in jars && p in products && products[p].terms.IsScoreBased()
      reads this
    {
      && p in goal
      && var (total, rest) := SumOf(before, p);
         var (interest, remainder) := DayInterest(day.0, DueApy(day.1, products[p].terms, features), jars[p].cache, jars[p].deposits);
         goal[p] == (total + interest, rest + remainder)
    }

    method AddDayTo(products: map<ProductId, Product>, now: Timestamp, day: (Timestamp, DailyScore),
                    before: map<ProductId, (TokenAmount, nat)>, ghost goal: map<ProductId, (TokenAmount, nat)>)
      returns (result: map<ProductId, (TokenAmount, nat)>)
      requires Known(Value(), products)
      requires before.Keys <= goal.Keys
      requires forall p :: p in goal ==> IsEligible(products, p, now)
      requires forall p :: IsEligible(products, p, now) ==> DayLeadsTo(products, day, p, before, goal)
      ensures result == goal
    {
      result := before;
      var left := jars.Keys;
      while left != {}
        invariant left <= jars.Keys && result.Keys <= goal.Keys
        invariant forall p :: p in left ==> SumOf(result, p) == SumOf(before, p)
        invariant forall p :: p in goal && p !in left ==> p in result && result[p] == goal[p]
        decreases left
      {
        var p :| p in left;
        if products[p].terms.IsScoreBased() && CachedAtRelative(jars[p].cache) < StartOfTheDay(now) {
          assert IsEligible(products, p, now) && DayLeadsTo(products, day, p, before, goal);
          var (interest, remainder) := DayInterest(day.0, DueApy(day.1, products[p].terms, features), jars[p].cache, jars[p].deposits);
          var (total, rest) := SumOf(result, p);
          result := result[p := (total + interest, rest + remainder)];
        } else {
          assert p !in goal;
        }
        left := left - {p};
      }
    }

    method SettleInterest(products: map<ProductId, Product>, now: Timestamp) returns (r: Result<()>)
      requires Known(Value(), products)
      modifies this`jars, this`score
      ensures r.Ok? <==> Settle(old(Value()), products, now).Ok?
      ensures r.Ok? ==> Value() == Settle(old(Value()), products, now).value
      ensures r.Err? ==> r.error == Settle(old(Value()), products, now).error && Value() == old(Value())
    {
      ghost var before := Value();
      if !timezone.IsValid() {
        return Ok(());
      }
      var settled := GetSettledInterest(products, now);
      if settled.Err? {
        return Err(settled.error);
      }
      var days := DaysSince(timezone, score.updatedAt, now);
      AddSettled(products, settled.value, DueScores(score, days), now);
      if days == 1 {
        score := Shifted(score);
      } else if days > 1 {
        score := Wiped(score);
      }
      assert Value().jars == SettledAccount(before, products, now).jars;
      return Ok(());
    }

    /** The settled interest joins the caches, jar by jar. */
    method AddSettled(products: map<ProductId, Product>, settled: map<ProductId, (TokenAmount, nat)>,
                      ghost due: seq<(Timestamp, DailyScore)>, now: Timestamp)
      requires Known(Value(), products)
      requires forall p :: IsEligible(products, p, now) && due != [] ==> p in settled
      requires forall p :: p in settled ==>
                 IsEligible(products, p, now) && due != [] && settled[p] == DueInterest(due, products[p].terms, features, jars[p])
      modifies this`jars
      ensures Value() == old(Value()).(jars := jars) && jars.Keys == old(jars).Keys
      ensures forall p :: p in jars ==> jars[p] == SettledJar(due, products[p].terms, features, old(jars)[p], now)
    {
      ghost var before := jars;
      var left := settled.Keys;
      while left != {}
        invariant left <= settled.Keys
        invariant Value() == old(Value()).(jars := jars) && jars.Keys == before.Keys
        invariant forall p :: p in jars ==>
                    jars[p] == if p in left then before[p] else SettledJar(due, products[p].terms, features, before[p], now)
        decreases left
      {
        var p :| p in left;
        var jar := jars[p];
        var interest := CachedInterest(jar) + settled[p].0;
        var remainder := jar.claimRemainder + settled[p].1;
        assert WithCache(jar, interest, remainder, StartOfTheDay(now)) == SettledJar(due, products[p].terms, features, before[p], now);
        jars := jars[p := WithCache(jar, interest, remainder, StartOfTheDay(now))];
        left := left - {p};
      }
    }

    method UpdateAccountCache(products: map<ProductId, Product>, now: Timestamp) returns (r: Result<()>)
      requires Known(Value(), products)
      modifies this`jars, this`score
      ensures r.Ok? <==> RefreshAll(old(Value()), products, now).Ok?
      ensures r.Ok? ==> Value() == RefreshAll(old(Value()), products, now).value
      ensures r.Err? ==> r.error == RefreshAll(old(Value()), products, now).error
    {
      var settled := SettleInterest(products, now);
      if settled.Err? {
        return settled;
      }
      r := UpdateJarCaches(products, jars.Keys, now);
    }

    // --- Oracle updates -----------------------------------------------------------

    method RecordIncrements(products: map<ProductId, Product>, increments: seq<(Score, Timestamp)>, now: Timestamp) returns (r: Result<()>)
      requires Known(Value(), products)
      modifies this`jars, this`score
      ensures r.Ok? <==> Updated(old(Value()), products, RecordScore(increments), now).Ok?
      ensures r.Ok? ==> Value() == Updated(old(Value()), products, RecordScore(increments), now).value
      ensures r.Err? ==> r.error == Updated(old(Value()), products, RecordScore(increments), now).error
    {
      if !timezone.IsValid() {
        return Err(TimezoneRequired);
      }
      var settled := SettleInterest(products, now);
      if settled.Err? {
        return settled;
      }
      var recent := Process(increments, timezone, now);
      if recent.Err? {
        return Err(TimestampFromFuture);
      }
      var history := new AccountScore(0);
      history.updatedAt, history.history[0], history.history[1] := score.updatedAt, score.today, score.yesterday;
      history.Update(recent.value, now);
      score := ScoreWindow(history.updatedAt, history.history[0], history.history[1]);
      return Ok(());
    }

    method BoostScore(products: map<ProductId, Product>, value: Score, earnedAt: Timestamp, now: Timestamp)
      returns (r: Result<()>, isApplied: bool)
      requires Known(Value(), products)
      modifies this`jars, this`score
      ensures r.Ok? <==> Updated(old(Value()), products, ApplyBooster(value, earnedAt), now).Ok?
      ensures r.Ok? ==> Value() == Updated(old(Value()), products, ApplyBooster(value, earnedAt), now).value
      ensures r.Err? ==> r.error == Updated(old(Value()), products, ApplyBooster(value, earnedAt), now).error
      ensures r.Ok? ==> isApplied == AcceptsBooster(Settle(old(Value()), products, now).value.score, DaysAgo(timezone, earnedAt, now))
    {
      isApplied := false;
      if !timezone.IsValid() {
        return Err(TimezoneRequired), false;
      }
      if !NotFuture(timezone, earnedAt, now) {
        return Err(TimestampFromFuture), false;
      }
      var settled := SettleInterest(products, now);
      if settled.Err? {
        return settled, false;
      }
      var daysAgo := DaysAgo(timezone, earnedAt, now);
      if daysAgo > 0xFFFF {
        return Err(DaysOffsetOutOfRange), false;
      }
      isApplied := ApplyBoosterTo(daysAgo, value, now);
      return Ok(()), isApplied;
    }

    method ApplyBoosterTo(daysAgo: nat, value: Score, now: Timestamp) returns (isApplied: bool)
      modifies this`score
      ensures Value() == old(Value()).(score := WithBooster(old(score), daysAgo, value, now))
      ensures isApplied == AcceptsBooster(old(score), daysAgo)
    {
      var history := new AccountScore(0);
      history.updatedAt, history.history[0], history.history[1] := score.updatedAt, score.today, score.yesterday;
      isApplied := history.ApplyBooster(daysAgo, value, now);
      score := ScoreWindow(history.updatedAt, history.history[0], history.history[1]);
    }

    method SetFeatureEnabled(products: map<ProductId, Product>, feature: Feature, isEnabled: bool, now: Timestamp) returns (r: Result<()>)
      requires Known(Value(), products)
      modifies this`jars, this`score, this`features
      ensures r.Ok? <==> Updated(old(Value()), products, SetFeature(feature, isEnabled), now).Ok?
      ensures r.Ok? ==> Value() == Updated(old(Value()), products, SetFeature(feature, isEnabled), now).value
      ensures r.Err? ==> r.error == Updated(old(Value()), products, SetFeature(feature, isEnabled), now).error
    {
      r := UpdateAccountCache(products, now);
      if r.Err? {
        return;
      }
      features := WithFeature(features, feature, isEnabled);
    }

    /** Any kind of update. */
    method Update(products: map<ProductId, Product>, update: Accounts.Update, now: Timestamp) returns (r: Result<()>)
      requires Known(Value(), products)
      modifies this`jars, this`score, this`features
      ensures r.Ok? <==> Updated(old(Value()), products, update, now).Ok?
      ensures r.Ok? ==> Value() == Updated(old(Value()), products, update, now).value
      ensures r.Err? ==> r.error == Updated(old(Value()), products, update, now).error
    {
      match update
      case SetFeature(feature, isEnabled) => r := SetFeatureEnabled(products, feature, isEnabled, now);
      case RecordScore(increments) => r := RecordIncrements(products, increments, now);
      case ApplyBooster(value, earnedAt) =>
        var isApplied;
        r, isApplied := BoostScore(products, value, earnedAt, now);
    }
  }
}
