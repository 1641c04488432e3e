/** The cached interest of a fixed-term jar against the thing it speeds up: the
    integral, millisecond by millisecond, of the rate in force over the life of
    every deposit the jar has ever held. */
module Accrual {
  import opened Numbers
  import opened Types
  import opened Interest
  import opened Jars

  // --- The rate over time -----------------------------------------------------

  /** From `at` on the account has, or has not, the increased rate. */
  datatype Toggle = Toggle(at: Timestamp, isEnabled: bool)

  /** The step function that a list of toggles defines: the last one that has
      come into force decides, and without any the rate is not increased. */
  function FlagAt(toggles: seq<Toggle>, t: Timestamp): bool {
    if toggles == [] then false
    else if toggles[|toggles| - 1].at <= t then toggles[|toggles| - 1].isEnabled
    else FlagAt(toggles[..|toggles| - 1], t)
  }

  ghost predicate ConstantFrom(toggles: seq<Toggle>, from: Timestamp, flag: bool) {
    forall t: nat :: t >= from ==> FlagAt(toggles, t) == flag
  }

  /** The toggles in force strictly before a moment, then one fixed setting. */
  function Before(toggles: seq<Toggle>, moment: Timestamp): seq<Toggle> {
    if toggles == [] then [] else
      var last := toggles[|toggles| - 1];
      Before(toggles[..|toggles| - 1], moment) + if last.at < moment then [last] else []
  }

  function Rebased(toggles: seq<Toggle>, moment: Timestamp, flag: bool): seq<Toggle> {
    Before(toggles, moment) + [Toggle(moment, flag)]
  }

  lemma {:induction false} FlagAtBefore(toggles: seq<Toggle>, moment: Timestamp, t: Timestamp)
    requires t < moment
    ensures FlagAt(Before(toggles, moment), t) == FlagAt(toggles, t)
  {
    if toggles != [] {
      var n := |toggles| - 1;
      FlagAtBefore(toggles[..n], moment, t);
      var kept := Before(toggles[..n], moment);
      if toggles[n].at < moment {
        assert (kept + [toggles[n]])[..|kept|] == kept;
      } else {
        assert kept + [] == kept;
      }
    }
  }

  lemma RebasedFlags(toggles: seq<Toggle>, moment: Timestamp, flag: bool)
    ensures forall t: nat :: t < moment ==> FlagAt(Rebased(toggles, moment, flag), t) == FlagAt(toggles, t)
    ensures ConstantFrom(Rebased(toggles, moment, flag), moment, flag)
  {
    var kept := Before(toggles, moment);
    var rebased := Rebased(toggles, moment, flag);
    assert rebased[..|rebased| - 1] == kept;
    forall t: nat | t < moment ensures FlagAt(rebased, t) == FlagAt(toggles, t) {
      FlagAtBefore(toggles, moment, t);
    }
  }

  lemma ToggledFlags(toggles: seq<Toggle>, now: Timestamp, flag: bool)
    ensures forall t: nat :: t < now ==> FlagAt(toggles + [Toggle(now, flag)], t) == FlagAt(toggles, t)
    ensures ConstantFrom(toggles + [Toggle(now, flag)], now, flag)
  {
    var after := toggles + [Toggle(now, flag)];
    assert after[..|after| - 1] == toggles;
  }

  // --- The integral -----------------------------------------------------------

  /** Units a principal earns over a stretch of milliseconds, one at a time. */
  function Integral(principal: TokenAmount, apy: Configurable<UDecimal>, toggles: seq<Toggle>, from: Timestamp, length: nat): nat {
    if length == 0 then 0 else
      Integral(principal, apy, toggles, from, length - 1)
      + YearlyInterest(principal, apy.Resolve(FlagAt(toggles, from + length - 1)))
  }

  lemma {:induction false} IntegralSplit(principal: TokenAmount, apy: Configurable<UDecimal>, toggles: seq<Toggle>, from: Timestamp, a: nat, b: nat)
    ensures Integral(principal, apy, toggles, from, a + b)
         == Integral(principal, apy, toggles, from, a) + Integral(principal, apy, toggles, from + a, b)
  {
    if b > 0 {
      IntegralSplit(principal, apy, toggles, from, a, b - 1);
    }
  }

  lemma {:induction false} IntegralConstant(principal: TokenAmount, apy: Configurable<UDecimal>, toggles: seq<Toggle>, from: Timestamp, length: nat, flag: bool)
    requires ConstantFrom(toggles, from, flag)
    ensures Integral(principal, apy, toggles, from, length) == length * YearlyInterest(principal, apy.Resolve(flag))
  {
    if length > 0 {
      IntegralConstant(principal, apy, toggles, from, length - 1, flag);
      var yearly := YearlyInterest(principal, apy.Resolve(flag));
      assert (length - 1) * yearly + yearly == length * yearly;
    }
  }

  lemma {:induction false} IntegralAgrees(principal: TokenAmount, apy: Configurable<UDecimal>, toggles: seq<Toggle>, toggles': seq<Toggle>,
                                          from: Timestamp, length: nat)
    requires forall t: nat :: from <= t < from + length ==> FlagAt(toggles, t) == FlagAt(toggles', t)
    ensures Integral(principal, apy, toggles, from, length) == Integral(principal, apy, toggles', from, length)
  {
    if length > 0 {
      IntegralAgrees(principal, apy, toggles, toggles', from, length - 1);
    }
  }

  /** Milliseconds a deposit has earned for by a moment. */
  function EarningLength(terms: Terms, deposit: Deposit, moment: Timestamp): nat
    requires terms.Fixed?
  {
    Min(SaturatingSub(moment, deposit.createdAt), terms.lockupTerm)
  }

  /** What a deposit has earned by a moment: from its creation to the end of its
      lockup term at the latest. */
  function EarnedBy(terms: Terms, toggles: seq<Toggle>, deposit: Deposit, moment: Timestamp): nat
    requires terms.Fixed?
  {
    Integral(deposit.principal, terms.apy, toggles, deposit.createdAt, EarningLength(terms, deposit, moment))
  }

  function TotalEarned(terms: Terms, toggles: seq<Toggle>, deposits: seq<Deposit>, moment: Timestamp): nat
    requires terms.Fixed?
  {
    if deposits == [] then 0 else
      TotalEarned(terms, toggles, deposits[..|deposits| - 1], moment)
      + EarnedBy(terms, toggles, deposits[|deposits| - 1], moment)
  }

  lemma {:induction false} TotalEarnedAppend(terms: Terms, toggles: seq<Toggle>, a: seq<Deposit>, b: seq<Deposit>, moment: Timestamp)
    requires terms.Fixed?
    ensures TotalEarned(terms, toggles, a + b, moment) == TotalEarned(terms, toggles, a, moment) + TotalEarned(terms, toggles, b, moment)
  {
    if b == [] {
      assert a + b == a;
    } else {
      assert (a + b)[..|a + b| - 1] == a + b[..|b| - 1];
      TotalEarnedAppend(terms, toggles, a, b[..|b| - 1], moment);
    }
  }

  lemma {:induction false} TotalEarnedAgrees(terms: Terms, toggles: seq<Toggle>, toggles': seq<Toggle>, deposits: seq<Deposit>, moment: Timestamp)
    requires terms.Fixed?
    requires forall t: nat :: t < moment ==> FlagAt(toggles, t) == FlagAt(toggles', t)
    ensures TotalEarned(terms, toggles, deposits, moment) == TotalEarned(terms, toggles', deposits, moment)
  {
    if deposits != [] {
      var deposit := deposits[|deposits| - 1];
      var length := EarningLength(terms, deposit, moment);
      TotalEarnedAgrees(terms, toggles, toggles', deposits[..|deposits| - 1], moment);
      assert length > 0 ==> deposit.createdAt + length <= moment;
      if length > 0 {
        IntegralAgrees(deposit.principal, terms.apy, toggles, toggles', deposit.createdAt, length);
      }
    }
  }

  // --- One deposit over one cached stretch ------------------------------------

  /** A whole term's interest fits 128 bits at either rate. */
  ghost predicate Unsaturated(terms: Terms, principal: TokenAmount)
    requires terms.Fixed?
  {
    forall flag :: terms.lockupTerm * YearlyInterest(principal, terms.apy.Resolve(flag)) <= U128_MAX
  }

  /** The rate a fixed-term jar is charged with. */
  predicate IsRate(rate: Rate, terms: Terms, flag: bool)
    requires terms.Fixed?
  {
    rate.terms == terms && rate.apy == terms.apy.Resolve(flag)
  }

  /** The cache counts up to `upTo`; without a cache no deposit is older. */
  predicate CountsUpTo(cache: Option<JarCache>, deposit: Deposit, upTo: Timestamp) {
    if cache.Some? then cache.value.updatedAt == upTo else upTo <= deposit.createdAt
  }

  lemma StretchLengths(rate: Rate, terms: Terms, cache: Option<JarCache>, deposit: Deposit, upTo: Timestamp, now: Timestamp)
    requires terms.Fixed? && rate.terms == terms
    requires upTo <= now && CountsUpTo(cache, deposit, upTo)
    ensures EarningLength(terms, deposit, now) == EarningLength(terms, deposit, upTo) + EarningTerm(rate, cache, now, deposit)
    ensures EarningTerm(rate, cache, now, deposit) > 0 ==> upTo <= deposit.createdAt + EarningLength(terms, deposit, upTo)
  {
  }

  /** The closed form for one stretch is the integral over that stretch. */
  lemma StretchIsIntegral(rate: Rate, terms: Terms, toggles: seq<Toggle>, flag: bool, cache: Option<JarCache>,
                          deposit: Deposit, upTo: Timestamp, now: Timestamp)
    requires terms.Fixed? && IsRate(rate, terms, flag)
    requires upTo <= now && ConstantFrom(toggles, upTo, flag)
    requires CountsUpTo(cache, deposit, upTo)
    requires Unsaturated(terms, deposit.principal)
    ensures EarnedBy(terms, toggles, deposit, now)
         == EarnedBy(terms, toggles, deposit, upTo)
            + EarnedUnits(deposit.principal, rate.apy, EarningTerm(rate, cache, now, deposit))
  {
    StretchLengths(rate, terms, cache, deposit, upTo, now);
    var before := EarningLength(terms, deposit, upTo);
    var term := EarningTerm(rate, cache, now, deposit);
    IntegralSplit(deposit.principal, terms.apy, toggles, deposit.createdAt, before, term);
    if term > 0 {
      IntegralConstant(deposit.principal, terms.apy, toggles, deposit.createdAt + before, term, flag);
    }
    TermFits(term, terms.lockupTerm, YearlyInterest(deposit.principal, rate.apy));
  }

  lemma TermFits(term: nat, lockup: nat, yearly: nat)
    requires term <= lockup && lockup * yearly <= U128_MAX
    ensures SaturatedProduct(term, yearly) == term * yearly
  {
    assert term * yearly <= lockup * yearly;
  }

  lemma {:induction false} StretchesAreIntegrals(rate: Rate, terms: Terms, toggles: seq<Toggle>, flag: bool, cache: Option<JarCache>,
                                                 deposits: seq<Deposit>, upTo: Timestamp, now: Timestamp)
    requires terms.Fixed? && IsRate(rate, terms, flag)
    requires upTo <= now && ConstantFrom(toggles, upTo, flag)
    requires forall i :: 0 <= i < |deposits| ==> CountsUpTo(cache, deposits[i], upTo) && Unsaturated(terms, deposits[i].principal)
    ensures TotalEarned(terms, toggles, deposits, now)
         == TotalEarned(terms, toggles, deposits, upTo) + SumUnits(rate, cache, now, deposits)
  {
    if deposits != [] {
      var n := |deposits| - 1;
      StretchesAreIntegrals(rate, terms, toggles, flag, cache, deposits[..n], upTo, now);
      StretchIsIntegral(rate, terms, toggles, flag, cache, deposits[n], upTo, now);
    }
  }

  /** A deposit whose term has run out by `upTo` earns nothing more. */
  predicate HasRunOut(terms: Terms, deposit: Deposit, upTo: Timestamp)
    requires terms.Fixed?
  {
    deposit.createdAt + terms.lockupTerm <= upTo
  }

  lemma {:induction false} RunOutEarnNoMore(terms: Terms, toggles: seq<Toggle>, deposits: seq<Deposit>, upTo: Timestamp, now: Timestamp)
    requires terms.Fixed? && upTo <= now
    requires forall i :: 0 <= i < |deposits| ==> HasRunOut(terms, deposits[i], upTo)
    ensures TotalEarned(terms, toggles, deposits, now) == TotalEarned(terms, toggles, deposits, upTo)
  {
    if deposits != [] {
      RunOutEarnNoMore(terms, toggles, deposits[..|deposits| - 1], upTo, now);
    }
  }

  // --- The book of a jar ------------------------------------------------------

  /** All deposits ever put into the jar, the interest paid out or in flight, the
      remainder dropped by closing, the moment up to which the cache counts (and
      counted when the claim in flight was made), and the rate over time. A jar that
      was migrated brought what it owed then, and its deposits count from there. */
  datatype Book = Book(
    history: seq<Deposit>,
    claimed: TokenAmount,
    inFlight: TokenAmount,
    dropped: nat,
    upTo: Timestamp,
    savedUpTo: Timestamp,
    toggles: seq<Toggle>,
    brought: nat,
    earnedBefore: nat)

  const EMPTY_BOOK := Book([], 0, 0, 0, 0, 0, [], 0, 0)

  function Gone(jar: Jar, book: Book): seq<Deposit>
    requires |jar.deposits| <= |book.history|
  {
    book.history[..|book.history| - |jar.deposits|]
  }

  /** Everything accounted for, in units. */
  function Accounted(jar: Jar, book: Book): nat {
    OwedUnits(jar) + (book.claimed + book.inFlight) * MS_IN_YEAR + book.dropped
  }

  /** The main equation and what it needs: what is cached, carried, claimed, in
      flight or dropped is exactly what was brought and the integral over every
      deposit ever made. */
  ghost predicate Balanced(terms: Terms, jar: Jar, book: Book, flag: bool, now: Timestamp)
    requires terms.Fixed?
  {
    && |jar.deposits| <= |book.history|
    && book.history == Gone(jar, book) + jar.deposits
    && book.upTo <= now
    && ConstantFrom(book.toggles, book.upTo, flag)
    && (jar.cache.Some? ==> jar.cache.value.updatedAt == book.upTo)
    && (forall i :: 0 <= i < |Gone(jar, book)| ==> HasRunOut(terms, Gone(jar, book)[i], book.upTo))
    && (forall i :: 0 <= i < |jar.deposits| ==>
          && CountsUpTo(jar.cache, jar.deposits[i], book.upTo)
          && jar.deposits[i].createdAt <= now
          && Unsaturated(terms, jar.deposits[i].principal))
    && Accounted(jar, book) + book.earnedBefore == book.brought + TotalEarned(terms, book.toggles, book.history, book.upTo)
  }

  /** Advancing the cached moment keeps the integral in step. */
  lemma AdvanceEarned(terms: Terms, jar: Jar, book: Book, flag: bool, rate: Rate, at: Timestamp, now: Timestamp)
    requires terms.Fixed? && IsRate(rate, terms, flag)
    requires Balanced(terms, jar, book, flag, at) && at <= now
    ensures book.brought + TotalEarned(terms, book.toggles, book.history, now)
         == Accounted(jar, book) + book.earnedBefore + SumUnits(rate, jar.cache, now, jar.deposits)
  {
    var gone := Gone(jar, book);
    TotalEarnedAppend(terms, book.toggles, gone, jar.deposits, book.upTo);
    TotalEarnedAppend(terms, book.toggles, gone, jar.deposits, now);
    RunOutEarnNoMore(terms, book.toggles, gone, book.upTo, now);
    StretchesAreIntegrals(rate, terms, book.toggles, flag, jar.cache, jar.deposits, book.upTo, now);
  }

  lemma RefreshBalanced(terms: Terms, jar: Jar, book: Book, flag: bool, rate: Rate, now: Timestamp)
    requires terms.Fixed? && IsRate(rate, terms, flag)
    requires Balanced(terms, jar, book, flag, now)
    ensures Balanced(terms, Refreshed(rate, jar, now), book.(upTo := now), flag, now)
  {
    AdvanceEarned(terms, jar, book, flag, rate, now, now);
    JarInterestIsExact(rate, jar, now);
    var jar', book' := Refreshed(rate, jar, now), book.(upTo := now);
    assert Gone(jar', book') == Gone(jar, book);
  }

  lemma ClaimBalanced(terms: Terms, jar: Jar, book: Book, flag: bool, rate: Rate, now: Timestamp)
    requires terms.Fixed? && IsRate(rate, terms, flag)
    requires Balanced(terms, jar, book, flag, now) && book.inFlight == 0
    ensures var (interest, remainder) := JarInterest(rate, jar, now);
            Balanced(terms, Claimed(jar, remainder, now), book.(upTo := now, savedUpTo := book.upTo, inFlight := interest), flag, now)
  {
    RefreshBalanced(terms, jar, book, flag, rate, now);
    var (interest, remainder) := JarInterest(rate, jar, now);
    ClearedBalanced(terms, Refreshed(rate, jar, now), book.(upTo := now), flag, now, book.upTo);
  }

  /** Moving the cached interest in flight keeps the balance. */
  lemma ClearedBalanced(terms: Terms, jar: Jar, book: Book, flag: bool, now: Timestamp, saved: Timestamp)
    requires terms.Fixed? && jar.cache.Some? && book.upTo == now && book.inFlight == 0
    requires Balanced(terms, jar, book, flag, now)
    ensures Balanced(terms, Claimed(jar, jar.claimRemainder, now),
                     book.(savedUpTo := saved, inFlight := jar.cache.value.interest), flag, now)
  {
    var interest := jar.cache.value.interest;
    var jar', book' := Claimed(jar, jar.claimRemainder, now), book.(savedUpTo := saved, inFlight := interest);
    assert Gone(jar', book') == Gone(jar, book);
    assert (book.claimed + interest) * MS_IN_YEAR == book.claimed * MS_IN_YEAR + interest * MS_IN_YEAR;
  }

  lemma PushBalanced(terms: Terms, jar: Jar, book: Book, flag: bool, amount: TokenAmount, now: Timestamp)
    requires terms.Fixed? && Unsaturated(terms, amount)
    requires Balanced(terms, jar, book, flag, now)
    ensures Balanced(terms, WithDeposit(jar, Deposit(now, amount)), book.(history := book.history + [Deposit(now, amount)]), flag, now)
  {
    var deposit := Deposit(now, amount);
    var jar', book' := WithDeposit(jar, deposit), book.(history := book.history + [deposit]);
    assert Gone(jar', book') == Gone(jar, book);
    assert book'.history == Gone(jar, book) + jar'.deposits;
    assert book'.history[..|book'.history| - 1] == book.history;
  }

  /** Taking out deposits that have run out loses nothing. */
  lemma DropBalanced(terms: Terms, jar: Jar, book: Book, flag: bool, k: nat, now: Timestamp)
    requires terms.Fixed? && k <= |jar.deposits|
    requires Balanced(terms, jar, book, flag, now)
    requires forall i :: 0 <= i < k ==> HasRunOut(terms, jar.deposits[i], book.upTo)
    ensures Balanced(terms, WithoutPrefix(jar, k), book, flag, now)
  {
    var jar' := WithoutPrefix(jar, k);
    assert Gone(jar', book) == Gone(jar, book) + jar.deposits[..k];
  }

  /** Closing an empty jar drops its remainder and nothing else. */
  lemma CloseBalanced(terms: Terms, jar: Jar, book: Book, flag: bool, now: Timestamp)
    requires terms.Fixed? && ShouldClose(jar)
    requires Balanced(terms, jar, book, flag, now)
    ensures Balanced(terms, DEFAULT_JAR, book.(dropped := book.dropped + jar.claimRemainder), flag, now)
  {
    assert Gone(DEFAULT_JAR, book) == Gone(jar, book);
  }

  /** An empty uncached jar may count from any later moment. */
  lemma CatchUpBalanced(terms: Terms, jar: Jar, book: Book, flag: bool, now: Timestamp)
    requires terms.Fixed? && jar.cache.None? && jar.deposits == []
    requires Balanced(terms, jar, book, flag, now)
    ensures Balanced(terms, jar, book.(upTo := now), flag, now)
  {
    assert Gone(jar, book) == book.history;
    RunOutEarnNoMore(terms, book.toggles, book.history, book.upTo, now);
  }

  lemma ToggleBalanced(terms: Terms, jar: Jar, book: Book, flag: bool, flag': bool, now: Timestamp)
    requires terms.Fixed? && book.upTo == now
    requires Balanced(terms, jar, book, flag, now)
    ensures Balanced(terms, jar, book.(toggles := book.toggles + [Toggle(now, flag')]), flag', now)
  {
    ToggledFlags(book.toggles, now, flag');
    TotalEarnedAgrees(terms, book.toggles, book.toggles + [Toggle(now, flag')], book.history, now);
  }

  /** What a failing claim leaves: the cached moment of before, and from there on
      the setting of today. */
  function Restored(book: Book, flag: bool): Book {
    book.(inFlight := 0, upTo := book.savedUpTo, toggles := Rebased(book.toggles, book.savedUpTo, flag))
  }

  /** Until the claim is resolved the snapshot stays as good as it was, whatever
      the setting becomes. */
  lemma SnapshotBalanced(terms: Terms, jar: Jar, book: Book, flag: bool, book': Book, flag': bool, now: Timestamp)
    requires terms.Fixed?
    requires Balanced(terms, jar, book, flag, now)
    requires book' == book.(toggles := book'.toggles)
    requires forall t: nat :: t < book.upTo ==> FlagAt(book'.toggles, t) == FlagAt(book.toggles, t)
    requires ConstantFrom(book'.toggles, book.upTo, flag')
    ensures Balanced(terms, jar, book', flag', now)
  {
    TotalEarnedAgrees(terms, book.toggles, book'.toggles, book.history, book.upTo);
    assert Gone(jar, book') == Gone(jar, book);
  }

  lemma LaterBalanced(terms: Terms, jar: Jar, book: Book, flag: bool, now: Timestamp, later: Timestamp)
    requires terms.Fixed? && now <= later
    requires Balanced(terms, jar, book, flag, now)
    ensures Balanced(terms, jar, book, flag, later)
  {
  }
}
