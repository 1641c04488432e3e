/** A run in which a failing claim loses interest: the increased rate is switched
    off while the claim is pending, and when the claim fails the time before the
    switch is counted at the lower rate. */
module LostInterest {
  import opened Numbers
  import opened Types
  import opened Interest
  import opened Jars
  import opened Settlement
  import opened Tickets
  import opened Accounts
  import opened Promises
  import opened Claims
  import opened Protocol
  import opened Safety
  import opened Accrual
  import opened Books
  import opened Histories

  const BOB: AccountId := "bob"
  const FIXED: ProductId := "fixed"

  /** 100 % with the increased rate, nothing without; ten milliseconds. */
  const TERMS := Fixed(10, Tier(UDecimal(1, 0), UDecimal(0, 0)))

  function ProductFor(principal: TokenAmount): Product {
    Product(FIXED, 0, principal + 1, TERMS, None, None, true)
  }

  const TICKET := Ticket(FIXED, 0, None)

  function Staked0(principal: TokenAmount): Jar {
    Jar([Deposit(0, principal)], Some(JarCache(0, 0)), false, 0)
  }

  /** Registered, switched on, staked, claimed at 5, switched off at 6, failed. */
  function TheRun(principal: TokenAmount): seq<Entry> {
    [Entry(0, DoRegister(ProductFor(principal))),
     Entry(0, DoSetFeature(BOB, IncreasedApy, true)),
     Entry(0, DoStake(BOB, TICKET, None, principal)),
     Entry(5, DoClaim(BOB)),
     Entry(6, DoSetFeature(BOB, IncreasedApy, false)),
     Entry(7, Resolve(0, false))]
  }

  lemma RateOfTerms(principal: TokenAmount)
    requires 10 * (principal + 1) <= U128_MAX
    ensures YearlyInterest(principal, TERMS.apy.Resolve(true)) == principal
    ensures YearlyInterest(principal, TERMS.apy.Resolve(false)) == 0
  {
    assert Pow10(0) == 1;
  }

  lemma InterestOfTheJar(principal: TokenAmount, flag: bool, now: Timestamp)
    requires 10 * (principal + 1) <= U128_MAX && now <= 10
    ensures EarnedUnits(principal, TERMS.apy.Resolve(flag), now) == if flag then now * principal else 0
    ensures OwedAt(TERMS, flag, Staked0(principal), now) == if flag then now * principal else 0
  {
    RateOfTerms(principal);
    assert now * principal <= 10 * principal;
    var rate, jar := PlainRate(TERMS, flag), Staked0(principal);
    JarInterestIsExact(rate, jar, now);
    assert jar.deposits[..0] == [];
    assert EarningTerm(rate, jar.cache, now, jar.deposits[0]) == now;
  }

  // --- The steps --------------------------------------------------------------

  lemma NextIs(env: Env, w: World, entry: Entry)
    requires Inv(w) && w.now <= entry.at && !entry.action.DoMigrate?
    requires Act(env, w.(now := entry.at), entry.action).Ok?
    ensures Next(env, w, entry) == Act(env, w.(now := entry.at), entry.action).value
  {
    StepIsAct(env, w, entry);
  }

  ghost predicate HasJar(w: World, principal: TokenAmount, jar: Jar, flag: bool) {
    && w.contract.products == map[FIXED := ProductFor(principal)]
    && BOB in w.contract.accounts
    && w.contract.accounts[BOB].jars == map[FIXED := jar]
    && w.contract.accounts[BOB].features == Features(flag, false)
    && !w.contract.accounts[BOB].timezone.IsValid()
  }

  lemma Opening(env: Env, principal: TokenAmount, w: World)
    requires w == NewWorld(0)
    requires 10 * (principal + 1) <= U128_MAX
    ensures Inv(w)
    ensures var run := TheRun(principal);
            var staked := Next(env, Next(env, Next(env, w, run[0]), run[1]), run[2]);
            HasJar(staked, principal, Staked0(principal), true) && staked.pending == map[] && staked.nextId == 0 && staked.now == 0
  {
    NewWorldIsSound(0);
    var run := TheRun(principal);
    assert Act(env, w, run[0].action).Ok?;
    NextIs(env, w, run[0]);
    var registered := Next(env, w, run[0]);
    NextIs(env, registered, run[1]);
    var enabled := Next(env, registered, run[1]);
    StakeOpens(env, principal, enabled);
    NextIs(env, enabled, run[2]);
  }

  lemma NothingYet(principal: TokenAmount)
    ensures PlainRefresh(TERMS, true, Jar([Deposit(0, principal)], None, false, 0), 0) == Staked0(principal)
  {
    var rate, jar := PlainRate(TERMS, true), Jar([Deposit(0, principal)], None, false, 0);
    JarInterestIsExact(rate, jar, 0);
    assert jar.deposits[..0] == [];
    assert EarningTerm(rate, jar.cache, 0, jar.deposits[0]) == 0;
    UnitsAreUnique(JarInterest(rate, jar, 0).0, JarInterest(rate, jar, 0).1, 0, 0);
  }

  lemma StakeIsAccepted(principal: TokenAmount, account: Account, products: map<ProductId, Product>)
    requires products == map[FIXED := ProductFor(principal)]
    requires account == NewAccount(0).(features := Features(true, false))
    ensures StakeAccepted(account, products, TICKET, principal, 0).Ok?
    ensures var after := StakeAccepted(account, products, TICKET, principal, 0).value;
            after == account.(nonce := 1, jars := map[FIXED := Staked0(principal)])
  {
    var deposited := Deposited(account.(nonce := 1), FIXED, principal, 0);
    assert [] + [Deposit(0, principal)] == [Deposit(0, principal)];
    assert deposited.jars == map[FIXED := Jar([Deposit(0, principal)], None, false, 0)];
    NothingYet(principal);
    PlainRateSuffices(TERMS, deposited, deposited.jars[FIXED], 0);
  }

  lemma StakeOpens(env: Env, principal: TokenAmount, w: World)
    requires Inv(w) && w.now == 0 && 10 * (principal + 1) <= U128_MAX
    requires w.contract.products == map[FIXED := ProductFor(principal)]
    requires w.contract.accounts == map[BOB := NewAccount(0).(features := Features(true, false))]
    ensures var act := Act(env, w, DoStake(BOB, TICKET, None, principal));
            && act.Ok? && HasJar(act.value, principal, Staked0(principal), true)
            && act.value.pending == w.pending && act.value.nextId == w.nextId && act.value.now == 0
  {
    StakeIsAccepted(principal, w.contract.accounts[BOB], w.contract.products);
  }

  // --- The claim and the switch -----------------------------------------------

  /** What is claimed after five milliseconds at the higher rate. */
  function InterestAt5(principal: TokenAmount): (TokenAmount, nat) {
    JarInterest(PlainRate(TERMS, true), Staked0(principal), 5)
  }

  lemma ClaimIsMade(principal: TokenAmount)
    requires MS_IN_YEAR <= 5 * principal && 10 * (principal + 1) <= U128_MAX
    ensures InterestAt5(principal).0 > 0
  {
    InterestOfTheJar(principal, true, 5);
    JarInterestIsExact(PlainRate(TERMS, true), Staked0(principal), 5);
  }

  ghost predicate Waits(w: World, id: nat, principal: TokenAmount) {
    && w.pending.Keys == {id}
    && w.pending[id].AfterClaim? && w.pending[id].account == BOB
    && w.pending[id].rollback == map[FIXED := Rollback(Staked0(principal))]
    && w.pending[id].amounts == map[FIXED := InterestAt5(principal).0]
    && !w.pending[id].timezone.IsValid()
  }

  /** A claim on an account with one jar that has interest. */
  lemma LoneClaim(a: AccountId, account: Account, products: map<ProductId, Product>, p: ProductId, jar: Jar, now: Timestamp,
                  interest: TokenAmount, remainder: nat)
    requires Known(account, products) && account.jars == map[p := jar] && !jar.isLocked
    requires !account.timezone.IsValid() && CanAccrue(account, products[p].terms, jar, now)
    requires InterestOf(account, products, p, now) == (interest, remainder) && interest != 0
    ensures ClaimTotal(a, account, products, now).Ok?
    ensures var outcome := ClaimTotal(a, account, products, now).value;
            && outcome.account.jars == map[p := WithLock(Claimed(jar, remainder, now), true)]
            && outcome.account.timezone == account.timezone && outcome.account.features == account.features
            && outcome.promise == Some(AfterClaim(a, map[p := Rollback(jar)], map[p := interest], account.score, account.timezone))
  {
    LoneClaimable(account, products, p, jar, now, interest, remainder);
    assert map[p := interest].Keys == {p};
    assert Rollbacks(account, {p}) == map[p := Rollback(jar)];
    assert Settle(account, products, now) == Ok(account);
  }

  lemma LoneClaimable(account: Account, products: map<ProductId, Product>, p: ProductId, jar: Jar, now: Timestamp,
                      interest: TokenAmount, remainder: nat)
    requires Known(account, products) && account.jars == map[p := jar] && !jar.isLocked
    requires CanAccrue(account, products[p].terms, jar, now)
    requires InterestOf(account, products, p, now) == (interest, remainder) && interest != 0
    ensures AllAccrue(account, products, now)
    ensures Claimable(account, products, now) == map[p := interest]
    ensures AllWithLock(WithClaims(account, products, now), {p}, true).jars == map[p := WithLock(Claimed(jar, remainder, now), true)]
    ensures AllWithLock(WithClaims(account, products, now), {p}, true).features == account.features
    ensures AllWithLock(WithClaims(account, products, now), {p}, true).timezone == account.timezone
  {
    assert Claimable(account, products, now) == map[p := interest];
  }

  lemma ClaimWaits(env: Env, principal: TokenAmount, w: World)
    requires Inv(w) && w.now == 5 && w.pending == map[]
    requires MS_IN_YEAR <= 5 * principal && 10 * (principal + 1) <= U128_MAX
    requires HasJar(w, principal, Staked0(principal), true)
    ensures var act := Act(env, w, DoClaim(BOB));
            && act.Ok? && act.value.now == 5 && Waits(act.value, w.nextId, principal)
            && HasJar(act.value, principal, WithLock(Claimed(Staked0(principal), InterestAt5(principal).1, 5), true), true)
  {
    var account, products, interest := w.contract.accounts[BOB], w.contract.products, InterestAt5(principal);
    ClaimIsMade(principal);
    PlainRateSuffices(TERMS, account, Staked0(principal), 5);
    LoneClaim(BOB, account, products, FIXED, Staked0(principal), 5, interest.0, interest.1);
    CallIsClaim(env, w, BOB);
    WaitsAfterOpening(w, principal, ClaimTotal(BOB, account, products, 5).value);
  }

  lemma WaitsAfterOpening(w: World, principal: TokenAmount, outcome: Outcome)
    requires w.now == 5 && w.pending == map[] && w.contract.products == map[FIXED := ProductFor(principal)]
    requires MS_IN_YEAR <= 5 * principal && 10 * (principal + 1) <= U128_MAX
    requires outcome.account.jars == map[FIXED := WithLock(Claimed(Staked0(principal), InterestAt5(principal).1, 5), true)]
    requires outcome.account.features == Features(true, false) && !outcome.account.timezone.IsValid()
    requires outcome.promise.Some? && outcome.promise.value.AfterClaim? && outcome.promise.value.account == BOB
    requires outcome.promise.value.rollback == map[FIXED := Rollback(Staked0(principal))]
    requires outcome.promise.value.amounts == map[FIXED := InterestAt5(principal).0] && !outcome.promise.value.timezone.IsValid()
    ensures var w' := AfterOpening(w, BOB, outcome);
            && w'.now == 5 && Waits(w', w.nextId, principal)
            && HasJar(w', principal, WithLock(Claimed(Staked0(principal), InterestAt5(principal).1, 5), true), true)
  {
  }

  lemma CallIsClaim(env: Env, w: World, a: AccountId)
    requires Inv(w) && a in w.contract.accounts
    requires ClaimTotal(a, w.contract.accounts[a], w.contract.products, w.now).Ok?
    ensures var outcome := ClaimTotal(a, w.contract.accounts[a], w.contract.products, w.now).value;
            Act(env, w, DoClaim(a)) == Ok(AfterOpening(w, a, outcome))
  {
  }

  lemma SwitchedAccount(account: Account, products: map<ProductId, Product>, p: ProductId, jar: Jar, now: Timestamp)
    requires Known(account, products) && account.jars == map[p := jar] && products[p].terms.Fixed?
    requires !account.timezone.IsValid()
    ensures var updated := Updated(account, products, SetFeature(IncreasedApy, false), now);
            && updated.Ok? && updated.value.timezone == account.timezone
            && updated.value.features == account.features.(increasedApy := false)
            && updated.value.jars == map[p := Refreshed(RateFor(products[p].terms, account, now), jar, now)]
  {
    assert Settle(account, products, now) == Ok(account);
    assert account.jars.Keys == {p};
  }

  /** Some jar with the same deposits is left, at the lower rate. */
  ghost predicate SwitchedOff(w: World, principal: TokenAmount) {
    exists jar: Jar :: jar.deposits == [Deposit(0, principal)] && HasJar(w, principal, jar, false)
  }

  lemma SwitchOff(env: Env, principal: TokenAmount, w: World, jar: Jar)
    requires Inv(w) && HasJar(w, principal, jar, true) && jar.deposits == [Deposit(0, principal)]
    ensures var act := Act(env, w, DoSetFeature(BOB, IncreasedApy, false));
            act.Ok? && act.value.now == w.now && act.value.pending == w.pending && SwitchedOff(act.value, principal)
  {
    var account, products := w.contract.accounts[BOB], w.contract.products;
    SwitchedAccount(account, products, FIXED, jar, w.now);
    var jar' := Refreshed(RateFor(TERMS, account, w.now), jar, w.now);
    assert jar'.deposits == jar.deposits;
    assert HasJar(Act(env, w, DoSetFeature(BOB, IncreasedApy, false)).value, principal, jar', false);
  }

  lemma FailurePutsBack(env: Env, principal: TokenAmount, w: World, id: nat)
    requires Inv(w) && SwitchedOff(w, principal) && Waits(w, id, principal)
    ensures var act := Act(env, w, Resolve(id, false));
            act.Ok? && act.value.now == w.now && HasJar(act.value, principal, Staked0(principal), false)
  {
    var jar: Jar :| jar.deposits == [Deposit(0, principal)] && HasJar(w, principal, jar, false);
    LonePutBack(w.contract.accounts[BOB], w.pending[id], FIXED, jar, Staked0(principal));
  }

  lemma LonePutBack(account: Account, promise: Promise, p: ProductId, jar: Jar, saved: Jar)
    requires account.jars == map[p := jar] && jar.deposits == saved.deposits && !saved.isLocked
    requires promise.AfterClaim? && promise.rollback == map[p := Rollback(saved)]
    ensures FinishClaim(account, promise, false).Ok?
    ensures FinishClaim(account, promise, false).value == account.(jars := map[p := saved], timezone := promise.timezone, score := promise.score)
  {
    assert FinishClaim(account, promise, false).value.jars == map[p := saved];
  }

  // --- The run ----------------------------------------------------------------

  lemma OneEntry(env: Env, w: World, entries: seq<Entry>, k: nat, a: AccountId)
    requires Inv(w) && k < |entries| && !entries[k].action.DoMigrate?
    ensures Run(env, w, entries[..k + 1]) == Next(env, Run(env, w, entries[..k]), entries[k])
    ensures TogglesAfter(env, w, entries[..k + 1], a)
         == TogglesAfter(env, w, entries[..k], a) + TogglesBy(env, Run(env, w, entries[..k]), entries[k], a)
  {
    assert entries[..k + 1][..k] == entries[..k];
  }

  lemma FirstHalf(env: Env, principal: TokenAmount)
    requires 10 * (principal + 1) <= U128_MAX
    ensures Inv(NewWorld(0))
    ensures var w := Run(env, NewWorld(0), TheRun(principal)[..3]);
            && HasJar(w, principal, Staked0(principal), true)
            && w.pending == map[] && w.nextId == 0 && w.now == 0
            && TogglesAfter(env, NewWorld(0), TheRun(principal)[..3], BOB) == [Toggle(0, true)]
  {
    var w, run := NewWorld(0), TheRun(principal);
    Opening(env, principal, w);
    assert run[..0] == [];
    OneEntry(env, w, run, 0, BOB);
    OneEntry(env, w, run, 1, BOB);
    OneEntry(env, w, run, 2, BOB);
    assert Act(env, w, run[0].action).Ok?;
    NextIs(env, w, run[0]);
    assert TogglesAfter(env, w, run[..2], BOB) == [Toggle(0, true)];
  }

  lemma ClaimEntry(env: Env, principal: TokenAmount, w: World)
    requires MS_IN_YEAR <= 5 * principal && 10 * (principal + 1) <= U128_MAX
    requires Inv(w) && HasJar(w, principal, Staked0(principal), true) && w.pending == map[] && w.nextId == 0 && w.now == 0
    ensures var next := Next(env, w, Entry(5, DoClaim(BOB)));
            && next.now == 5 && Waits(next, 0, principal)
            && HasJar(next, principal, WithLock(Claimed(Staked0(principal), InterestAt5(principal).1, 5), true), true)
    ensures TogglesBy(env, w, Entry(5, DoClaim(BOB)), BOB) == []
  {
    LaterKeepsInv(w, 5);
    ClaimWaits(env, principal, w.(now := 5));
    NextIs(env, w, Entry(5, DoClaim(BOB)));
  }

  lemma SwitchEntry(env: Env, principal: TokenAmount, w: World, jar: Jar)
    requires Inv(w) && HasJar(w, principal, jar, true) && jar.deposits == [Deposit(0, principal)] && w.now == 5
    ensures var entry := Entry(6, DoSetFeature(BOB, IncreasedApy, false));
            var next := Next(env, w, entry);
            && next.now == 6 && next.pending == w.pending && SwitchedOff(next, principal)
            && TogglesBy(env, w, entry, BOB) == [Toggle(6, false)]
  {
    LaterKeepsInv(w, 6);
    SwitchOff(env, principal, w.(now := 6), jar);
    NextIs(env, w, Entry(6, DoSetFeature(BOB, IncreasedApy, false)));
  }

  lemma FailEntry(env: Env, principal: TokenAmount, w: World)
    requires Inv(w) && SwitchedOff(w, principal) && Waits(w, 0, principal) && w.now == 6
    ensures HasJar(Next(env, w, Entry(7, Resolve(0, false))), principal, Staked0(principal), false)
    ensures TogglesBy(env, w, Entry(7, Resolve(0, false)), BOB) == []
  {
    LaterKeepsInv(w, 7);
    FailurePutsBack(env, principal, w.(now := 7), 0);
    NextIs(env, w, Entry(7, Resolve(0, false)));
  }

  lemma ThenClaimed(env: Env, principal: TokenAmount)
    requires MS_IN_YEAR <= 5 * principal && 10 * (principal + 1) <= U128_MAX
    requires Inv(NewWorld(0))
    ensures var w := Run(env, NewWorld(0), TheRun(principal)[..4]);
            && w.now == 5 && Waits(w, 0, principal)
            && HasJar(w, principal, WithLock(Claimed(Staked0(principal), InterestAt5(principal).1, 5), true), true)
            && TogglesAfter(env, NewWorld(0), TheRun(principal)[..4], BOB) == [Toggle(0, true)]
  {
    FirstHalf(env, principal);
    ClaimEntry(env, principal, Run(env, NewWorld(0), TheRun(principal)[..3]));
    OneEntry(env, NewWorld(0), TheRun(principal), 3, BOB);
  }

  lemma ThenSwitchedOff(env: Env, principal: TokenAmount)
    requires MS_IN_YEAR <= 5 * principal && 10 * (principal + 1) <= U128_MAX
    requires Inv(NewWorld(0))
    ensures var w := Run(env, NewWorld(0), TheRun(principal)[..5]);
            && w.now == 6 && Waits(w, 0, principal) && SwitchedOff(w, principal)
            && TogglesAfter(env, NewWorld(0), TheRun(principal)[..5], BOB) == [Toggle(0, true), Toggle(6, false)]
  {
    ThenClaimed(env, principal);
    SwitchEntry(env, principal, Run(env, NewWorld(0), TheRun(principal)[..4]),
                WithLock(Claimed(Staked0(principal), InterestAt5(principal).1, 5), true));
    OneEntry(env, NewWorld(0), TheRun(principal), 4, BOB);
  }

  lemma ThenFailed(env: Env, principal: TokenAmount)
    requires MS_IN_YEAR <= 5 * principal && 10 * (principal + 1) <= U128_MAX
    requires Inv(NewWorld(0))
    ensures HasJar(Run(env, NewWorld(0), TheRun(principal)), principal, Staked0(principal), false)
    ensures TogglesAfter(env, NewWorld(0), TheRun(principal), BOB) == [Toggle(0, true), Toggle(6, false)]
  {
    ThenSwitchedOff(env, principal);
    FailEntry(env, principal, Run(env, NewWorld(0), TheRun(principal)[..5]));
    OneEntry(env, NewWorld(0), TheRun(principal), 5, BOB);
    assert TheRun(principal)[..6] == TheRun(principal);
  }

  lemma SixMilliseconds(principal: TokenAmount)
    requires 10 * (principal + 1) <= U128_MAX
    ensures TotalEarned(TERMS, [Toggle(0, true), Toggle(6, false)], [Deposit(0, principal)], 10) == 6 * principal
  {
    var toggles := [Toggle(0, true), Toggle(6, false)];
    RateOfTerms(principal);
    assert toggles == [Toggle(0, true)] + [Toggle(6, false)] && [Toggle(0, true)][..0] == [];
    ToggledFlags([Toggle(0, true)], 6, false);
    IntegralAgrees(principal, TERMS.apy, toggles, [Toggle(0, true)], 0, 6);
    IntegralConstant(principal, TERMS.apy, [Toggle(0, true)], 0, 6, true);
    IntegralConstant(principal, TERMS.apy, toggles, 6, 4, false);
    IntegralSplit(principal, TERMS.apy, toggles, 0, 6, 4);
    assert [Deposit(0, principal)][..0] == [];
  }

  /** A claim is really made, and when it fails the jar owes nothing for its whole
      term, although for six of its ten milliseconds the rate was 100 %. */
  lemma ToggleDuringFailingClaimLosesInterest(env: Env, principal: TokenAmount)
    requires MS_IN_YEAR <= 5 * principal && 10 * (principal + 1) <= U128_MAX
    ensures Inv(NewWorld(0))
    ensures var run, toggles := TheRun(principal), TogglesAfter(env, NewWorld(0), TheRun(principal), BOB);
            var claimed, end := Run(env, NewWorld(0), run[..4]), Run(env, NewWorld(0), run);
            && claimed.pending.Keys == {0} && claimed.pending[0].AfterClaim?
            && FIXED in claimed.pending[0].amounts && claimed.pending[0].amounts[FIXED] > 0
            && BOB in end.contract.accounts && end.contract.accounts[BOB].jars.Keys == {FIXED}
            && var jar := end.contract.accounts[BOB].jars[FIXED];
               && jar.deposits == [Deposit(0, principal)]
               && OwedAt(TERMS, end.contract.accounts[BOB].features.increasedApy, jar, 10) == 0
               && TotalEarned(TERMS, toggles, jar.deposits, 10) == 6 * principal
  {
    FirstHalf(env, principal);
    ThenClaimed(env, principal);
    ThenFailed(env, principal);
    ClaimIsMade(principal);
    InterestOfTheJar(principal, false, 10);
    SixMilliseconds(principal);
  }
}
