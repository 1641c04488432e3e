/** What a withdrawal or a restake takes out of which jars, and what it charges, in
    numbers. Maturity, amounts and fees are written down here a second time, from the
    terms of the product and the deposits alone. */
module Charges {
  import opened Numbers
  import opened Types
  import opened MapSum
  import opened Jars
  import opened Tickets
  import opened Accounts
  import opened Promises
  import opened Withdrawals
  import opened Restakes
  import opened Contracts
  import opened Protocol

  // --- Matured deposits -------------------------------------------------------

  predicate HasMatured(terms: Terms, deposit: Deposit, now: Timestamp) {
    match terms
    case Fixed(lockup, _) => deposit.createdAt + lockup < now
    case Flexible(_) => true
    case ScoreBased(_, lockup) => deposit.createdAt + lockup < now
    case TieredScoreBased(_, lockup) => deposit.createdAt + lockup < now
  }

  function MaturedPrincipal(terms: Terms, deposits: seq<Deposit>, now: Timestamp): TokenAmount {
    if deposits == [] then 0 else
      var n := |deposits| - 1;
      MaturedPrincipal(terms, deposits[..n], now) + if HasMatured(terms, deposits[n], now) then deposits[n].principal else 0
  }

  function MaturedCount(terms: Terms, deposits: seq<Deposit>, now: Timestamp): (k: nat)
    ensures k <= |deposits|
  {
    if deposits == [] then 0 else
      var n := |deposits| - 1;
      MaturedCount(terms, deposits[..n], now) + if HasMatured(terms, deposits[n], now) then 1 else 0
  }

  lemma {:induction false} LiquidIsMatured(terms: Terms, deposits: seq<Deposit>, now: Timestamp)
    ensures Principal(LiquidDeposits(terms, now, deposits)) == MaturedPrincipal(terms, deposits, now)
    ensures |LiquidDeposits(terms, now, deposits)| == MaturedCount(terms, deposits, now)
  {
    if deposits != [] {
      var n := |deposits| - 1;
      LiquidIsMatured(terms, deposits[..n], now);
      var before := LiquidDeposits(terms, now, deposits[..n]);
      PrincipalAppend(before, [deposits[n]]);
      assert [deposits[n]][..0] == [];
      assert terms.IsLiquid(deposits[n], now) <==> HasMatured(terms, deposits[n], now);
      assert LiquidDeposits(terms, now, deposits) == if HasMatured(terms, deposits[n], now) then before + [deposits[n]] else before;
    }
  }

  lemma TakesTheMatured(terms: Terms, deposits: seq<Deposit>, now: Timestamp)
    requires Sorted(deposits)
    ensures LiquidBalance(terms, now, deposits) == (MaturedPrincipal(terms, deposits, now), MaturedCount(terms, deposits, now))
  {
    LiquidBalanceIsComplete(terms, now, deposits);
    LiquidIsMatured(terms, deposits, now);
  }

  // --- Fees -------------------------------------------------------------------

  /** No fee, a fixed one, or the percentage of the amount rounded down. */
  predicate IsFeeOn(product: Product, amount: TokenAmount, fee: TokenAmount) {
    match product.withdrawalFee
    case None => fee == 0
    case Some(Fix(fixed)) => fee == fixed
    case Some(Percent(percent)) =>
      fee * Pow10(percent.exponent) <= amount * percent.significand < (fee + 1) * Pow10(percent.exponent)
  }

  lemma FeesAreCharged(product: Product, amount: TokenAmount)
    ensures IsFeeOn(product, amount, product.CalculateFee(amount))
  {
  }

  lemma FeeIsUnique(product: Product, amount: TokenAmount, fee: TokenAmount)
    requires IsFeeOn(product, amount, fee)
    ensures fee == product.CalculateFee(amount)
  {
    if product.withdrawalFee.Some? && product.withdrawalFee.value.Percent? {
      var percent := product.withdrawalFee.value.percent;
      assert (fee + 1) * Pow10(percent.exponent) == fee * Pow10(percent.exponent) + Pow10(percent.exponent);
      QuotientUnique(amount * percent.significand, Pow10(percent.exponent), fee);
    }
  }

  // --- Withdrawals ------------------------------------------------------------

  /** The request is for all that has matured, and for its fee. */
  predicate IsRequest(product: Product, jar: Jar, request: Withdrawal, now: Timestamp) {
    && request.amount == MaturedPrincipal(product.terms, jar.deposits, now)
    && request.index == MaturedCount(product.terms, jar.deposits, now)
    && IsFeeOn(product, request.amount, request.fee)
  }

  lemma RequestsAreMade(product: Product, jar: Jar, now: Timestamp)
    requires Sorted(jar.deposits)
    ensures IsRequest(product, jar, RequestFor(product, jar, now), now)
  {
    TakesTheMatured(product.terms, jar.deposits, now);
    FeesAreCharged(product, RequestFor(product, jar, now).amount);
  }

  /** The outcome is a withdrawal from these jars: they are locked now, no other lock
      and no deposit changed, and the promise asks for what has matured in each. */
  predicate TakesFrom(a: AccountId, account: Account, products: map<ProductId, Product>, taken: set<ProductId>, outcome: Outcome, now: Timestamp)
    requires Known(account, products)
  {
    && taken <= account.jars.Keys == outcome.account.jars.Keys
    && (forall p :: p in account.jars ==>
          && outcome.account.jars[p].deposits == account.jars[p].deposits
          && (outcome.account.jars[p].isLocked <==> account.jars[p].isLocked || p in taken))
    && (outcome.promise.None? <==> taken == {})
    && (outcome.promise.Some? ==>
          && outcome.promise.value.AfterWithdraw? && outcome.promise.value.account == a
          && outcome.promise.value.requests.Keys == taken
          && AreRequests(account, products, outcome.promise.value.requests, now))
  }

  predicate AreRequests(account: Account, products: map<ProductId, Product>, requests: map<ProductId, Withdrawal>, now: Timestamp)
    requires Known(account, products)
  {
    forall p :: p in requests ==>
      p in account.jars && IsRequest(products[p], account.jars[p], requests[p], now) && requests[p].fee <= requests[p].amount
  }

  /** The jars a withdrawal from all jars, or from those of a list, takes from. */
  function UnlockedOf(account: Account, ps: Option<set<ProductId>>): set<ProductId> {
    set p | p in account.jars && !account.jars[p].isLocked && (ps.Some? ==> p in ps.value)
  }

  function UnlockedIn(account: Account, wanted: set<ProductId>): set<ProductId>
    requires wanted <= account.jars.Keys
  {
    set p | p in wanted && !account.jars[p].isLocked
  }

  lemma WithdrawTakesFrom(a: AccountId, account: Account, products: map<ProductId, Product>, p: ProductId, now: Timestamp)
    requires Known(account, products) && Ordered(account, now)
    requires Withdraw(a, account, products, p, now).Ok?
    ensures p in account.jars && !account.jars[p].isLocked
    ensures TakesFrom(a, account, products, {p}, Withdraw(a, account, products, p, now).value, now)
  {
    assert InOrder(account.jars[p].deposits, now);
    RequestsAreMade(products[p], account.jars[p], now);
  }

  lemma LocksOnly(account: Account, refreshed: Account, taken: set<ProductId>, now: Timestamp)
    requires SameHoldings(account, refreshed, now)
    ensures var jars := AllWithLock(refreshed, taken, true).jars;
            && jars.Keys == account.jars.Keys
            && forall p :: p in account.jars ==>
                 && jars[p].deposits == account.jars[p].deposits
                 && (jars[p].isLocked <==> account.jars[p].isLocked || p in taken)
  {
  }

  lemma AllRequestsAreMade(account: Account, refreshed: Account, products: map<ProductId, Product>, wanted: set<ProductId>, now: Timestamp)
    requires Known(account, products) && Ordered(account, now) && SameHoldings(account, refreshed, now)
    requires wanted <= account.jars.Keys
    requires FeesCovered(RequestsFor(refreshed, products, wanted, now))
    ensures AreRequests(account, products, RequestsFor(refreshed, products, wanted, now), now)
  {
    forall p | p in account.jars ensures IsRequest(products[p], account.jars[p], RequestFor(products[p], refreshed.jars[p], now), now) {
      assert InOrder(account.jars[p].deposits, now);
      RequestsAreMade(products[p], refreshed.jars[p], now);
    }
  }

  lemma WithdrawAllTakesFrom(a: AccountId, account: Account, products: map<ProductId, Product>, ps: Option<set<ProductId>>, now: Timestamp)
    requires Known(account, products) && Ordered(account, now)
    requires WithdrawAll(a, account, products, ps, now).Ok?
    ensures ps.Some? ==> ps.value <= account.jars.Keys
    ensures TakesFrom(a, account, products, UnlockedOf(account, ps), WithdrawAll(a, account, products, ps, now).value, now)
  {
    RefreshAllKeepsHoldings(account, products, now);
    var refreshed := RefreshAll(account, products, now).value;
    var wanted := if ps.Some? then ps.value else account.jars.Keys;
    WithdrawAllIs(a, account, products, ps, now);
    OutcomeTakesFrom(a, account, refreshed, products, wanted, now);
    assert UnlockedIn(account, wanted) == UnlockedOf(account, ps);
  }

  /** A withdrawal from these jars of a refreshed account. */
  function RequestsOutcome(a: AccountId, refreshed: Account, products: map<ProductId, Product>, wanted: set<ProductId>, now: Timestamp): Outcome
    requires Known(refreshed, products) && wanted <= refreshed.jars.Keys
  {
    var requests := RequestsFor(refreshed, products, wanted, now);
    if requests == map[] then Outcome(refreshed, None)
    else Outcome(AllWithLock(refreshed, requests.Keys, true), Some(AfterWithdraw(a, requests, now)))
  }

  lemma WithdrawAllIs(a: AccountId, account: Account, products: map<ProductId, Product>, ps: Option<set<ProductId>>, now: Timestamp)
    requires Known(account, products) && RefreshAll(account, products, now).Ok?
    ensures var refreshed, wanted := RefreshAll(account, products, now).value, if ps.Some? then ps.value else account.jars.Keys;
            && Known(refreshed, products) && refreshed.jars.Keys == account.jars.Keys
            && (WithdrawAll(a, account, products, ps, now).Ok?
                <==> wanted <= account.jars.Keys && FeesCovered(RequestsFor(refreshed, products, wanted, now)))
            && (WithdrawAll(a, account, products, ps, now).Ok? ==>
                  WithdrawAll(a, account, products, ps, now).value == RequestsOutcome(a, refreshed, products, wanted, now))
  {
    RefreshAllKeepsHoldings(account, products, now);
  }

  lemma OutcomeTakesFrom(a: AccountId, account: Account, refreshed: Account, products: map<ProductId, Product>, wanted: set<ProductId>, now: Timestamp)
    requires Known(account, products) && Ordered(account, now) && SameHoldings(account, refreshed, now)
    requires wanted <= account.jars.Keys && FeesCovered(RequestsFor(refreshed, products, wanted, now))
    ensures TakesFrom(a, account, products, UnlockedIn(account, wanted), RequestsOutcome(a, refreshed, products, wanted, now), now)
  {
    var requests := RequestsFor(refreshed, products, wanted, now);
    assert requests.Keys == UnlockedIn(account, wanted);
    AllRequestsAreMade(account, refreshed, products, wanted, now);
    LocksOnly(account, refreshed, requests.Keys, now);
  }

  /** The account has this outcome, and a promise of it is what was pending last. */
  ghost predicate Becomes(w: World, w': World, a: AccountId, outcome: Outcome) {
    && a in w.contract.accounts && w'.contract == w.contract.(accounts := w.contract.accounts[a := outcome.account])
    && w'.now == w.now
    && if outcome.promise.None? then w'.pending == w.pending && w'.nextId == w.nextId
       else w'.pending == w.pending[w.nextId := outcome.promise.value] && w'.nextId == w.nextId + 1
  }

  /** An accepted withdrawal takes all that has matured in one unlocked jar. */
  lemma WithdrawTakes(env: Env, w: World, a: AccountId, p: ProductId) returns (outcome: Outcome)
    requires Inv(w) && Act(env, w, DoWithdraw(a, p)).Ok?
    ensures Becomes(w, Act(env, w, DoWithdraw(a, p)).value, a, outcome)
    ensures p in w.contract.accounts[a].jars && !w.contract.accounts[a].jars[p].isLocked
    ensures TakesFrom(a, w.contract.accounts[a], w.contract.products, {p}, outcome, w.now)
  {
    outcome := Withdraw(a, w.contract.accounts[a], w.contract.products, p, w.now).value;
    WithdrawTakesFrom(a, w.contract.accounts[a], w.contract.products, p, w.now);
  }

  /** Without a list every unlocked jar is taken from, with a list those of it; and no
      promise is left exactly if there is none. */
  lemma WithdrawAllTakes(env: Env, w: World, a: AccountId, ps: Option<set<ProductId>>) returns (outcome: Outcome)
    requires Inv(w) && Act(env, w, DoWithdrawAll(a, ps)).Ok?
    ensures Becomes(w, Act(env, w, DoWithdrawAll(a, ps)).value, a, outcome)
    ensures ps.Some? ==> ps.value <= w.contract.accounts[a].jars.Keys
    ensures TakesFrom(a, w.contract.accounts[a], w.contract.products, UnlockedOf(w.contract.accounts[a], ps), outcome, w.now)
  {
    outcome := WithdrawAll(a, w.contract.accounts[a], w.contract.products, ps, w.now).value;
    WithdrawAllTakesFrom(a, w.contract.accounts[a], w.contract.products, ps, w.now);
  }

  // --- Restakes ---------------------------------------------------------------

  /** One jar, or all unlocked ones in which something has matured. */
  function SourcesOf(account: Account, products: map<ProductId, Product>, source: Source, now: Timestamp): set<ProductId>
    requires Known(account, products)
  {
    match source
    case FromJar(p) => {p}
    case FromAllJars =>
      set p | p in account.jars && !account.jars[p].isLocked && MaturedPrincipal(products[p].terms, account.jars[p].deposits, now) > 0
  }

  function MaturedOf(account: Account, products: map<ProductId, Product>, taken: set<ProductId>, now: Timestamp): map<ProductId, TokenAmount>
    requires Known(account, products) && taken <= account.jars.Keys
  {
    map p | p in taken :: MaturedPrincipal(products[p].terms, account.jars[p].deposits, now)
  }

  /** All that has matured in a jar. */
  function MaturedPart(product: Product, jar: Jar, now: Timestamp): Part {
    Part(MaturedPrincipal(product.terms, jar.deposits, now), MaturedCount(product.terms, jar.deposits, now))
  }

  predicate AreParts(account: Account, products: map<ProductId, Product>, taken: set<ProductId>, parts: map<ProductId, Part>, now: Timestamp)
    requires Known(account, products) && taken <= account.jars.Keys
  {
    && parts.Keys == taken
    && forall p :: p in taken ==> !account.jars[p].isLocked && parts[p] == MaturedPart(products[p], account.jars[p], now)
  }

  lemma PartsAreMatured(account: Account, products: map<ProductId, Product>, source: Source, now: Timestamp)
    requires Known(account, products) && Ordered(account, now)
    requires Parts(account, products, source, now).Ok?
    ensures var parts, taken := Parts(account, products, source, now).value, SourcesOf(account, products, source, now);
            && taken <= account.jars.Keys
            && AreParts(account, products, taken, parts, now)
            && Balances(parts) == MaturedOf(account, products, taken, now)
  {
    forall p | p in account.jars
      ensures PartFor(products[p], account.jars[p], now) == MaturedPart(products[p], account.jars[p], now)
    {
      assert InOrder(account.jars[p].deposits, now);
      TakesTheMatured(products[p].terms, account.jars[p].deposits, now);
    }
    match source
    case FromJar(_) =>
    case FromAllJars => AllPartsAreMatured(account, products, now);
  }

  lemma AllPartsAreMatured(account: Account, products: map<ProductId, Product>, now: Timestamp)
    requires Known(account, products)
    requires forall p :: p in account.jars ==> PartFor(products[p], account.jars[p], now) == MaturedPart(products[p], account.jars[p], now)
    ensures var parts, taken := AllParts(account, products, now), SourcesOf(account, products, FromAllJars, now);
            AreParts(account, products, taken, parts, now) && Balances(parts) == MaturedOf(account, products, taken, now)
  {
    assert AllParts(account, products, now).Keys == SourcesOf(account, products, FromAllJars, now);
  }

  /** The fee on a remainder: one jar's own fee; for several jars the share of their
      fees that the remainder is of the whole, rounded up. */
  ghost predicate IsFeeOnRemainder(account: Account, products: map<ProductId, Product>, source: Source, remainder: TokenAmount, fee: TokenAmount, now: Timestamp)
    requires Known(account, products) && SourcesOf(account, products, source, now) <= account.jars.Keys
  {
    match source
    case FromJar(p) => IsFeeOn(products[p], remainder, fee)
    case FromAllJars =>
      var balances := MaturedOf(account, products, SourcesOf(account, products, source, now), now);
      exists fees: map<ProductId, TokenAmount> :: AreFeesOn(products, balances, fees) && IsShareOf(Sum(fees), remainder, Sum(balances), fee)
  }

  predicate AreFeesOn(products: map<ProductId, Product>, balances: map<ProductId, TokenAmount>, fees: map<ProductId, TokenAmount>)
    requires balances.Keys <= products.Keys
  {
    fees.Keys == balances.Keys && forall p :: p in fees ==> IsFeeOn(products[p], balances[p], fees[p])
  }

  /** The share `whole * part / total`, rounded up. */
  predicate IsShareOf(whole: nat, part: nat, total: nat, share: nat) {
    whole * part <= share * total < whole * part + total
  }

  lemma RemainderIsCharged(account: Account, products: map<ProductId, Product>, source: Source, parts: map<ProductId, Part>, amount: TokenAmount, now: Timestamp)
    requires Known(account, products) && SourcesOf(account, products, source, now) <= account.jars.Keys
    requires AreParts(account, products, SourcesOf(account, products, source, now), parts, now)
    requires Balances(parts) == MaturedOf(account, products, SourcesOf(account, products, source, now), now)
    requires amount < TotalBalance(parts)
    ensures IsFeeOnRemainder(account, products, source, TotalBalance(parts) - amount, FeeFor(source, parts, products, amount), now)
  {
    var remainder := TotalBalance(parts) - amount;
    match source
    case FromJar(p) => FeesAreCharged(products[p], remainder);
    case FromAllJars =>
      var fees := PartFees(parts, products);
      forall p | p in fees ensures IsFeeOn(products[p], parts[p].balance, fees[p]) {
        FeesAreCharged(products[p], parts[p].balance);
      }
      assert AreFeesOn(products, Balances(parts), fees);
      MulDivCeilIsTheLeastUpperBound(Sum(fees), remainder, TotalBalance(parts));
  }

  /** The matured deposits of these jars have left, and one deposit entered. */
  predicate MovesInto(account: Account, products: map<ProductId, Product>, taken: set<ProductId>, into: ProductId, amount: TokenAmount,
                      after: Account, now: Timestamp)
    requires Known(account, products) && taken <= account.jars.Keys
  {
    && after.jars.Keys == account.jars.Keys + {into}
    && after.nonce == account.nonce + 1
    && forall p :: p in after.jars ==>
         && after.jars[p].isLocked == (p in account.jars && account.jars[p].isLocked)
         && after.jars[p].deposits == StillThere(account, products, taken, p, now) + if p == into then [Deposit(now, amount)] else []
  }

  function StillThere(account: Account, products: map<ProductId, Product>, taken: set<ProductId>, p: ProductId, now: Timestamp): seq<Deposit>
    requires Known(account, products) && taken <= account.jars.Keys
  {
    if p in taken then account.jars[p].deposits[MaturedCount(products[p].terms, account.jars[p].deposits, now)..]
    else if p in account.jars then account.jars[p].deposits else []
  }

  /** The jars are locked, and the promise moves the amount and pays out the rest. */
  ghost predicate WaitsFor(a: AccountId, account: Account, products: map<ProductId, Product>, source: Source, into: ProductId, amount: TokenAmount,
                           outcome: Outcome, now: Timestamp)
    requires Known(account, products) && SourcesOf(account, products, source, now) <= account.jars.Keys
  {
    var taken := SourcesOf(account, products, source, now);
    && outcome.account.jars.Keys == account.jars.Keys && outcome.account.nonce == account.nonce
    && (forall p :: p in account.jars ==>
          && outcome.account.jars[p].deposits == account.jars[p].deposits
          && (outcome.account.jars[p].isLocked <==> account.jars[p].isLocked || p in taken))
    && outcome.promise.Some? && outcome.promise.value.AfterRemainder?
    && var promise := outcome.promise.value;
       && promise.account == a && promise.into == into && promise.restaked == amount
       && AreParts(account, products, taken, promise.parts, now)
       && promise.remainder == Sum(MaturedOf(account, products, taken, now)) - amount
       && IsFeeOnRemainder(account, products, source, promise.remainder, promise.fee, now) && promise.fee <= promise.remainder
  }

  /** Without a target all is restaked, at once; with less, the rest is paid out first. */
  ghost predicate IsRestake(a: AccountId, account: Account, products: map<ProductId, Product>, source: Source, into: ProductId,
                           target: Option<TokenAmount>, outcome: Outcome, now: Timestamp)
    requires Known(account, products)
  {
    var taken := SourcesOf(account, products, source, now);
    && taken <= account.jars.Keys && (forall p :: p in taken ==> !account.jars[p].isLocked)
    && var total := Sum(MaturedOf(account, products, taken, now));
       var amount := if target.Some? then target.value else total;
       && 0 < amount <= total && into in products && products[into].isEnabled && products[into].capMin <= amount <= products[into].capMax
       && if amount == total then outcome.promise.None? && MovesInto(account, products, taken, into, amount, outcome.account, now)
          else WaitsFor(a, account, products, source, into, amount, outcome, now)
  }

  lemma MoveMoves(account: Account, ready: Account, products: map<ProductId, Product>, taken: set<ProductId>, parts: map<ProductId, Part>,
                  into: ProductId, amount: TokenAmount, now: Timestamp)
    requires Known(account, products) && taken <= account.jars.Keys && SameHoldings(account, ready, now) && ready.nonce == account.nonce
    requires AreParts(account, products, taken, parts, now)
    requires CleanUpAndDeposit(ready, parts, into, amount, now).Ok?
    ensures MovesInto(account, products, taken, into, amount, CleanUpAndDeposit(ready, parts, into, amount, now).value, now)
  {
    var after := CleanUpAndDeposit(ready, parts, into, amount, now).value;
    forall p | p in after.jars
      ensures after.jars[p].isLocked == (p in account.jars && account.jars[p].isLocked)
      ensures after.jars[p].deposits == StillThere(account, products, taken, p, now) + if p == into then [Deposit(now, amount)] else []
    {
      assert p in account.jars ==> ready.jars[p].deposits == account.jars[p].deposits && ready.jars[p].isLocked == account.jars[p].isLocked;
    }
  }

  lemma RestakeMoves(a: AccountId, account: Account, products: map<ProductId, Product>, taken: set<ProductId>, parts: map<ProductId, Part>,
                     ticket: Ticket, total: TokenAmount, fee: TokenAmount, isSigned: bool, now: Timestamp)
    requires Known(account, products) && ticket.productId in products && taken <= account.jars.Keys
    requires AreParts(account, products, taken, parts, now)
    requires RestakeParts(a, account, products, parts, ticket, total, total, fee, isSigned, now).Ok?
    ensures var outcome := RestakeParts(a, account, products, parts, ticket, total, total, fee, isSigned, now).value;
            outcome.promise.None? && MovesInto(account, products, taken, ticket.productId, total, outcome.account, now)
  {
    RefreshKeepsDeposits(account, products, parts.Keys, now);
    RestakePartsMove(a, account, products, parts, ticket, total, total, fee, isSigned, now);
    var zoned := WithTimezoneFor(RefreshJars(account, products, parts.Keys, now).value, products[ticket.productId], ticket.timezone).value;
    MoveMoves(account, zoned, products, taken, parts, ticket.productId, total, now);
  }

  lemma RestakeWaits(a: AccountId, account: Account, products: map<ProductId, Product>, source: Source, parts: map<ProductId, Part>,
                     ticket: Ticket, amount: TokenAmount, isSigned: bool, now: Timestamp)
    requires Known(account, products) && ticket.productId in products && SourcesOf(account, products, source, now) <= account.jars.Keys
    requires AreParts(account, products, SourcesOf(account, products, source, now), parts, now)
    requires Balances(parts) == MaturedOf(account, products, SourcesOf(account, products, source, now), now)
    requires amount != TotalBalance(parts)
    requires RestakeParts(a, account, products, parts, ticket, amount, TotalBalance(parts), FeeFor(source, parts, products, amount), isSigned, now).Ok?
    ensures WaitsFor(a, account, products, source, ticket.productId, amount,
                     RestakeParts(a, account, products, parts, ticket, amount, TotalBalance(parts), FeeFor(source, parts, products, amount), isSigned, now).value,
                     now)
  {
    var fee := FeeFor(source, parts, products, amount);
    RefreshKeepsDeposits(account, products, parts.Keys, now);
    RestakePartsLock(a, account, products, parts, ticket, amount, TotalBalance(parts), fee, isSigned, now);
    RemainderIsCharged(account, products, source, parts, amount, now);
    LocksOnly(account, RefreshJars(account, products, parts.Keys, now).value, parts.Keys, now);
  }

  lemma RestakeIsAllowed(a: AccountId, account: Account, products: map<ProductId, Product>, parts: map<ProductId, Part>, ticket: Ticket,
                         amount: TokenAmount, total: TokenAmount, fee: TokenAmount, isSigned: bool, now: Timestamp)
    requires Known(account, products) && ticket.productId in products
    requires RestakeParts(a, account, products, parts, ticket, amount, total, fee, isSigned, now).Ok?
    ensures 0 < amount <= total && products[ticket.productId].capMin <= amount <= products[ticket.productId].capMax && isSigned
  {
  }

  lemma RestakeRestakes(env: Env, a: AccountId, account: Account, products: map<ProductId, Product>, source: Source,
                        ticket: Ticket, signature: Option<string>, target: Option<TokenAmount>, now: Timestamp)
    requires Known(account, products) && Ordered(account, now)
    requires Restake(env, a, account, products, source, ticket, signature, target, now).Ok?
    ensures IsRestake(a, account, products, source, ticket.productId, target,
                     Restake(env, a, account, products, source, ticket, signature, target, now).value, now)
  {
    var parts, total, amount, fee, isSigned := RestakeIs(env, a, account, products, source, ticket, signature, target, now);
    PartsAreMatured(account, products, source, now);
    RestakeIsAllowed(a, account, products, parts, ticket, amount, total, fee, isSigned, now);
    if amount == total {
      RestakeMoves(a, account, products, SourcesOf(account, products, source, now), parts, ticket, total, fee, isSigned, now);
    } else {
      RestakeWaits(a, account, products, source, parts, ticket, amount, isSigned, now);
    }
  }

  /** An accepted restake moves exactly what has matured, in one jar or in all unlocked
      ones, or the wanted part of it. */
  lemma RestakeTakes(env: Env, w: World, a: AccountId, source: Source, ticket: Ticket, signature: Option<string>, target: Option<TokenAmount>)
    returns (outcome: Outcome)
    requires Inv(w) && Act(env, w, DoRestake(a, source, ticket, signature, target)).Ok?
    ensures Becomes(w, Act(env, w, DoRestake(a, source, ticket, signature, target)).value, a, outcome)
    ensures IsRestake(a, w.contract.accounts[a], w.contract.products, source, ticket.productId, target, outcome, w.now)
  {
    outcome := Restake(env, a, w.contract.accounts[a], w.contract.products, source, ticket, signature, target, w.now).value;
    RestakeRestakes(env, a, w.contract.accounts[a], w.contract.products, source, ticket, signature, target, w.now);
  }
}
