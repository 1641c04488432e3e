/** Fees never exceed what they are taken from, as long as no account was taken
    over from elsewhere: every deposit passed its product's cap, and every product
    passed the checks of registration. */
module Fees {
  import opened Numbers
  import opened Types
  import opened MapSum
  import opened Jars
  import opened Settlement
  import opened Tickets
  import opened Accounts
  import opened Promises
  import opened Withdrawals
  import opened Claims
  import opened Restakes
  import opened Contracts
  import opened Protocol
  import opened Safety

  // --- Every deposit passed its cap -------------------------------------------

  predicate IsCapped(account: Account, products: map<ProductId, Product>) {
    forall p, i :: p in account.jars && p in products && 0 <= i < |account.jars[p].deposits| ==>
      products[p].AcceptsAmount(account.jars[p].deposits[i].principal)
  }

  predicate SameDeposits(before: Account, after: Account) {
    && before.jars.Keys == after.jars.Keys
    && forall p :: p in before.jars ==> before.jars[p].deposits == after.jars[p].deposits
  }

  lemma OneMoreIsCapped(before: Account, after: Account, products: map<ProductId, Product>, p: ProductId, deposit: Deposit)
    requires IsCapped(before, products)
    requires OneMore(before, after, p, deposit)
    requires p in products ==> products[p].AcceptsAmount(deposit.principal)
    ensures IsCapped(after, products)
  {
    forall q, i | q in after.jars && q in products && 0 <= i < |after.jars[q].deposits|
      ensures products[q].AcceptsAmount(after.jars[q].deposits[i].principal)
    {
      assert q in before.jars && i < |before.jars[q].deposits| ==> after.jars[q].deposits[i] == before.jars[q].deposits[i];
    }
  }

  lemma CleanUpIsCapped(account: Account, products: map<ProductId, Product>, parts: map<ProductId, Part>, into: ProductId, amount: TokenAmount, now: Timestamp)
    requires IsCapped(account, products)
    requires into in products && products[into].AcceptsAmount(amount)
    requires CleanUpAndDeposit(account, parts, into, amount, now).Ok?
    ensures IsCapped(CleanUpAndDeposit(account, parts, into, amount, now).value, products)
  {
    var cleaned := account.(jars := map p | p in account.jars ::
      if p in parts then WithoutPrefix(account.jars[p], parts[p].index) else account.jars[p]);
    OneMoreIsCapped(cleaned, CleanUpAndDeposit(account, parts, into, amount, now).value, products, into, Deposit(now, amount));
  }

  lemma RestakeIsCapped(env: Env, a: AccountId, account: Account, products: map<ProductId, Product>, source: Source,
                        ticket: Ticket, signature: Option<string>, target: Option<TokenAmount>, now: Timestamp)
    requires Known(account, products) && IsCapped(account, products)
    requires Restake(env, a, account, products, source, ticket, signature, target, now).Ok?
    ensures IsCapped(Restake(env, a, account, products, source, ticket, signature, target, now).value.account, products)
  {
    var parts, total, amount, fee, isSigned := RestakeIs(env, a, account, products, source, ticket, signature, target, now);
    RestakePartsAreCapped(a, account, products, parts, ticket, amount, total, fee, isSigned, now);
  }

  lemma RestakePartsAreCapped(a: AccountId, account: Account, products: map<ProductId, Product>, parts: map<ProductId, Part>, ticket: Ticket,
                              amount: TokenAmount, total: TokenAmount, fee: TokenAmount, isSigned: bool, now: Timestamp)
    requires Known(account, products) && IsCapped(account, products) && ticket.productId in products
    requires RestakeParts(a, account, products, parts, ticket, amount, total, fee, isSigned, now).Ok?
    ensures IsCapped(RestakeParts(a, account, products, parts, ticket, amount, total, fee, isSigned, now).value.account, products)
  {
    if amount == total {
      RestakePartsMove(a, account, products, parts, ticket, amount, total, fee, isSigned, now);
      RefreshKeepsDeposits(account, products, parts.Keys, now);
      var zoned := WithTimezoneFor(RefreshJars(account, products, parts.Keys, now).value, products[ticket.productId], ticket.timezone).value;
      assert IsCapped(zoned, products);
      CleanUpIsCapped(zoned, products, parts, ticket.productId, amount, now);
    } else {
      RestakePartsLock(a, account, products, parts, ticket, amount, total, fee, isSigned, now);
      RefreshKeepsDeposits(account, products, parts.Keys, now);
      assert SameDeposits(account, RestakeParts(a, account, products, parts, ticket, amount, total, fee, isSigned, now).value.account);
    }
  }

  lemma WithdrawIsCapped(a: AccountId, account: Account, products: map<ProductId, Product>, p: ProductId, now: Timestamp)
    requires Known(account, products) && IsCapped(account, products)
    requires Withdraw(a, account, products, p, now).Ok?
    ensures IsCapped(Withdraw(a, account, products, p, now).value.account, products)
  {
    assert SameDeposits(account, Withdraw(a, account, products, p, now).value.account);
  }

  lemma WithdrawAllIsCapped(a: AccountId, account: Account, products: map<ProductId, Product>, ps: Option<set<ProductId>>, now: Timestamp)
    requires Known(account, products) && IsCapped(account, products)
    requires WithdrawAll(a, account, products, ps, now).Ok?
    ensures IsCapped(WithdrawAll(a, account, products, ps, now).value.account, products)
  {
    RefreshAllKeepsHoldings(account, products, now);
    assert SameDeposits(account, WithdrawAll(a, account, products, ps, now).value.account);
  }

  lemma ClaimIsCapped(a: AccountId, account: Account, products: map<ProductId, Product>, now: Timestamp)
    requires Known(account, products) && IsCapped(account, products)
    requires ClaimTotal(a, account, products, now).Ok?
    ensures IsCapped(ClaimTotal(a, account, products, now).value.account, products)
  {
    SettleKeepsHoldings(account, products, now);
    var settled := Settle(account, products, now).value;
    WithClaimsKeepsHoldings(settled, products, now);
    assert SameDeposits(account, ClaimTotal(a, account, products, now).value.account);
  }

  lemma FinishIsCapped(c: State, promise: Promise, isSuccess: bool, now: Timestamp)
    requires !promise.AfterFee? && WellFormed(c, promise)
    requires Finish(c, promise, isSuccess, now).Ok?
    requires IsCapped(c.accounts[promise.account], c.products)
    ensures IsCapped(Finish(c, promise, isSuccess, now).value.accounts[promise.account], c.products)
  {
    var account := c.accounts[promise.account];
    match promise
    case AfterWithdraw(_, requests, _) =>
    case AfterClaim(_, _, _, _, _) =>
    case AfterRemainder(_, parts, _, _, into, restaked, _) =>
      if isSuccess {
        CleanUpIsCapped(AllWithLock(account, parts.Keys, false), c.products, parts, into, restaked, now);
      }
  }

  // --- The whole contract -----------------------------------------------------

  predicate AllCapped(c: State) {
    forall a :: a in c.accounts ==> IsCapped(c.accounts[a], c.products)
  }

  ghost predicate AllAdmissible(c: State) {
    forall p :: p in c.products ==> c.products[p].IsAdmissible()
  }

  /** Products and deposits passed their checks. */
  ghost predicate Checked(c: State) {
    AllCapped(c) && AllAdmissible(c)
  }

  lemma {:induction false} AirdropIsCapped(c: State, ticket: Ticket, amount: TokenAmount, receivers: seq<AccountId>,
                                           booster: Score, earnedAt: Option<Timestamp>, now: Timestamp)
    requires KnownState(c) && AllCapped(c)
    requires ticket.productId in c.products && c.products[ticket.productId].AcceptsAmount(amount)
    requires AirdropAll(c, ticket, amount, receivers, booster, earnedAt, now).Ok?
    ensures AllCapped(AirdropAll(c, ticket, amount, receivers, booster, earnedAt, now).value)
  {
    if receivers != [] {
      var n := |receivers| - 1;
      AirdropIsCapped(c, ticket, amount, receivers[..n], booster, earnedAt, now);
      var before := AirdropAll(c, ticket, amount, receivers[..n], booster, earnedAt, now).value;
      var account := AccountOrNew(before, receivers[n], now);
      AirdroppedAddsOne(account, c.products, ticket, amount, booster, earnedAt, now);
      OneMoreIsCapped(account, Airdropped(account, c.products, ticket, amount, booster, earnedAt, now).value, c.products,
                      ticket.productId, Deposit(now, amount));
    }
  }

  lemma {:induction false} UpdateAllIsCapped(c: State, batch: seq<(AccountId, Update)>, now: Timestamp)
    requires KnownState(c) && AllCapped(c)
    requires UpdateAll(c, batch, now).Ok?
    ensures AllCapped(UpdateAll(c, batch, now).value)
  {
    if batch != [] {
      var n := |batch| - 1;
      UpdateAllIsCapped(c, batch[..n], now);
      UpdateIsCapped(UpdateAll(c, batch[..n], now).value, batch[n].0, batch[n].1, now);
    }
  }

  lemma UpdateIsCapped(c: State, a: AccountId, update: Update, now: Timestamp)
    requires KnownState(c) && AllCapped(c)
    requires UpdateAccount(c, a, update, now).Ok?
    ensures AllCapped(UpdateAccount(c, a, update, now).value)
  {
    UpdatedKeepsHoldings(c.accounts[a], c.products, update, now);
    assert SameDeposits(c.accounts[a], Updated(c.accounts[a], c.products, update, now).value);
  }

  lemma StakeIsCapped(env: Env, c: State, a: AccountId, ticket: Ticket, signature: Option<string>, amount: TokenAmount, now: Timestamp)
    requires KnownState(c) && AllCapped(c)
    requires Stake(env, c, a, ticket, signature, amount, now).Ok?
    ensures AllCapped(Stake(env, c, a, ticket, signature, amount, now).value)
  {
    var before := AccountOrNew(c, a, now);
    StakedAddsOne(before, c.products, ticket, amount, now);
    OneMoreIsCapped(before, StakeAccepted(before, c.products, ticket, amount, now).value, c.products, ticket.productId, Deposit(now, amount));
  }

  lemma OwnersCallIsCapped(env: Env, w: World, action: Action)
    requires Inv(w) && AllCapped(w.contract)
    requires action.DoWithdraw? || action.DoWithdrawAll? || action.DoRestake? || action.DoClaim?
    requires Act(env, w, action).Ok?
    ensures AllCapped(Act(env, w, action).value.contract)
  {
    if action.DoWithdraw? || action.DoWithdrawAll? {
      WithdrawalIsCapped(env, w, action);
    } else {
      RestakeOrClaimIsCapped(env, w, action);
    }
  }

  lemma AccountIsCapped(c: State, a: AccountId, after: Account)
    requires AllCapped(c) && IsCapped(after, c.products)
    ensures AllCapped(WithAccount(c, a, after))
  {
  }

  lemma WithdrawalIsCapped(env: Env, w: World, action: Action)
    requires Inv(w) && AllCapped(w.contract)
    requires action.DoWithdraw? || action.DoWithdrawAll?
    requires Act(env, w, action).Ok?
    ensures AllCapped(Act(env, w, action).value.contract)
  {
    if action.DoWithdraw? {
      CallWithdrawIsCapped(w.contract, action.a, action.p, w.now);
    } else {
      CallWithdrawAllIsCapped(w.contract, action.a, action.ps, w.now);
    }
  }

  lemma CallWithdrawIsCapped(c: State, a: AccountId, p: ProductId, now: Timestamp)
    requires KnownState(c) && AllCapped(c)
    requires CallWithdraw(c, a, p, now).Ok?
    ensures AllCapped(CallWithdraw(c, a, p, now).value.state)
  {
    WithdrawIsCapped(a, c.accounts[a], c.products, p, now);
    AccountIsCapped(c, a, Withdraw(a, c.accounts[a], c.products, p, now).value.account);
  }

  lemma CallWithdrawAllIsCapped(c: State, a: AccountId, ps: Option<set<ProductId>>, now: Timestamp)
    requires KnownState(c) && AllCapped(c)
    requires CallWithdrawAll(c, a, ps, now).Ok?
    ensures AllCapped(CallWithdrawAll(c, a, ps, now).value.state)
  {
    WithdrawAllIsCapped(a, c.accounts[a], c.products, ps, now);
    AccountIsCapped(c, a, WithdrawAll(a, c.accounts[a], c.products, ps, now).value.account);
  }

  lemma RestakeOrClaimIsCapped(env: Env, w: World, action: Action)
    requires Inv(w) && AllCapped(w.contract)
    requires action.DoRestake? || action.DoClaim?
    requires Act(env, w, action).Ok?
    ensures AllCapped(Act(env, w, action).value.contract)
  {
    var c, now := w.contract, w.now;
    match action
    case DoRestake(a, source, ticket, signature, target) =>
      RestakeIsCapped(env, a, c.accounts[a], c.products, source, ticket, signature, target, now);
    case DoClaim(a) => ClaimIsCapped(a, c.accounts[a], c.products, now);
  }

  lemma IncomingIsCapped(env: Env, w: World, action: Action)
    requires Inv(w) && AllCapped(w.contract)
    requires action.DoStake? || action.DoAirdrop?
    requires Act(env, w, action).Ok?
    ensures AllCapped(Act(env, w, action).value.contract)
  {
    match action
    case DoStake(a, ticket, signature, amount) => StakeIsCapped(env, w.contract, a, ticket, signature, amount, w.now);
    case DoAirdrop(ticket, _, amount, receivers, booster, earnedAt) =>
      AirdropIsCapped(w.contract, ticket, amount / |receivers|, receivers, booster, earnedAt, w.now);
  }

  /** A new product finds no jar of its own. */
  lemma ProductsStayCapped(c: State, c': State)
    requires KnownState(c) && AllCapped(c)
    requires c' == c.(products := c'.products)
    requires SameTerms(c.products, c'.products)
    ensures AllCapped(c')
  {
    forall a | a in c'.accounts ensures IsCapped(c'.accounts[a], c'.products) {
      assert IsCapped(c.accounts[a], c.products);
    }
  }

  lemma ActIsCapped(env: Env, w: World, action: Action)
    requires Inv(w) && AllCapped(w.contract)
    requires Act(env, w, action).Ok? && !action.DoMigrate?
    ensures AllCapped(Act(env, w, action).value.contract)
  {
    if action.DoStake? || action.DoAirdrop? {
      IncomingIsCapped(env, w, action);
    } else if action.DoWithdraw? || action.DoWithdrawAll? || action.DoRestake? || action.DoClaim? {
      OwnersCallIsCapped(env, w, action);
    } else if action.DoRegister? || action.DoSetEnabled? || action.DoSetPublicKey? {
      ProductsStayCapped(w.contract, Act(env, w, action).value.contract);
    } else if action.Resolve? {
      ResolvedIsCapped(w, action.id, action.isSuccess);
    } else {
      OperatorIsCapped(env, w, action);
    }
  }

  lemma OperatorIsCapped(env: Env, w: World, action: Action)
    requires Inv(w) && AllCapped(w.contract)
    requires action.DoWithdrawFee? || action.DoSetFeature? || action.DoUpdateAll? || action.DoSetTimezone?
    requires Act(env, w, action).Ok?
    ensures AllCapped(Act(env, w, action).value.contract)
  {
    match action
    case DoWithdrawFee =>
    case DoSetFeature(a, feature, isEnabled) =>
      if a in w.contract.accounts {
        UpdateIsCapped(w.contract, a, SetFeature(feature, isEnabled), w.now);
      }
    case DoUpdateAll(batch) => UpdateAllIsCapped(w.contract, batch, w.now);
    case DoSetTimezone(a, timezone) =>
  }

  lemma ResolvedIsCapped(w: World, id: nat, isSuccess: bool)
    requires Inv(w) && AllCapped(w.contract) && id in w.pending
    requires Resolved(w, id, isSuccess).Ok?
    ensures AllCapped(Resolved(w, id, isSuccess).value.contract)
  {
    assert WellFormed(w.contract, w.pending[id]);
    if !w.pending[id].AfterFee? {
      FinishIsCapped(w.contract, w.pending[id], isSuccess, w.now);
    }
  }

  lemma ActKeepsProducts(env: Env, w: World, action: Action)
    requires KnownState(w.contract) && AllAdmissible(w.contract)
    requires Act(env, w, action).Ok?
    ensures AllAdmissible(Act(env, w, action).value.contract)
  {
  }

  predicate WithoutMigration(entries: seq<Entry>) {
    forall i :: 0 <= i < |entries| ==> !entries[i].action.DoMigrate?
  }

  lemma {:induction false} RunIsChecked(env: Env, start: Timestamp, entries: seq<Entry>)
    requires WithoutMigration(entries)
    ensures Inv(NewWorld(start))
    ensures Checked(Run(env, NewWorld(start), entries).contract)
  {
    NewWorldIsSound(start);
    if entries != [] {
      var n := |entries| - 1;
      RunIsChecked(env, start, entries[..n]);
      var before := Run(env, NewWorld(start), entries[..n]);
      if IsAdmissible(before, entries[n].at, entries[n].action) {
        StepIsAct(env, before, entries[n]);
        var w0 := before.(now := entries[n].at);
        if Act(env, w0, entries[n].action).Ok? {
          ActIsCapped(env, w0, entries[n].action);
          ActKeepsProducts(env, w0, entries[n].action);
        }
      }
    }
  }

  // --- Scales -----------------------------------------------------------------

  /** A power of ten fits 128 bits exactly up to the exponent that registration
      allows, so that no rate or percentage of a stored product can overflow it. */
  lemma ScaleFitsIff(exponent: nat)
    ensures Pow10(exponent) <= U128_MAX <==> exponent <= MAX_EXPONENT
  {
    PowerOfTen38();
    if exponent <= MAX_EXPONENT {
      PowersGrow(exponent, MAX_EXPONENT);
    } else {
      PowersGrow(MAX_EXPONENT + 1, exponent);
    }
  }

  lemma PowerOfTen38()
    ensures Pow10(38) == 100_000_000_000_000_000_000_000_000_000_000_000_000
    ensures Pow10(39) > U128_MAX
  {
    assert Pow10(10) == 10_000_000_000;
    PowersMultiply(10, 10);
    PowersMultiply(20, 10);
    assert Pow10(8) == 100_000_000;
    PowersMultiply(30, 8);
  }

  lemma {:induction false} PowersMultiply(a: nat, b: nat)
    ensures Pow10(a + b) == Pow10(a) * Pow10(b)
  {
    if a > 0 {
      PowersMultiply(a - 1, b);
    }
  }

  lemma {:induction false} PowersGrow(a: nat, b: nat)
    requires a <= b
    ensures Pow10(a) <= Pow10(b)
  {
    if a < b {
      PowersGrow(a, b - 1);
    }
  }

  // --- Fees -------------------------------------------------------------------

  lemma PrincipalAtLeast(deposits: seq<Deposit>, least: nat)
    requires deposits != [] && forall i :: 0 <= i < |deposits| ==> least <= deposits[i].principal
    ensures least <= Principal(deposits)
  {
  }

  /** One liquid deposit is enough to cover the fee; with none the amount is zero
      and only a positive fixed fee exceeds it. */
  lemma FeeFitsIff(account: Account, products: map<ProductId, Product>, p: ProductId, now: Timestamp)
    requires p in account.jars && p in products
    requires IsCapped(account, products) && products[p].IsAdmissible()
    ensures var request := RequestFor(products[p], account.jars[p], now);
            request.fee <= request.amount
            <==> request.index > 0 || !(products[p].withdrawalFee.Some? && products[p].withdrawalFee.value.Fix? && products[p].withdrawalFee.value.amount > 0)
  {
    var product := products[p];
    var request := RequestFor(product, account.jars[p], now);
    var liquid := account.jars[p].deposits[..request.index];
    if request.index > 0 {
      PrincipalAtLeast(liquid, product.capMin);
    }
    if product.withdrawalFee.Some? && product.withdrawalFee.value.Percent? {
      ProperFractionKeepsRemainder(product.withdrawalFee.value.percent, request.amount);
    }
  }

  /** A withdrawal of a jar with a liquid deposit never fails over its fee. */
  lemma WithdrawCoversItsFee(env: Env, start: Timestamp, entries: seq<Entry>, a: AccountId, p: ProductId)
    requires WithoutMigration(entries)
    ensures Inv(NewWorld(start))
    ensures var w := Run(env, NewWorld(start), entries);
            a in w.contract.accounts && p in w.contract.accounts[a].jars
            && LiquidIndex(w.contract.products[p].terms, w.now, w.contract.accounts[a].jars[p].deposits) > 0 ==>
              CallWithdraw(w.contract, a, p, w.now) != Err(FeeExceedsAmount)
  {
    RunIsChecked(env, start, entries);
    var w := Run(env, NewWorld(start), entries);
    if a in w.contract.accounts && p in w.contract.accounts[a].jars {
      WithdrawFitsItsFee(a, w.contract.accounts[a], w.contract.products, p, w.now);
    }
  }

  lemma WithdrawFitsItsFee(a: AccountId, account: Account, products: map<ProductId, Product>, p: ProductId, now: Timestamp)
    requires Known(account, products) && IsCapped(account, products) && p in account.jars && products[p].IsAdmissible()
    ensures LiquidIndex(products[p].terms, now, account.jars[p].deposits) > 0 ==> Withdraw(a, account, products, p, now) != Err(FeeExceedsAmount)
  {
    var locked := WithJar(account, p, WithLock(account.jars[p], true));
    if RefreshJar(locked, products, p, now).Ok? {
      FeeFitsIff(RefreshJar(locked, products, p, now).value, products, p, now);
    }
  }

  /** A withdrawal from many jars fails over a fee only if one of the wanted jars
      has no liquid deposit at all. */
  lemma WithdrawAllCoversItsFees(env: Env, start: Timestamp, entries: seq<Entry>, a: AccountId, ps: Option<set<ProductId>>)
    requires WithoutMigration(entries)
    ensures Inv(NewWorld(start))
    ensures var w := Run(env, NewWorld(start), entries);
            a in w.contract.accounts && CallWithdrawAll(w.contract, a, ps, w.now) == Err(FeeExceedsAmount) ==>
              exists p :: p in w.contract.accounts[a].jars && !w.contract.accounts[a].jars[p].isLocked && (ps.Some? ==> p in ps.value)
                          && LiquidIndex(w.contract.products[p].terms, w.now, w.contract.accounts[a].jars[p].deposits) == 0
  {
    RunIsChecked(env, start, entries);
    var w := Run(env, NewWorld(start), entries);
    if a in w.contract.accounts && CallWithdrawAll(w.contract, a, ps, w.now) == Err(FeeExceedsAmount) {
      UncoveredHasNothingLiquid(w.contract.accounts[a], w.contract.products, a, ps, w.now);
    }
  }

  lemma UncoveredHasNothingLiquid(account: Account, products: map<ProductId, Product>, a: AccountId, ps: Option<set<ProductId>>, now: Timestamp)
    requires Known(account, products) && IsCapped(account, products)
    requires forall p :: p in products ==> products[p].IsAdmissible()
    requires WithdrawAll(a, account, products, ps, now) == Err(FeeExceedsAmount)
    ensures exists p :: p in account.jars && !account.jars[p].isLocked && (ps.Some? ==> p in ps.value)
                        && LiquidIndex(products[p].terms, now, account.jars[p].deposits) == 0
  {
    var refreshed := RefreshAll(account, products, now).value;
    RefreshAllKeepsHoldings(account, products, now);
    assert SameDeposits(account, refreshed);
    var requests := RequestsFor(refreshed, products, ps.GetOr(refreshed.jars.Keys), now);
    var p :| p in requests && requests[p].fee > requests[p].amount;
    FeeFitsIff(refreshed, products, p, now);
    assert p in account.jars;
  }

  /** Restaking all jars: the fee on the remainder is the exact share of the total
      fee, rounded up by less than one unit, and never exceeds the remainder. */
  lemma RemainderFeeIsFair(account: Account, products: map<ProductId, Product>, remainder: TokenAmount, now: Timestamp)
    requires Known(account, products) && IsCapped(account, products)
    requires forall p :: p in products ==> products[p].IsAdmissible()
    requires 0 < remainder <= TotalBalance(AllParts(account, products, now))
    ensures var parts := AllParts(account, products, now);
            var fee, total, totalFee := RemainderFee(FromAllJars, parts, products, remainder), TotalBalance(parts), TotalFeeOf(parts, products);
            && totalFee * remainder <= fee * total < totalFee * remainder + total
            && fee <= remainder
  {
    var parts := AllParts(account, products, now);
    AllFeesFit(account, products, now);
    MulDivCeilIsTheLeastUpperBound(TotalFeeOf(parts, products), remainder, TotalBalance(parts));
  }

  lemma AllFeesFit(account: Account, products: map<ProductId, Product>, now: Timestamp)
    requires Known(account, products) && IsCapped(account, products)
    requires forall p :: p in products ==> products[p].IsAdmissible()
    ensures var parts := AllParts(account, products, now);
            TotalFeeOf(parts, products) <= TotalBalance(parts)
  {
    var parts := AllParts(account, products, now);
    var fees, balances := PartFees(parts, products), Balances(parts);
    forall p ensures At(fees, p) <= At(balances, p) {
      if p in parts {
        FeeFitsIff(account, products, p, now);
        assert RequestFor(products[p], account.jars[p], now) == Withdrawal(parts[p].balance, products[p].CalculateFee(parts[p].balance), parts[p].index);
      }
    }
    SumMonotone(fees, balances);
  }

  /** Restaking all jars never fails over its fee. */
  lemma RestakeAllCoversItsFee(env: Env, start: Timestamp, entries: seq<Entry>, a: AccountId, ticket: Ticket,
                               signature: Option<string>, target: Option<TokenAmount>)
    requires WithoutMigration(entries)
    ensures Inv(NewWorld(start))
    ensures var w := Run(env, NewWorld(start), entries);
            CallRestake(env, w.contract, a, FromAllJars, ticket, signature, target, w.now) != Err(FeeExceedsAmount)
  {
    RunIsChecked(env, start, entries);
    var w := Run(env, NewWorld(start), entries);
    if a in w.contract.accounts {
      RestakeAllIsCovered(env, a, w.contract.accounts[a], w.contract.products, ticket, signature, target, w.now);
    }
  }

  lemma RestakeAllIsCovered(env: Env, a: AccountId, account: Account, products: map<ProductId, Product>, ticket: Ticket,
                            signature: Option<string>, target: Option<TokenAmount>, now: Timestamp)
    requires Known(account, products) && IsCapped(account, products)
    requires forall p :: p in products ==> products[p].IsAdmissible()
    ensures Restake(env, a, account, products, FromAllJars, ticket, signature, target, now) != Err(FeeExceedsAmount)
  {
    var parts := AllParts(account, products, now);
    var total := TotalBalance(parts);
    var amount := target.GetOr(total);
    PartsAreCovered(account, products, amount, now);
    if ticket.productId in products {
      CoveredRestakePasses(a, account, products, parts, ticket, amount, total, FeeFor(FromAllJars, parts, products, amount),
                           IsSigned(env, a, account, products[ticket.productId], ticket, amount, signature, now), now);
    }
  }

  lemma PartsAreCovered(account: Account, products: map<ProductId, Product>, amount: TokenAmount, now: Timestamp)
    requires Known(account, products) && IsCapped(account, products)
    requires forall p :: p in products ==> products[p].IsAdmissible()
    ensures var parts := AllParts(account, products, now);
            amount < TotalBalance(parts) ==> FeeFor(FromAllJars, parts, products, amount) <= TotalBalance(parts) - amount
  {
    var parts := AllParts(account, products, now);
    if amount < TotalBalance(parts) {
      RemainderFeeIsFair(account, products, TotalBalance(parts) - amount, now);
    }
  }

  lemma CoveredRestakePasses(a: AccountId, account: Account, products: map<ProductId, Product>, parts: map<ProductId, Part>, ticket: Ticket,
                             amount: TokenAmount, total: TokenAmount, fee: TokenAmount, isSigned: bool, now: Timestamp)
    requires Known(account, products) && ticket.productId in products
    requires amount < total ==> fee <= total - amount
    ensures RestakeParts(a, account, products, parts, ticket, amount, total, fee, isSigned, now) != Err(FeeExceedsAmount)
  {
  }
}
