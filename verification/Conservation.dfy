/** No token is made or lost: what came in is in the jars, has been paid out, or is
    a fee, over every run and for every outcome of the transfers. */
module Conservation {
  import opened Numbers
  import opened Types
  import opened MapSum
  import opened Jars
  import opened Settlement
  import opened Tickets
  import opened Accounts
  import opened Promises
  import opened Withdrawals
  import opened Claims
  import opened Restakes
  import opened Contracts
  import opened Protocol
  import opened Safety

  // --- One account ------------------------------------------------------------

  lemma SameHoldingsSamePrincipal(before: Account, after: Account, now: Timestamp)
    requires SameHoldings(before, after, now)
    ensures AccountPrincipal(after) == AccountPrincipal(before)
  {
    assert PrincipalsOf(after) == PrincipalsOf(before);
  }

  lemma OneMoreAddsPrincipal(before: Account, after: Account, p: ProductId, deposit: Deposit)
    requires OneMore(before, after, p, deposit)
    ensures AccountPrincipal(after) == AccountPrincipal(before) + deposit.principal
  {
    var principals := PrincipalsOf(before);
    OneMoreEverywhere(before, after, p, deposit);
    SumUpdate(principals, p, At(principals, p) + deposit.principal);
  }

  lemma OneMoreEverywhere(before: Account, after: Account, p: ProductId, deposit: Deposit)
    requires OneMore(before, after, p, deposit)
    ensures var principals := PrincipalsOf(before);
            PrincipalsOf(after) == principals[p := At(principals, p) + deposit.principal]
  {
    var principals := PrincipalsOf(before);
    var updated := principals[p := At(principals, p) + deposit.principal];
    assert PrincipalsOf(after).Keys == updated.Keys;
    forall q | q in updated ensures PrincipalsOf(after)[q] == updated[q] {
      OneMoreAt(before, after, p, deposit, q);
    }
  }

  lemma OneMoreAt(before: Account, after: Account, p: ProductId, deposit: Deposit, q: ProductId)
    requires OneMore(before, after, p, deposit)
    ensures At(PrincipalsOf(after), q) == At(PrincipalsOf(before), q) + if q == p then deposit.principal else 0
  {
    if q == p {
      OnePrincipal(JarOf(before, p).deposits, deposit);
    }
  }

  lemma OnePrincipal(deposits: seq<Deposit>, deposit: Deposit)
    ensures Principal(deposits + [deposit]) == Principal(deposits) + deposit.principal
  {
    assert (deposits + [deposit])[..|deposits|] == deposits;
  }

  /** The held deposits are taken out of their jars and nothing else is. */
  predicate TakesOut(before: Account, after: Account, parts: map<ProductId, Part>) {
    && after.jars.Keys <= before.jars.Keys
    && parts.Keys <= before.jars.Keys
    && forall p :: p in before.jars ==>
         var left := if p in parts && parts[p].index <= |before.jars[p].deposits| then before.jars[p].deposits[parts[p].index..]
                     else before.jars[p].deposits;
         if p in after.jars then after.jars[p].deposits == left else left == []
  }

  lemma TakesOutPrincipal(before: Account, after: Account, parts: map<ProductId, Part>)
    requires TakesOut(before, after, parts) && AllHold(before, parts)
    ensures AccountPrincipal(before) == AccountPrincipal(after) + TotalBalance(parts)
  {
    var balances := Balances(parts);
    forall p ensures At(PrincipalsOf(after), p) + At(balances, p) == At(PrincipalsOf(before), p) {
      if p in parts {
        assert Holds(before.jars[p], parts[p]);
        PrincipalSplit(before.jars[p].deposits, parts[p].index);
      }
    }
    SumAdd(PrincipalsOf(after), balances, PrincipalsOf(before));
  }

  lemma CleanUpPrincipal(account: Account, parts: map<ProductId, Part>, into: ProductId, amount: TokenAmount, now: Timestamp)
    requires AllHold(account, parts)
    requires CleanUpAndDeposit(account, parts, into, amount, now).Ok?
    ensures AccountPrincipal(CleanUpAndDeposit(account, parts, into, amount, now).value) + TotalBalance(parts)
         == AccountPrincipal(account) + amount
  {
    var cleaned := account.(jars := map p | p in account.jars ::
      if p in parts then WithoutPrefix(account.jars[p], parts[p].index) else account.jars[p]);
    forall p | p in parts ensures parts[p].index <= |account.jars[p].deposits| {
      assert Holds(account.jars[p], parts[p]);
    }
    TakesOutPrincipal(account, cleaned, parts);
    OneMoreAddsPrincipal(cleaned, CleanUpAndDeposit(account, parts, into, amount, now).value, into, Deposit(now, amount));
  }

  lemma UnlockedPrincipal(account: Account, ps: set<ProductId>, isLocked: bool)
    ensures AccountPrincipal(AllWithLock(account, ps, isLocked)) == AccountPrincipal(account)
  {
    assert PrincipalsOf(AllWithLock(account, ps, isLocked)) == PrincipalsOf(account);
  }

  lemma FinishWithdrawPrincipal(account: Account, parts: map<ProductId, Part>, isSuccess: bool)
    requires AllHold(account, parts)
    requires FinishWithdraw(account, parts, isSuccess).Ok?
    ensures AccountPrincipal(account)
         == AccountPrincipal(FinishWithdraw(account, parts, isSuccess).value) + if isSuccess then TotalBalance(parts) else 0
  {
    if isSuccess {
      TakesOutPrincipal(account, FinishWithdraw(account, parts, isSuccess).value, parts);
    } else {
      UnlockedPrincipal(account, parts.Keys, false);
    }
  }

  lemma FinishClaimPrincipal(account: Account, promise: Promise, isSuccess: bool)
    requires promise.AfterClaim? && AreRollbacks(promise.rollback)
    requires FinishClaim(account, promise, isSuccess).Ok?
    ensures AccountPrincipal(FinishClaim(account, promise, isSuccess).value) == AccountPrincipal(account)
  {
    var after := FinishClaim(account, promise, isSuccess).value;
    forall p ensures At(PrincipalsOf(after), p) == At(PrincipalsOf(account), p) {
    }
    SumEqual(PrincipalsOf(after), PrincipalsOf(account));
  }

  lemma FinishRestakePrincipal(account: Account, promise: Promise, isSuccess: bool, now: Timestamp)
    requires promise.AfterRemainder? && AllHold(account, promise.parts)
    requires TotalBalance(promise.parts) == promise.remainder + promise.restaked
    requires FinishRestake(account, promise, isSuccess, now).Ok?
    ensures AccountPrincipal(account)
         == AccountPrincipal(FinishRestake(account, promise, isSuccess, now).value) + if isSuccess then promise.remainder else 0
  {
    var unlocked := AllWithLock(account, promise.parts.Keys, false);
    UnlockedPrincipal(account, promise.parts.Keys, false);
    if isSuccess {
      forall p | p in promise.parts ensures p in unlocked.jars && Holds(unlocked.jars[p], promise.parts[p]) {
        assert Holds(account.jars[p], promise.parts[p]);
      }
      CleanUpPrincipal(unlocked, promise.parts, promise.into, promise.restaked, now);
    }
  }

  // --- The whole contract -----------------------------------------------------

  ghost function AccountTotals(c: State): map<AccountId, TokenAmount> {
    map a | a in c.accounts :: AccountPrincipal(c.accounts[a])
  }

  /** Principals in all jars of all accounts. */
  ghost function TotalPrincipal(c: State): TokenAmount {
    Sum(AccountTotals(c))
  }

  function FeesOf(pending: map<nat, Promise>): map<nat, TokenAmount> {
    map id | id in pending :: FeePayout(pending[id])
  }

  ghost function FeesInFlight(pending: map<nat, Promise>): TokenAmount {
    Sum(FeesOf(pending))
  }

  lemma AccountChanges(c: State, a: AccountId, after: Account, now: Timestamp)
    ensures TotalPrincipal(WithAccount(c, a, after)) + AccountPrincipal(AccountOrNew(c, a, now)) == TotalPrincipal(c) + AccountPrincipal(after)
  {
    SumUpdate(AccountTotals(c), a, AccountPrincipal(after));
    assert AccountTotals(WithAccount(c, a, after)) == AccountTotals(c)[a := AccountPrincipal(after)];
    assert PrincipalsOf(NewAccount(now)) == map[];
  }

  lemma PromiseAdded(pending: map<nat, Promise>, id: nat, promise: Promise)
    requires id !in pending
    ensures FeesInFlight(pending[id := promise]) == FeesInFlight(pending) + FeePayout(promise)
  {
    SumUpdate(FeesOf(pending), id, FeePayout(promise));
    assert FeesOf(pending[id := promise]) == FeesOf(pending)[id := FeePayout(promise)];
  }

  lemma PromiseRemoved(pending: map<nat, Promise>, id: nat)
    requires id in pending
    ensures FeesInFlight(pending) == FeesInFlight(pending - {id}) + FeePayout(pending[id])
  {
    SumTake(FeesOf(pending), id);
    assert FeesOf(pending - {id}) == FeesOf(pending) - {id};
  }

  ghost predicate Conserved(w: World) {
    w.accepted == TotalPrincipal(w.contract) + w.paidOut + w.contract.feeAmount + FeesInFlight(w.pending) + w.feesPaid
  }

  // --- Tokens coming in -------------------------------------------------------

  lemma {:induction false} AirdropRaises(c: State, ticket: Ticket, amount: TokenAmount, receivers: seq<AccountId>,
                                         booster: Score, earnedAt: Option<Timestamp>, now: Timestamp)
    requires KnownState(c) && ticket.productId in c.products
    requires AirdropAll(c, ticket, amount, receivers, booster, earnedAt, now).Ok?
    ensures var after := AirdropAll(c, ticket, amount, receivers, booster, earnedAt, now).value;
            && TotalPrincipal(after) == TotalPrincipal(c) + |receivers| * amount
            && after.feeAmount == c.feeAmount
  {
    if receivers != [] {
      var n := |receivers| - 1;
      AirdropRaises(c, ticket, amount, receivers[..n], booster, earnedAt, now);
      var before := AirdropAll(c, ticket, amount, receivers[..n], booster, earnedAt, now).value;
      var account := AccountOrNew(before, receivers[n], now);
      AirdroppedAddsOne(account, c.products, ticket, amount, booster, earnedAt, now);
      var after := Airdropped(account, c.products, ticket, amount, booster, earnedAt, now).value;
      OneMoreAddsPrincipal(account, after, ticket.productId, Deposit(now, amount));
      AccountChanges(before, receivers[n], after, now);
      assert n * amount + amount == |receivers| * amount;
    }
  }

  /** Every accepted transfer raises the principals by exactly its amount: a stake,
      an airdrop to any list of receivers, or an account taken over. */
  lemma IncomingRaisesPrincipal(env: Env, w: World, action: Action)
    requires KnownState(w.contract) && BringsTokens(action)
    requires Act(env, w, action).Ok?
    ensures var w' := Act(env, w, action).value;
            && TotalPrincipal(w'.contract) == TotalPrincipal(w.contract) + action.amount
            && w'.accepted == w.accepted + action.amount
            && w'.contract.feeAmount == w.contract.feeAmount
            && w'.pending == w.pending && w'.paidOut == w.paidOut && w'.feesPaid == w.feesPaid
  {
    var c := w.contract;
    match action
    case DoStake(a, ticket, signature, amount) => StakeRaises(env, c, a, ticket, signature, amount, w.now);
    case DoAirdrop(ticket, signature, amount, receivers, booster, earnedAt) =>
      SplitRaises(env, c, ticket, signature, amount, receivers, booster, earnedAt, w.now);
    case DoMigrate(a, account, amount) =>
      AccountChanges(c, a, account, w.now);
      assert a in c.accounts ==> PrincipalsOf(c.accounts[a]) == map[];
      assert PrincipalsOf(NewAccount(w.now)) == map[];
  }

  lemma StakeRaises(env: Env, c: State, a: AccountId, ticket: Ticket, signature: Option<string>, amount: TokenAmount, now: Timestamp)
    requires KnownState(c)
    requires Stake(env, c, a, ticket, signature, amount, now).Ok?
    ensures var after := Stake(env, c, a, ticket, signature, amount, now).value;
            && TotalPrincipal(after) == TotalPrincipal(c) + amount
            && after.feeAmount == c.feeAmount
  {
    var before := AccountOrNew(c, a, now);
    StakedAddsOne(before, c.products, ticket, amount, now);
    var after := StakeAccepted(before, c.products, ticket, amount, now).value;
    OneMoreAddsPrincipal(before, after, ticket.productId, Deposit(now, amount));
    AccountChanges(c, a, after, now);
  }

  lemma SplitRaises(env: Env, c: State, ticket: Ticket, signature: Option<string>, total: TokenAmount, receivers: seq<AccountId>,
                    booster: Score, earnedAt: Option<Timestamp>, now: Timestamp)
    requires KnownState(c)
    requires Airdrop(env, c, ticket, signature, total, receivers, booster, earnedAt, now).Ok?
    ensures var after := Airdrop(env, c, ticket, signature, total, receivers, booster, earnedAt, now).value;
            && TotalPrincipal(after) == TotalPrincipal(c) + total
            && after.feeAmount == c.feeAmount
  {
    AirdropRaises(c, ticket, total / |receivers|, receivers, booster, earnedAt, now);
    EvenSplit(total, |receivers|);
  }

  lemma EvenSplit(total: nat, n: nat)
    requires n > 0 && total % n == 0
    ensures n * (total / n) == total
  {
  }

  // --- Calls that keep all principals -----------------------------------------

  /** A call that leaves no fee promise and keeps the account's principal. */
  lemma CallConserves(w: World, a: AccountId, outcome: Outcome)
    requires Inv(w) && Conserved(w)
    requires AccountPrincipal(outcome.account) == AccountPrincipal(AccountOrNew(w.contract, a, w.now))
    requires outcome.promise.Some? ==> !outcome.promise.value.AfterFee?
    ensures Conserved(AfterOpening(w, a, outcome))
  {
    AccountChanges(w.contract, a, outcome.account, w.now);
    if outcome.promise.Some? {
      assert w.nextId !in w.pending;
      PromiseAdded(w.pending, w.nextId, outcome.promise.value);
    }
  }

  lemma HoldingsConserve(w: World, a: AccountId, after: Account)
    requires Inv(w) && Conserved(w)
    requires SameHoldings(AccountOrNew(w.contract, a, w.now), after, w.now)
    ensures Conserved(w.(contract := WithAccount(w.contract, a, after)))
  {
    SameHoldingsSamePrincipal(AccountOrNew(w.contract, a, w.now), after, w.now);
    CallConserves(w, a, Outcome(after, None));
  }

  lemma WithdrawConserves(w: World, a: AccountId, p: ProductId)
    requires Inv(w) && Conserved(w)
    requires CallWithdraw(w.contract, a, p, w.now).Ok?
    ensures Conserved(WithPromise(w, CallWithdraw(w.contract, a, p, w.now).value))
  {
    var account := w.contract.accounts[a];
    var outcome := Withdraw(a, account, w.contract.products, p, w.now).value;
    assert PrincipalsOf(outcome.account) == PrincipalsOf(account);
    CallConserves(w, a, outcome);
  }

  lemma WithdrawAllKeepsPrincipal(a: AccountId, account: Account, products: map<ProductId, Product>, ps: Option<set<ProductId>>, now: Timestamp)
    requires Known(account, products)
    requires WithdrawAll(a, account, products, ps, now).Ok?
    ensures AccountPrincipal(WithdrawAll(a, account, products, ps, now).value.account) == AccountPrincipal(account)
  {
    RefreshAllKeepsHoldings(account, products, now);
    var refreshed := RefreshAll(account, products, now).value;
    SameHoldingsSamePrincipal(account, refreshed, now);
    UnlockedPrincipal(refreshed, RequestsFor(refreshed, products, ps.GetOr(refreshed.jars.Keys), now).Keys, true);
  }

  lemma WithdrawAllConserves(w: World, a: AccountId, ps: Option<set<ProductId>>)
    requires Inv(w) && Conserved(w)
    requires CallWithdrawAll(w.contract, a, ps, w.now).Ok?
    ensures Conserved(WithPromise(w, CallWithdrawAll(w.contract, a, ps, w.now).value))
  {
    var account, products := w.contract.accounts[a], w.contract.products;
    WithdrawAllKeepsPrincipal(a, account, products, ps, w.now);
    CallConserves(w, a, WithdrawAll(a, account, products, ps, w.now).value);
  }

  lemma ClaimConserves(w: World, a: AccountId)
    requires Inv(w) && Conserved(w)
    requires CallClaim(w.contract, a, w.now).Ok?
    ensures Conserved(WithPromise(w, CallClaim(w.contract, a, w.now).value))
  {
    var account, products := w.contract.accounts[a], w.contract.products;
    SettleKeepsHoldings(account, products, w.now);
    var settled := Settle(account, products, w.now).value;
    SameHoldingsSamePrincipal(account, settled, w.now);
    WithClaimsKeepsHoldings(settled, products, w.now);
    SameHoldingsSamePrincipal(settled, WithClaims(settled, products, w.now), w.now);
    UnlockedPrincipal(WithClaims(settled, products, w.now), Claimable(settled, products, w.now).Keys, true);
    CallConserves(w, a, ClaimTotal(a, account, products, w.now).value);
  }

  /** A restake that moves everything at once keeps the principal, as does one that
      only locks. */
  lemma RestakeKeepsPrincipal(env: Env, a: AccountId, account: Account, products: map<ProductId, Product>, source: Source,
                              ticket: Ticket, signature: Option<string>, target: Option<TokenAmount>, now: Timestamp)
    requires Known(account, products)
    requires Restake(env, a, account, products, source, ticket, signature, target, now).Ok?
    ensures AccountPrincipal(Restake(env, a, account, products, source, ticket, signature, target, now).value.account) == AccountPrincipal(account)
  {
    PartsAreFrozen(account, products, source, now);
    var parts, total, amount, fee, isSigned := RestakeIs(env, a, account, products, source, ticket, signature, target, now);
    RestakePartsKeepPrincipal(a, account, products, parts, ticket, amount, total, fee, isSigned, now);
  }

  lemma RestakePartsKeepPrincipal(a: AccountId, account: Account, products: map<ProductId, Product>, parts: map<ProductId, Part>, ticket: Ticket,
                                  amount: TokenAmount, total: TokenAmount, fee: TokenAmount, isSigned: bool, now: Timestamp)
    requires Known(account, products)
    requires ticket.productId in products && parts.Keys <= account.jars.Keys
    requires AllHold(account, parts) && HeldWereLiquid(account, products, parts, now)
    requires total == TotalBalance(parts)
    requires RestakeParts(a, account, products, parts, ticket, amount, total, fee, isSigned, now).Ok?
    ensures AccountPrincipal(RestakeParts(a, account, products, parts, ticket, amount, total, fee, isSigned, now).value.account)
         == AccountPrincipal(account)
  {
    RefreshKeepsDeposits(account, products, parts.Keys, now);
    var refreshed := RefreshJars(account, products, parts.Keys, now).value;
    var zoned := WithTimezoneFor(refreshed, products[ticket.productId], ticket.timezone).value;
    MoveKeepsPrincipal(a, account, zoned, products, parts, ticket.productId, amount, total - amount, fee, now);
  }

  lemma MoveKeepsPrincipal(a: AccountId, account: Account, zoned: Account, products: map<ProductId, Product>, parts: map<ProductId, Part>,
                           into: ProductId, amount: TokenAmount, remainder: TokenAmount, fee: TokenAmount, now: Timestamp)
    requires SameHoldings(account, zoned, now)
    requires AllHold(account, parts) && HeldWereLiquid(account, products, parts, now)
    requires TotalBalance(parts) == amount + remainder
    requires Moved(a, zoned, parts, into, amount, remainder, fee, now).Ok?
    ensures AccountPrincipal(Moved(a, zoned, parts, into, amount, remainder, fee, now).value.account) == AccountPrincipal(account)
  {
    SameHoldingsSamePrincipal(account, zoned, now);
    FrozenElsewhere(account, zoned, products, parts, now);
    MovedKeepsPrincipal(a, zoned, parts, into, amount, remainder, fee, now);
  }

  lemma MovedKeepsPrincipal(a: AccountId, account: Account, parts: map<ProductId, Part>, into: ProductId, amount: TokenAmount,
                            remainder: TokenAmount, fee: TokenAmount, now: Timestamp)
    requires AllHold(account, parts) && TotalBalance(parts) == amount + remainder
    requires Moved(a, account, parts, into, amount, remainder, fee, now).Ok?
    ensures AccountPrincipal(Moved(a, account, parts, into, amount, remainder, fee, now).value.account) == AccountPrincipal(account)
  {
    if remainder == 0 {
      CleanUpPrincipal(account, parts, into, amount, now);
    } else {
      UnlockedPrincipal(account, parts.Keys, true);
    }
  }

  lemma RestakeConserves(env: Env, w: World, a: AccountId, source: Source, ticket: Ticket, signature: Option<string>, target: Option<TokenAmount>)
    requires Inv(w) && Conserved(w)
    requires CallRestake(env, w.contract, a, source, ticket, signature, target, w.now).Ok?
    ensures Conserved(WithPromise(w, CallRestake(env, w.contract, a, source, ticket, signature, target, w.now).value))
  {
    var account, products := w.contract.accounts[a], w.contract.products;
    RestakeKeepsPrincipal(env, a, account, products, source, ticket, signature, target, w.now);
    RestakeFits(env, a, account, products, source, ticket, signature, target, w.now);
    CallConserves(w, a, Restake(env, a, account, products, source, ticket, signature, target, w.now).value);
  }

  lemma UpdateConserves(w: World, a: AccountId, update: Update)
    requires Inv(w) && Conserved(w)
    requires UpdateAccount(w.contract, a, update, w.now).Ok?
    ensures Conserved(w.(contract := UpdateAccount(w.contract, a, update, w.now).value))
  {
    UpdatedKeepsHoldings(w.contract.accounts[a], w.contract.products, update, w.now);
    HoldingsConserve(w, a, Updated(w.contract.accounts[a], w.contract.products, update, w.now).value);
  }

  lemma {:induction false} UpdateAllConserves(w: World, batch: seq<(AccountId, Update)>)
    requires Inv(w) && Conserved(w)
    requires UpdateAll(w.contract, batch, w.now).Ok?
    ensures Conserved(w.(contract := UpdateAll(w.contract, batch, w.now).value))
  {
    if batch != [] {
      var n := |batch| - 1;
      UpdateAllConserves(w, batch[..n]);
      UpdateAllKeepsInv(w, batch[..n]);
      UpdateConserves(w.(contract := UpdateAll(w.contract, batch[..n], w.now).value), batch[n].0, batch[n].1);
    }
  }

  lemma SettingConserves(w: World, a: AccountId, feature: Feature, isEnabled: bool)
    requires Inv(w) && Conserved(w)
    requires SetFeatureEnabled(w.contract, a, feature, isEnabled, w.now).Ok?
    ensures Conserved(w.(contract := SetFeatureEnabled(w.contract, a, feature, isEnabled, w.now).value))
  {
    if a in w.contract.accounts {
      UpdateConserves(w, a, SetFeature(feature, isEnabled));
    } else {
      HoldingsConserve(w, a, NewAccount(w.now).(features := WithFeature(NewAccount(w.now).features, feature, isEnabled)));
    }
  }

  // --- Callbacks --------------------------------------------------------------

  lemma FeesWithinAmounts(requests: map<ProductId, Withdrawal>)
    requires FeesCovered(requests)
    ensures TotalFee(requests) <= TotalAmount(requests)
    ensures TotalBalance(PartsOf(requests)) == TotalAmount(requests)
  {
    var fees, amounts := map p | p in requests :: requests[p].fee, map p | p in requests :: requests[p].amount;
    forall p ensures At(fees, p) <= At(amounts, p) {
    }
    SumMonotone(fees, amounts);
    assert Balances(PartsOf(requests)) == amounts;
  }

  lemma WithdrawnConserves(w: World, id: nat, isSuccess: bool)
    requires Inv(w) && Conserved(w) && id in w.pending && w.pending[id].AfterWithdraw?
    requires Resolved(w, id, isSuccess).Ok?
    ensures Conserved(Resolved(w, id, isSuccess).value)
  {
    var promise := w.pending[id];
    assert Grounded(w.contract, promise) && WellFormed(w.contract, promise);
    var account := w.contract.accounts[promise.account];
    FinishWithdrawPrincipal(account, PartsOf(promise.requests), isSuccess);
    FeesWithinAmounts(promise.requests);
    AccountChanges(w.contract, promise.account, FinishWithdraw(account, PartsOf(promise.requests), isSuccess).value, w.now);
    AnyFee(w.contract, promise.account, FinishWithdraw(account, PartsOf(promise.requests), isSuccess).value,
           w.contract.feeAmount + if isSuccess then TotalFee(promise.requests) else 0);
    PromiseRemoved(w.pending, id);
  }

  /** The principals do not depend on the collected fees. */
  lemma AnyFee(c: State, a: AccountId, account: Account, fee: TokenAmount)
    ensures TotalPrincipal(WithAccount(c, a, account).(feeAmount := fee)) == TotalPrincipal(WithAccount(c, a, account))
  {
    assert AccountTotals(WithAccount(c, a, account).(feeAmount := fee)) == AccountTotals(WithAccount(c, a, account));
  }

  lemma RestakedConserves(w: World, id: nat, isSuccess: bool)
    requires Inv(w) && Conserved(w) && id in w.pending && w.pending[id].AfterRemainder?
    requires Resolved(w, id, isSuccess).Ok?
    ensures Conserved(Resolved(w, id, isSuccess).value)
  {
    var promise := w.pending[id];
    assert Grounded(w.contract, promise) && WellFormed(w.contract, promise);
    var account := w.contract.accounts[promise.account];
    FinishRestakePrincipal(account, promise, isSuccess, w.now);
    AccountChanges(w.contract, promise.account, FinishRestake(account, promise, isSuccess, w.now).value, w.now);
    AnyFee(w.contract, promise.account, FinishRestake(account, promise, isSuccess, w.now).value,
           w.contract.feeAmount + if isSuccess then promise.fee else 0);
    PromiseRemoved(w.pending, id);
  }

  lemma ResolvedConserves(w: World, id: nat, isSuccess: bool)
    requires Inv(w) && Conserved(w) && id in w.pending
    requires Resolved(w, id, isSuccess).Ok?
    ensures Conserved(Resolved(w, id, isSuccess).value)
  {
    var promise := w.pending[id];
    assert Grounded(w.contract, promise) && WellFormed(w.contract, promise);
    match promise
    case AfterWithdraw(_, _, _) => WithdrawnConserves(w, id, isSuccess);
    case AfterRemainder(_, _, _, _, _, _, _) => RestakedConserves(w, id, isSuccess);
    case AfterClaim(a, _, _, _, _) =>
      FinishClaimPrincipal(w.contract.accounts[a], promise, isSuccess);
      AccountChanges(w.contract, a, FinishClaim(w.contract.accounts[a], promise, isSuccess).value, w.now);
      PromiseRemoved(w.pending, id);
    case AfterFee(amount) =>
      PromiseRemoved(w.pending, id);
      assert AccountTotals(Resolved(w, id, isSuccess).value.contract) == AccountTotals(w.contract);
  }

  // --- Runs -------------------------------------------------------------------

  lemma WithdrawFeeConserves(w: World)
    requires Inv(w) && Conserved(w)
    ensures Conserved(WithPromise(w, CallWithdrawFee(w.contract)))
  {
    assert w.nextId !in w.pending;
    PromiseAdded(w.pending, w.nextId, AfterFee(w.contract.feeAmount));
    assert AccountTotals(w.contract.(feeAmount := 0)) == AccountTotals(w.contract);
  }

  lemma ProductsConserve(w: World, w': World)
    requires Conserved(w)
    requires w' == w.(contract := w.contract.(products := w'.contract.products))
    ensures Conserved(w')
  {
    assert AccountTotals(w'.contract) == AccountTotals(w.contract);
  }

  lemma ActConserves(env: Env, w: World, action: Action)
    requires Inv(w) && Conserved(w)
    requires Act(env, w, action).Ok?
    ensures Conserved(Act(env, w, action).value)
  {
    if BringsTokens(action) {
      IncomingRaisesPrincipal(env, w, action);
    } else {
      match action
      case DoRegister(_) => ProductsConserve(w, Act(env, w, action).value);
      case DoSetEnabled(_, _) => ProductsConserve(w, Act(env, w, action).value);
      case DoSetPublicKey(_, _) => ProductsConserve(w, Act(env, w, action).value);
      case DoWithdraw(a, p) => WithdrawConserves(w, a, p);
      case DoWithdrawAll(a, ps) => WithdrawAllConserves(w, a, ps);
      case DoRestake(a, source, ticket, signature, target) => RestakeConserves(env, w, a, source, ticket, signature, target);
      case DoClaim(a) => ClaimConserves(w, a);
      case DoWithdrawFee => WithdrawFeeConserves(w);
      case DoSetFeature(a, feature, isEnabled) => SettingConserves(w, a, feature, isEnabled);
      case DoUpdateAll(batch) => UpdateAllConserves(w, batch);
      case DoSetTimezone(a, timezone) => HoldingsConserve(w, a, TrySetTimezone(AccountOrNew(w.contract, a, w.now), Some(timezone)).value);
      case Resolve(id, isSuccess) => ResolvedConserves(w, id, isSuccess);
    }
  }

  /** Conservation over every run, for all interleavings and all outcomes: tokens
      accepted are the principals in all jars, the net payouts of completed
      withdrawals and restakes, the collected fees, and the fees in flight or paid. */
  lemma {:induction false} TokensAreConserved(env: Env, start: Timestamp, entries: seq<Entry>)
    ensures Inv(NewWorld(start))
    ensures Conserved(Run(env, NewWorld(start), entries))
  {
    NewWorldIsSound(start);
    if entries == [] {
      assert AccountTotals(NewWorld(start).contract) == map[];
      assert FeesOf(NewWorld(start).pending) == map[];
    } else {
      var n := |entries| - 1;
      TokensAreConserved(env, start, entries[..n]);
      var before := Run(env, NewWorld(start), entries[..n]);
      if IsAdmissible(before, entries[n].at, entries[n].action) {
        StepIsAct(env, before, entries[n]);
        var w0 := before.(now := entries[n].at);
        if Act(env, w0, entries[n].action).Ok? {
          ActConserves(env, w0, entries[n].action);
        }
      }
    }
  }

  /** With at most `2^128 - 1` tokens ever accepted, no balance, fee or payout that
      the contract adds up can leave 128 bits, nor can fees on their way. */
  lemma AmountsFit(env: Env, w: World, a: AccountId, p: ProductId, id: nat)
    requires Reachable(env, w)
    requires w.accepted <= U128_MAX
    ensures w.contract.feeAmount + FeesInFlight(w.pending) + w.feesPaid <= U128_MAX && w.paidOut <= U128_MAX
    ensures id in w.pending ==> w.contract.feeAmount + FeePayout(w.pending[id]) <= U128_MAX
    ensures a in w.contract.accounts ==> AccountPrincipal(w.contract.accounts[a]) <= U128_MAX
    ensures a in w.contract.accounts && p in w.contract.accounts[a].jars ==>
              Principal(w.contract.accounts[a].jars[p].deposits) <= U128_MAX
  {
    var start, entries :| Reaches(env, start, entries, w);
    TokensAreConserved(env, start, entries);
    SumAtLeast(FeesOf(w.pending), id);
    if a in w.contract.accounts {
      SumAtLeast(AccountTotals(w.contract), a);
      SumAtLeast(PrincipalsOf(w.contract.accounts[a]), p);
    }
  }
}
