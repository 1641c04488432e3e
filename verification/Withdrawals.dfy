/** Withdrawing the liquid deposits of one jar or of several jars at once. */
module Withdrawals {
  import opened Numbers
  import opened Types
  import opened MapSum
  import opened Jars
  import opened Accounts
  import opened Promises

  function RequestFor(product: Product, jar: Jar, now: Timestamp): Withdrawal {
    var (amount, index) := LiquidBalance(product.terms, now, jar.deposits);
    Withdrawal(amount, product.CalculateFee(amount), index)
  }

  /** Every fee can be taken out of its amount. */
  predicate FeesCovered(requests: map<ProductId, Withdrawal>) {
    forall p :: p in requests ==> requests[p].fee <= requests[p].amount
  }

  function Withdraw(a: AccountId, account: Account, products: map<ProductId, Product>, p: ProductId, now: Timestamp): (r: Result<Outcome>)
    requires Known(account, products)
    ensures r.Ok? ==> r.value.account.features == account.features && r.value.account.nonce == account.nonce
  {
    if p !in account.jars then Err(JarNotFound)
    else if account.jars[p].isLocked then Err(JarIsLocked)
    else
      var refreshed :- RefreshJar(WithJar(account, p, WithLock(account.jars[p], true)), products, p, now);
      var requests := map[p := RequestFor(products[p], refreshed.jars[p], now)];
      if !FeesCovered(requests) then Err(FeeExceedsAmount)
      else Ok(Outcome(refreshed, Some(AfterWithdraw(a, requests, now))))
  }

  function RequestsFor(account: Account, products: map<ProductId, Product>, wanted: set<ProductId>, now: Timestamp): map<ProductId, Withdrawal>
    requires Known(account, products)
    requires wanted <= account.jars.Keys
  {
    map p | p in wanted && !account.jars[p].isLocked :: RequestFor(products[p], account.jars[p], now)
  }

  /** Locked jars are skipped. */
  function WithdrawAll(a: AccountId, account: Account, products: map<ProductId, Product>, ps: Option<set<ProductId>>, now: Timestamp): (r: Result<Outcome>)
    requires Known(account, products)
    ensures r.Ok? ==> r.value.account.features == account.features && r.value.account.nonce == account.nonce
  {
    var refreshed :- RefreshAll(account, products, now);
    var wanted := ps.GetOr(refreshed.jars.Keys);
    if !(wanted <= refreshed.jars.Keys) then Err(JarNotFound) else
      var requests := RequestsFor(refreshed, products, wanted, now);
      if requests == map[] then Ok(Outcome(refreshed, None))
      else if !FeesCovered(requests) then Err(FeeExceedsAmount)
      else Ok(Outcome(AllWithLock(refreshed, requests.Keys, true), Some(AfterWithdraw(a, requests, now))))
  }

  // --- The callback -----------------------------------------------------------

  predicate InRange(account: Account, parts: map<ProductId, Part>) {
    forall p :: p in parts ==> p in account.jars && parts[p].index <= |account.jars[p].deposits|
  }

  /** An unlocked jar without the deposits before the index. */
  function TakenOut(jar: Jar, index: nat): Jar
    requires index <= |jar.deposits|
  {
    WithLock(WithoutPrefix(jar, index), false)
  }

  /** Jars left with neither deposits nor cached interest are closed. */
  function FinishWithdraw(account: Account, parts: map<ProductId, Part>, isSuccess: bool): Result<Account> {
    if !(parts.Keys <= account.jars.Keys) then Err(JarNotFound)
    else if !isSuccess then Ok(AllWithLock(account, parts.Keys, false))
    else if !InRange(account, parts) then Err(IndexOutOfRange)
    else
      Ok(account.(jars := map p | p in account.jars && (p in parts ==> !ShouldClose(TakenOut(account.jars[p], parts[p].index))) ::
           if p in parts then TakenOut(account.jars[p], parts[p].index) else account.jars[p]))
  }

  ghost function TotalFee(requests: map<ProductId, Withdrawal>): TokenAmount {
    Sum(map p | p in requests :: requests[p].fee)
  }

  ghost function TotalAmount(requests: map<ProductId, Withdrawal>): TokenAmount {
    Sum(map p | p in requests :: requests[p].amount)
  }

  // --- What the calls do to the jars ------------------------------------------

  lemma RequestIsFrozen(product: Product, jar: Jar, now: Timestamp)
    ensures var request := RequestFor(product, jar, now);
            && Holds(jar, Part(request.amount, request.index))
            && forall i :: 0 <= i < request.index ==> product.terms.IsLiquid(jar.deposits[i], now)
  {
  }

  lemma RequestsAreFrozen(account: Account, products: map<ProductId, Product>, wanted: set<ProductId>, now: Timestamp)
    requires Known(account, products)
    requires wanted <= account.jars.Keys
    ensures var requests := RequestsFor(account, products, wanted, now);
            && AllHold(account, PartsOf(requests))
            && HeldWereLiquid(account, products, PartsOf(requests), now)
  {
    forall p | p in account.jars
      ensures var request := RequestFor(products[p], account.jars[p], now);
              && Holds(account.jars[p], Part(request.amount, request.index))
              && forall i :: 0 <= i < request.index ==> products[p].terms.IsLiquid(account.jars[p].deposits[i], now)
    {
      RequestIsFrozen(products[p], account.jars[p], now);
    }
  }

  lemma WithdrawOpens(a: AccountId, account: Account, products: map<ProductId, Product>, p: ProductId, now: Timestamp)
    requires Known(account, products)
    requires Withdraw(a, account, products, p, now).Ok?
    ensures var outcome := Withdraw(a, account, products, p, now).value;
            Opened(account, outcome, products, now)
  {
    var outcome := Withdraw(a, account, products, p, now).value;
    RequestIsFrozen(products[p], outcome.account.jars[p], now);
  }

  lemma WithdrawAllOpens(a: AccountId, account: Account, products: map<ProductId, Product>, ps: Option<set<ProductId>>, now: Timestamp)
    requires Known(account, products)
    requires WithdrawAll(a, account, products, ps, now).Ok?
    ensures var outcome := WithdrawAll(a, account, products, ps, now).value;
            Opened(account, outcome, products, now)
  {
    RefreshAllKeepsHoldings(account, products, now);
    var refreshed := RefreshAll(account, products, now).value;
    var wanted := ps.GetOr(refreshed.jars.Keys);
    RequestsAreFrozen(refreshed, products, wanted, now);
    var requests := RequestsFor(refreshed, products, wanted, now);
    if requests == map[] {
      SameHoldingsOpen(account, refreshed, products, now);
    } else {
      LockingOpens(account, refreshed, requests.Keys, PartsOf(requests), products, now);
    }
  }

  lemma FinishWithdrawCloses(account: Account, parts: map<ProductId, Part>, products: map<ProductId, Product>, isSuccess: bool, now: Timestamp)
    requires Known(account, products)
    requires FinishWithdraw(account, parts, isSuccess).Ok?
    ensures Closes(account, FinishWithdraw(account, parts, isSuccess).value, parts.Keys, products, now)
  {
    if Ordered(account, now) {
      FinishWithdrawKeepsOrder(account, parts, isSuccess, now);
    }
  }

  lemma FinishWithdrawKeepsOrder(account: Account, parts: map<ProductId, Part>, isSuccess: bool, now: Timestamp)
    requires FinishWithdraw(account, parts, isSuccess).Ok?
    requires Ordered(account, now)
    ensures Ordered(FinishWithdraw(account, parts, isSuccess).value, now)
  {
    var after := FinishWithdraw(account, parts, isSuccess).value;
    forall p | p in after.jars ensures InOrder(after.jars[p].deposits, now) && CacheIsPast(after.jars[p].cache, now) {
      assert InOrder(account.jars[p].deposits, now);
    }
  }

  /** The callback finds everything it needs. */
  lemma FinishWithdrawSucceeds(account: Account, parts: map<ProductId, Part>, isSuccess: bool)
    requires AllHold(account, parts)
    ensures FinishWithdraw(account, parts, isSuccess).Ok?
  {
  }
}
