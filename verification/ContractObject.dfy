/** The contract in place. A call loads the account, changes it step by step, and
    stores it; a call that aborts stores nothing. Every method does exactly what its
    specification function says, in whatever order the maps are visited. */
module ContractObject {
  import opened Numbers
  import opened Types
  import opened MapSum
  import opened Interest
  import opened Jars
  import opened Scores
  import opened Tickets
  import opened Accounts
  import opened Promises
  import opened Withdrawals
  import opened Claims
  import opened Restakes
  import opened Contracts
  import opened StoredAccounts

  /** The call answers as specified, and leaves the specified state. */
  ghost predicate Answers(spec: Result<Reply>, before: State, after: State, r: Result<Option<Promise>>) {
    match spec
    case Ok(reply) => r == Ok(reply.promise) && after == reply.state
    case Err(error) => r == Err(error) && after == before
  }

  ghost predicate Becomes(spec: Result<State>, before: State, after: State, r: Result<()>) {
    match spec
    case Ok(state) => r == Ok(()) && after == state
    case Err(error) => r == Err(error) && after == before
  }

  class Contract {
    const env: Env
    var products: map<ProductId, Product>
    var accounts: map<AccountId, Account>
    var feeAmount: TokenAmount

    function Value(): State
      reads this
    {
      State(products, accounts, feeAmount)
    }

    /** What every reachable contract satisfies. */
    ghost predicate IsSound(now: Timestamp)
      reads this
    {
      KnownState(Value()) && forall a :: a in accounts ==> Ordered(accounts[a], now)
    }

    constructor (env: Env)
      ensures Value() == State(map[], map[], 0) && this.env == env
    {
      this.env := env;
      products, accounts, feeAmount := map[], map[], 0;
    }

    // --- Withdrawals ------------------------------------------------------------

    method BuildRequest(account: StoredAccount, p: ProductId, now: Timestamp) returns (request: Withdrawal)
      requires p in account.jars && p in products
      requires Sorted(account.jars[p].deposits)
      ensures request == RequestFor(products[p], account.jars[p], now)
    {
      var amount, index := GetLiquidBalance(account.jars[p], products[p].terms, now);
      request := Withdrawal(amount, products[p].CalculateFee(amount), index);
    }

    method WithdrawFrom(a: AccountId, p: ProductId, now: Timestamp) returns (r: Result<Option<Promise>>)
      requires IsSound(now)
      modifies this`accounts
      ensures Answers(CallWithdraw(old(Value()), a, p, now), old(Value()), Value(), r)
    {
      if a !in accounts {
        return Err(AccountNotFound);
      }
      assert Ordered(accounts[a], now);
      var account := new StoredAccount(accounts[a]);
      if p !in account.jars {
        return Err(JarNotFound);
      }
      if account.jars[p].isLocked {
        return Err(JarIsLocked);
      }
      account.jars := account.jars[p := WithLock(account.jars[p], true)];
      var cached := account.UpdateJarCache(products, p, now);
      if cached.Err? {
        return Err(cached.error);
      }
      assert InOrder(accounts[a].jars[p].deposits, now);
      var request := BuildRequest(account, p, now);
      var requests := map[p := request];
      if request.fee > request.amount {
        assert requests[p].fee > requests[p].amount;
        return Err(FeeExceedsAmount);
      }
      accounts := accounts[a := account.Value()];
      return Ok(Some(AfterWithdraw(a, requests, now)));
    }

    /** One request for every unlocked jar that is wanted. */
    method BuildRequests(account: StoredAccount, wanted: set<ProductId>, now: Timestamp) returns (r: Result<map<ProductId, Withdrawal>>)
      requires Known(account.Value(), products) && Ordered(account.Value(), now)
      ensures r == if wanted <= account.jars.Keys then Ok(RequestsFor(account.Value(), products, wanted, now)) else Err(JarNotFound)
    {
      var requests: map<ProductId, Withdrawal> := map[];
      var left := wanted;
      while left != {}
        invariant left <= wanted && wanted - left <= account.jars.Keys
        invariant requests.Keys == set p | p in wanted && p !in left && !account.jars[p].isLocked
        invariant forall p :: p in requests ==> requests[p] == RequestFor(products[p], account.jars[p], now)
        decreases left
      {
        var p :| p in left;
        if p !in account.jars {
          return Err(JarNotFound);
        }
        if !account.jars[p].isLocked {
          assert InOrder(account.jars[p].deposits, now);
          var request := BuildRequest(account, p, now);
          requests := requests[p := request];
        }
        left := left - {p};
      }
      assert requests == RequestsFor(account.Value(), products, wanted, now);
      return Ok(requests);
    }

    /** The sum to transfer, if every fee fits its amount. */
    method TotalNetAmount(requests: map<ProductId, Withdrawal>) returns (r: Result<TokenAmount>)
      ensures r.Ok? <==> FeesCovered(requests)
      ensures r.Err? ==> r.error == FeeExceedsAmount
      ensures r.Ok? ==> r.value + TotalFee(requests) == TotalAmount(requests)
    {
      var total: TokenAmount, left := 0, requests.Keys;
      ghost var fees: map<ProductId, TokenAmount>, amounts: map<ProductId, TokenAmount> := map[], map[];
      while left != {}
        invariant left <= requests.Keys && fees.Keys == amounts.Keys == requests.Keys - left
        invariant forall p :: p in fees ==> requests[p].fee <= requests[p].amount && fees[p] == requests[p].fee && amounts[p] == requests[p].amount
        invariant total + Sum(fees) == Sum(amounts)
        decreases left
      {
        var p :| p in left;
        if requests[p].fee > requests[p].amount {
          return Err(FeeExceedsAmount);
        }
        SumUpdate(fees, p, requests[p].fee);
        SumUpdate(amounts, p, requests[p].amount);
        fees, amounts := fees[p := requests[p].fee], amounts[p := requests[p].amount];
        total := total + (requests[p].amount - requests[p].fee);
        left := left - {p};
      }
      assert fees == map p | p in requests :: requests[p].fee;
      assert amounts == map p | p in requests :: requests[p].amount;
      return Ok(total);
    }

    method LockJars(account: StoredAccount, ps: set<ProductId>, isLocked: bool)
      requires ps <= account.jars.Keys
      modifies account`jars
      ensures account.Value() == AllWithLock(old(account.Value()), ps, isLocked)
    {
      ghost var before := account.Value();
      var left := ps;
      while left != {}
        invariant left <= ps && account.Value() == before.(jars := account.jars) && account.jars.Keys == before.jars.Keys
        invariant forall p :: p in account.jars ==>
                    account.jars[p] == if p in ps && p !in left then WithLock(before.jars[p], isLocked) else before.jars[p]
        decreases left
      {
        var p :| p in left;
        account.jars := account.jars[p := WithLock(account.jars[p], isLocked)];
        left := left - {p};
      }
      assert account.jars == AllWithLock(before, ps, isLocked).jars;
    }

    method WithdrawFromAll(a: AccountId, ps: Option<set<ProductId>>, now: Timestamp) returns (r: Result<Option<Promise>>)
      requires IsSound(now)
      modifies this`accounts
      ensures Answers(CallWithdrawAll(old(Value()), a, ps, now), old(Value()), Value(), r)
    {
      if a !in accounts {
        return Err(AccountNotFound);
      }
      assert Ordered(accounts[a], now);
      var outcome := WithdrawAccount(a, accounts[a], ps, now);
      if outcome.Err? {
        return Err(outcome.error);
      }
      accounts := accounts[a := outcome.value.account];
      return Ok(outcome.value.promise);
    }

    method WithdrawAccount(a: AccountId, before: Account, ps: Option<set<ProductId>>, now: Timestamp) returns (r: Result<Outcome>)
      requires Known(before, products) && Ordered(before, now)
      ensures r == WithdrawAll(a, before, products, ps, now)
    {
      var account := new StoredAccount(before);
      var cached := account.UpdateAccountCache(products, now);
      if cached.Err? {
        return Err(cached.error);
      }
      RefreshAllKeepsHoldings(before, products, now);
      SameHoldingsOrdered(before, account.Value(), now);
      var wanted := if ps.Some? then ps.value else account.jars.Keys;
      var requests := BuildRequests(account, wanted, now);
      if requests.Err? {
        return Err(requests.error);
      }
      if requests.value == map[] {
        return Ok(Outcome(account.Value(), None));
      }
      LockJars(account, requests.value.Keys, true);
      var total := TotalNetAmount(requests.value);
      if total.Err? {
        return Err(total.error);
      }
      return Ok(Outcome(account.Value(), Some(AfterWithdraw(a, requests.value, now))));
    }

    /** Takes the deposits before the index out of a jar, and closes it if nothing
        is left. */
    method CleanUp(account: StoredAccount, p: ProductId, index: nat)
      requires p in account.jars && index <= |account.jars[p].deposits|
      modifies account`jars
      ensures account.Value() == old(account.Value()).(jars := account.jars)
      ensures var left := WithoutPrefix(old(account.jars)[p], index);
              account.jars == if ShouldClose(left) then old(account.jars) - {p} else old(account.jars)[p := left]
    {
      account.jars := account.jars[p := WithoutPrefix(account.jars[p], index)];
      if ShouldClose(account.jars[p]) {
        account.jars := account.jars - {p};
      }
    }

    /** The callback of a withdrawal from one jar. */
    method AfterWithdrawn(a: AccountId, p: ProductId, request: Withdrawal, isSuccess: bool, ghost requestedAt: Timestamp, ghost now: Timestamp)
      returns (r: Result<()>)
      modifies this`accounts, this`feeAmount
      ensures Becomes(Finish(old(Value()), AfterWithdraw(a, map[p := request], requestedAt), isSuccess, now), old(Value()), Value(), r)
    {
      if a !in accounts {
        return Err(AccountNotFound);
      }
      var finished := FinishRequest(accounts[a], p, request, isSuccess);
      if finished.Err? {
        return Err(finished.error);
      }
      accounts := accounts[a := finished.value];
      if isSuccess {
        OneFee(p, request);
        feeAmount := feeAmount + request.fee;
      }
      return Ok(());
    }

    method FinishRequest(before: Account, p: ProductId, request: Withdrawal, isSuccess: bool) returns (r: Result<Account>)
      ensures r == FinishWithdraw(before, PartsOf(map[p := request]), isSuccess)
    {
      ghost var requests := map[p := request];
      assert PartsOf(requests) == map[p := Part(request.amount, request.index)];
      var account := new StoredAccount(before);
      if p !in account.jars {
        return Err(JarNotFound);
      }
      account.jars := account.jars[p := WithLock(account.jars[p], false)];
      if !isSuccess {
        assert PartsOf(requests).Keys == {p};
        assert account.jars == AllWithLock(before, {p}, false).jars;
        return Ok(account.Value());
      }
      if request.index > |account.jars[p].deposits| {
        IndexTooBig(before, requests, p);
        return Err(IndexOutOfRange);
      }
      CleanUp(account, p, request.index);
      TakenIsFinished(before, requests, account.jars);
      return Ok(account.Value());
    }

    /** The callback of a withdrawal from several jars: all jars are unlocked first,
        then cleaned up one by one. */
    method AfterBulkWithdraw(a: AccountId, requests: map<ProductId, Withdrawal>, isSuccess: bool, ghost requestedAt: Timestamp, ghost now: Timestamp)
      returns (r: Result<()>)
      modifies this`accounts, this`feeAmount
      ensures Becomes(Finish(old(Value()), AfterWithdraw(a, requests, requestedAt), isSuccess, now), old(Value()), Value(), r)
    {
      if a !in accounts {
        return Err(AccountNotFound);
      }
      var finished := FinishRequests(accounts[a], requests, isSuccess);
      if finished.Err? {
        return Err(finished.error);
      }
      accounts := accounts[a := finished.value.0];
      feeAmount := feeAmount + finished.value.1;
      return Ok(());
    }

    /** The account without the withdrawn deposits, and the fees earned. */
    method FinishRequests(before: Account, requests: map<ProductId, Withdrawal>, isSuccess: bool) returns (r: Result<(Account, TokenAmount)>)
      ensures match FinishWithdraw(before, PartsOf(requests), isSuccess)
              case Ok(after) => r == Ok((after, if isSuccess then TotalFee(requests) else 0))
              case Err(error) => r == Err(error)
    {
      var account := new StoredAccount(before);
      if !(requests.Keys <= account.jars.Keys) {
        return Err(JarNotFound);
      }
      LockJars(account, requests.Keys, false);
      assert PartsOf(requests).Keys == requests.Keys;
      if !isSuccess {
        return Ok((account.Value(), 0));
      }
      var total := CleanUpAll(account, before, requests);
      if total.Err? {
        return Err(total.error);
      }
      return Ok((account.Value(), total.value));
    }

    method CleanUpAll(account: StoredAccount, ghost before: Account, requests: map<ProductId, Withdrawal>) returns (r: Result<TokenAmount>)
      requires requests.Keys <= before.jars.Keys
      requires account.Value() == AllWithLock(before, requests.Keys, false)
      modifies account`jars
      ensures r.Ok? <==> FinishWithdraw(before, PartsOf(requests), true).Ok?
      ensures r.Err? ==> r.error == IndexOutOfRange
      ensures r.Ok? ==> r.value == TotalFee(requests) && account.Value() == FinishWithdraw(before, PartsOf(requests), true).value
    {
      var total: TokenAmount, left := 0, requests.Keys;
      NoFees(requests);
      while left != {}
        invariant left <= requests.Keys && account.Value() == before.(jars := account.jars)
        invariant IsCleaned(before, requests, left, account.jars)
        invariant total == FeesBeside(requests, left)
        decreases left
      {
        var p :| p in left;
        StillLocked(before, requests, left, account.jars, p);
        if requests[p].index > |account.jars[p].deposits| {
          IndexTooBig(before, requests, p);
          return Err(IndexOutOfRange);
        }
        OneMoreFeeBeside(requests, left, p);
        total := total + requests[p].fee;
        ghost var jars := account.jars;
        CleanUp(account, p, requests[p].index);
        OneMoreCleaned(before, requests, left, p, jars, account.jars);
        left := left - {p};
      }
      TakenIsFinished(before, requests, account.jars);
      return Ok(total);
    }

    // --- Claims -----------------------------------------------------------------

    method ClaimInterest(a: AccountId, now: Timestamp) returns (r: Result<Option<Promise>>)
      requires KnownState(Value())
      modifies this`accounts
      ensures Answers(CallClaim(old(Value()), a, now), old(Value()), Value(), r)
    {
      if a !in accounts {
        return Err(AccountNotFound);
      }
      var account := new StoredAccount(accounts[a]);
      var result := account.SettleInterest(products, now);
      if result.Err? {
        return Err(result.error);
      }
      ghost var settled := account.Value();
      var collected := CollectInterest(account, now);
      if collected.Err? {
        return Err(collected.error);
      }
      var (amounts, remainders, rollback) := collected.value;
      if |amounts| > MAX_JARS_PER_CLAIM {
        return Err(TooManyJars);
      }
      ClaimJars(account, remainders, now);
      ClaimedJarsAre(settled, products, now, remainders, account.jars);
      accounts := accounts[a := account.Value()];
      if amounts == map[] {
        return Ok(None);
      }
      return Ok(Some(AfterClaim(a, rollback, amounts, account.score, account.timezone)));
    }

    /** The interest of every unlocked jar that has any, and a snapshot of it. */
    method CollectInterest(account: StoredAccount, now: Timestamp)
      returns (r: Result<(map<ProductId, TokenAmount>, map<ProductId, nat>, map<ProductId, JarCompanion>)>)
      requires Known(account.Value(), products)
      ensures r.Ok? <==> AllAccrue(account.Value(), products, now)
      ensures r.Err? ==> r.error == TimestampOutOfRange
      ensures r.Ok? ==>
                var (amounts, remainders, rollback) := r.value;
                && amounts == Claimable(account.Value(), products, now)
                && remainders.Keys == amounts.Keys
                && (forall p :: p in remainders ==> remainders[p] == InterestOf(account.Value(), products, p, now).1)
                && rollback == Rollbacks(account.Value(), amounts.Keys)
    {
      var amounts: map<ProductId, TokenAmount>, remainders: map<ProductId, nat>, rollback: map<ProductId, JarCompanion> := map[], map[], map[];
      var left := account.jars.Keys;
      while left != {}
        invariant left <= account.jars.Keys && amounts.Keys == remainders.Keys == rollback.Keys <= account.jars.Keys - left
        invariant forall p :: p in account.jars && p !in left && !account.jars[p].isLocked ==>
                    CanAccrue(account.Value(), products[p].terms, account.jars[p], now)
        invariant forall p :: p in account.jars && p !in left ==>
                    (p in amounts <==> !account.jars[p].isLocked && InterestOf(account.Value(), products, p, now).0 != 0)
        invariant forall p :: p in amounts ==> !account.jars[p].isLocked
        invariant forall p :: p in amounts ==>
                    && (amounts[p], remainders[p]) == InterestOf(account.Value(), products, p, now)
                    && rollback[p] == Rollback(account.jars[p])
        decreases left
      {
        var p :| p in left;
        var jar := account.jars[p];
        if !jar.isLocked {
          if !CanAccrue(account.Value(), products[p].terms, jar, now) {
            return Err(TimestampOutOfRange);
          }
          var (interest, remainder) := JarInterest(RateFor(products[p].terms, account.Value(), now), jar, now);
          if interest != 0 {
            rollback := rollback[p := Rollback(jar)];
            amounts, remainders := amounts[p := interest], remainders[p := remainder];
          }
        }
        left := left - {p};
      }
      assert amounts == Claimable(account.Value(), products, now);
      assert rollback == Rollbacks(account.Value(), amounts.Keys);
      return Ok((amounts, remainders, rollback));
    }

    method ClaimJars(account: StoredAccount, remainders: map<ProductId, nat>, now: Timestamp)
      requires remainders.Keys <= account.jars.Keys
      modifies account`jars
      ensures account.Value() == old(account.Value()).(jars := account.jars) && account.jars.Keys == old(account.jars).Keys
      ensures forall p :: p in account.jars ==>
                account.jars[p] == if p in remainders then WithLock(Claimed(old(account.jars)[p], remainders[p], now), true)
                                   else old(account.jars)[p]
    {
      ghost var before := account.Value();
      var left := remainders.Keys;
      while left != {}
        invariant left <= remainders.Keys && account.Value() == before.(jars := account.jars) && account.jars.Keys == before.jars.Keys
        invariant forall p :: p in account.jars ==>
                    account.jars[p] == if p in remainders && p !in left then WithLock(Claimed(before.jars[p], remainders[p], now), true)
                                       else before.jars[p]
        decreases left
      {
        var p :| p in left;
        account.jars := account.jars[p := WithLock(Claimed(account.jars[p], remainders[p], now), true)];
        left := left - {p};
      }
    }

    method AfterClaimed(promise: Promise, isSuccess: bool, ghost now: Timestamp) returns (r: Result<()>)
      requires promise.AfterClaim?
      modifies this`accounts
      ensures Becomes(Finish(old(Value()), promise, isSuccess, now), old(Value()), Value(), r)
    {
      if promise.account !in accounts {
        return Err(AccountNotFound);
      }
      var account := new StoredAccount(accounts[promise.account]);
      if !(promise.rollback.Keys <= account.jars.Keys) {
        return Err(JarNotFound);
      }
      ghost var before := account.Value();
      if isSuccess {
        UnlockAndClose(account, promise.rollback.Keys);
        assert account.jars == FinishClaim(before, promise, true).value.jars;
      } else {
        ApplyRollback(account, promise.rollback);
        account.timezone, account.score := promise.timezone, promise.score;
        assert account.jars == FinishClaim(before, promise, false).value.jars;
      }
      accounts := accounts[promise.account := account.Value()];
      return Ok(());
    }

    method UnlockAndClose(account: StoredAccount, ps: set<ProductId>)
      requires ps <= account.jars.Keys
      modifies account`jars
      ensures account.Value() == old(account.Value()).(jars := account.jars)
      ensures account.jars == map p | p in old(account.jars) && (p in ps ==> !ShouldClose(old(account.jars)[p])) ::
                if p in ps then WithLock(old(account.jars)[p], false) else old(account.jars)[p]
    {
      ghost var before := account.Value();
      var left := ps;
      while left != {}
        invariant left <= ps && left <= account.jars.Keys && account.Value() == before.(jars := account.jars)
        invariant forall p :: p in account.jars <==> p in before.jars && (p in ps && p !in left ==> !ShouldClose(before.jars[p]))
        invariant forall p :: p in account.jars ==>
                    account.jars[p] == if p in ps && p !in left then WithLock(before.jars[p], false) else before.jars[p]
        decreases left
      {
        var p :| p in left;
        account.jars := account.jars[p := WithLock(account.jars[p], false)];
        if ShouldClose(account.jars[p]) {
          account.jars := account.jars - {p};
        }
        left := left - {p};
      }
    }

    method ApplyRollback(account: StoredAccount, rollback: map<ProductId, JarCompanion>)
      requires rollback.Keys <= account.jars.Keys
      modifies account`jars
      ensures account.Value() == old(account.Value()).(jars := account.jars) && account.jars.Keys == old(account.jars).Keys
      ensures forall p :: p in account.jars ==>
                account.jars[p] == if p in rollback then Applied(old(account.jars)[p], rollback[p]) else old(account.jars)[p]
    {
      ghost var before := account.Value();
      var left := rollback.Keys;
      while left != {}
        invariant left <= rollback.Keys && account.Value() == before.(jars := account.jars) && account.jars.Keys == before.jars.Keys
        invariant forall p :: p in account.jars ==>
                    account.jars[p] == if p in rollback && p !in left then Applied(before.jars[p], rollback[p]) else before.jars[p]
        decreases left
      {
        var p :| p in left;
        account.jars := account.jars[p := Applied(account.jars[p], rollback[p])];
        left := left - {p};
      }
    }

    // --- Fees -------------------------------------------------------------------

    method WithdrawFee() returns (promise: Promise)
      modifies this`feeAmount
      ensures Reply(Value(), Some(promise)) == CallWithdrawFee(old(Value()))
    {
      promise := AfterFee(feeAmount);
      feeAmount := 0;
    }

    method AfterFeeWithdrawn(amount: TokenAmount, isSuccess: bool, ghost now: Timestamp)
      modifies this`feeAmount
      ensures Becomes(Finish(old(Value()), AfterFee(amount), isSuccess, now), old(Value()), Value(), Ok(()))
    {
      if !isSuccess {
        feeAmount := feeAmount + amount;
      }
    }

    // --- Restakes ---------------------------------------------------------------

    /** The parts of one jar, and the fee of that jar on what is not restaked. */
    method BuildFromJar(account: Account, p: ProductId, target: Option<TokenAmount>, now: Timestamp) returns (r: Result<Request>)
      requires Known(account, products) && Ordered(account, now)
      ensures IsRequest(account, products, FromJar(p), target, now, r)
    {
      if p !in account.jars {
        return Err(JarNotFound);
      }
      if account.jars[p].isLocked {
        return Err(JarIsLocked);
      }
      var part := BuildPart(account, p, now);
      OneBalance(p, part);
      var amount := target.GetOr(part.balance);
      if amount > part.balance {
        return Err(NotEnoughFunds);
      }
      var fee := if amount < part.balance then products[p].CalculateFee(part.balance - amount) else 0;
      return Ok(Request(map[p := part], part.balance, amount, fee));
    }

    /** The parts of all unlocked jars with a liquid balance; the fee is their total
        fee's share on what is not restaked, rounded up. */
    method BuildFromAll(account: Account, target: Option<TokenAmount>, now: Timestamp) returns (r: Result<Request>)
      requires Known(account, products) && Ordered(account, now)
      ensures IsRequest(account, products, FromAllJars, target, now, r)
    {
      var parts, total, totalFee := CollectParts(account, now);
      var amount := target.GetOr(total);
      if amount > total {
        return Err(NotEnoughFunds);
      }
      var fee := if amount < total then MulDivCeil(totalFee, total - amount, total) else 0;
      return Ok(Request(parts, total, amount, fee));
    }

    method CollectParts(account: Account, now: Timestamp) returns (parts: map<ProductId, Part>, total: TokenAmount, totalFee: TokenAmount)
      requires Known(account, products) && Ordered(account, now)
      ensures parts == AllParts(account, products, now)
      ensures total == TotalBalance(parts) && totalFee == TotalFeeOf(parts, products)
    {
      parts, total, totalFee := map[], 0, 0;
      NoParts(products);
      var left := account.jars.Keys;
      while left != {}
        invariant left <= account.jars.Keys
        invariant forall p :: p in parts <==> p in AllParts(account, products, now) && p !in left
        invariant forall p :: p in parts ==> parts[p] == AllParts(account, products, now)[p]
        invariant total == TotalBalance(parts) && totalFee == TotalFeeOf(parts, products)
        decreases left
      {
        var p :| p in left;
        if !account.jars[p].isLocked {
          var part := BuildPart(account, p, now);
          if part.balance > 0 {
            OneMorePart(parts, products, p, part);
            parts := parts[p := part];
            total, totalFee := total + part.balance, totalFee + products[p].CalculateFee(part.balance);
          }
        }
        left := left - {p};
      }
      assert parts == AllParts(account, products, now);
    }

    method BuildPart(account: Account, p: ProductId, now: Timestamp) returns (part: Part)
      requires Known(account, products) && Ordered(account, now) && p in account.jars
      ensures part == PartFor(products[p], account.jars[p], now)
    {
      assert InOrder(account.jars[p].deposits, now);
      var balance, index := GetLiquidBalance(account.jars[p], products[p].terms, now);
      part := Part(balance, index);
    }

    method RestakeFrom(a: AccountId, source: Source, ticket: Ticket, signature: Option<string>, target: Option<TokenAmount>, now: Timestamp)
      returns (r: Result<Option<Promise>>)
      requires IsSound(now)
      modifies this`accounts
      ensures Answers(CallRestake(env, old(Value()), a, source, ticket, signature, target, now), old(Value()), Value(), r)
    {
      if a !in accounts {
        return Err(AccountNotFound);
      }
      assert Ordered(accounts[a], now);
      var outcome := RestakeAccount(a, accounts[a], source, ticket, signature, target, now);
      if outcome.Err? {
        return Err(outcome.error);
      }
      accounts := accounts[a := outcome.value.account];
      return Ok(outcome.value.promise);
    }

    method RestakeAccount(a: AccountId, before: Account, source: Source, ticket: Ticket, signature: Option<string>, target: Option<TokenAmount>, now: Timestamp)
      returns (r: Result<Outcome>)
      requires Known(before, products) && Ordered(before, now)
      ensures r == Restake(env, a, before, products, source, ticket, signature, target, now)
    {
      if ticket.productId !in products {
        return Err(ProductNotFound);
      }
      var product := products[ticket.productId];
      if !product.isEnabled {
        return Err(ProductDisabled);
      }
      var built;
      match source {
        case FromJar(p) => built := BuildFromJar(before, p, target, now);
        case FromAllJars => built := BuildFromAll(before, target, now);
      }
      if built.Err? {
        return Err(built.error);
      }
      var account := new StoredAccount(before);
      var isSigned := IsSigned(env, a, before, product, ticket, built.value.amount, signature, now);
      PartsAreFrozen(before, products, source, now);
      var promise := RestakeRequest(account, a, ticket, built.value, isSigned, now);
      if promise.Err? {
        return Err(promise.error);
      }
      return Ok(Outcome(account.Value(), promise.value));
    }

    method RestakeRequest(account: StoredAccount, a: AccountId, ticket: Ticket, request: Request, isSigned: bool, now: Timestamp)
      returns (r: Result<Option<Promise>>)
      requires Known(account.Value(), products) && ticket.productId in products
      requires request.parts.Keys <= account.jars.Keys && AllHold(account.Value(), request.parts)
      requires request.amount <= request.total
      modifies account
      ensures var spec := RestakeParts(a, old(account.Value()), products, request.parts, ticket, request.amount, request.total, request.fee, isSigned, now);
              match spec
              case Ok(outcome) => r == Ok(outcome.promise) && account.Value() == outcome.account
              case Err(error) => r == Err(error)
    {
      ghost var before := account.Value();
      var into := ticket.productId;
      if request.amount == 0 {
        return Err(NothingToRestake);
      }
      if !products[into].AcceptsAmount(request.amount) {
        return Err(OutOfCap);
      }
      if !isSigned {
        return Err(NotVerified);
      }
      var cached := account.UpdateJarCaches(products, request.parts.Keys, now);
      if cached.Err? {
        return Err(cached.error);
      }
      if products[into].terms.IsScoreBased() {
        var zoned := account.TrySetTimezone(ticket.timezone);
        if zoned.Err? {
          return Err(zoned.error);
        }
      }
      KeptInRange(before, account.Value(), products, request.parts, now);
      if request.amount == request.total {
        var moved := CleanUpAndPut(account, request.parts, into, request.amount, now);
        return if moved.Ok? then Ok(None) else Err(moved.error);
      }
      if request.fee > request.total - request.amount {
        return Err(FeeExceedsAmount);
      }
      LockJars(account, request.parts.Keys, true);
      return Ok(Some(AfterRemainder(a, request.parts, request.total - request.amount, request.fee, into, request.amount, now)));
    }

    method CleanUpAndPut(account: StoredAccount, parts: map<ProductId, Part>, into: ProductId, amount: TokenAmount, now: Timestamp) returns (r: Result<()>)
      requires parts.Keys <= account.jars.Keys
      modifies account`jars, account`nonce
      ensures match CleanUpAndDeposit(old(account.Value()), parts, into, amount, now)
              case Ok(after) => r == Ok(()) && account.Value() == after
              case Err(error) => r == Err(error)
    {
      var taken := TakeParts(account, parts);
      if taken.Err? {
        return taken;
      }
      account.Deposit(into, amount, now);
      account.nonce := account.nonce + 1;
      return Ok(());
    }

    method TakeParts(account: StoredAccount, parts: map<ProductId, Part>) returns (r: Result<()>)
      requires parts.Keys <= account.jars.Keys
      modifies account`jars
      ensures r.Ok? <==> PartsInRange(old(account.Value()), parts)
      ensures r.Err? ==> r.error == IndexOutOfRange
      ensures r.Ok? ==> r == Ok(()) && account.Value() == old(account.Value()).(jars := map p | p in old(account.jars) ::
                if p in parts then WithoutPrefix(old(account.jars)[p], parts[p].index) else old(account.jars)[p])
    {
      ghost var before := account.Value();
      var left := parts.Keys;
      while left != {}
        invariant left <= parts.Keys && account.Value() == before.(jars := account.jars) && account.jars.Keys == before.jars.Keys
        invariant forall p :: p in parts && p !in left ==> parts[p].index <= |before.jars[p].deposits|
        invariant forall p :: p in account.jars ==>
                    account.jars[p] == if p in parts && p !in left then WithoutPrefix(before.jars[p], parts[p].index) else before.jars[p]
        decreases left
      {
        var p :| p in left;
        if parts[p].index > |account.jars[p].deposits| {
          return Err(IndexOutOfRange);
        }
        account.jars := account.jars[p := WithoutPrefix(account.jars[p], parts[p].index)];
        left := left - {p};
      }
      assert account.jars == map p | p in before.jars :: if p in parts then WithoutPrefix(before.jars[p], parts[p].index) else before.jars[p];
      return Ok(());
    }

    method AfterTransferRemainder(promise: Promise, isSuccess: bool, now: Timestamp) returns (r: Result<()>)
      requires promise.AfterRemainder?
      modifies this`accounts, this`feeAmount
      ensures Becomes(Finish(old(Value()), promise, isSuccess, now), old(Value()), Value(), r)
    {
      if promise.account !in accounts {
        return Err(AccountNotFound);
      }
      var account := new StoredAccount(accounts[promise.account]);
      if !(promise.parts.Keys <= account.jars.Keys) {
        return Err(JarNotFound);
      }
      LockJars(account, promise.parts.Keys, false);
      if isSuccess {
        var moved := CleanUpAndPut(account, promise.parts, promise.into, promise.restaked, now);
        if moved.Err? {
          return Err(moved.error);
        }
        feeAmount := feeAmount + promise.fee;
      }
      accounts := accounts[promise.account := account.Value()];
      return Ok(());
    }

    // --- Tokens coming in -------------------------------------------------------

    method TakeDeposit(account: StoredAccount, ticket: Ticket, amount: TokenAmount, now: Timestamp) returns (r: Result<()>)
      requires Known(account.Value(), products) && ticket.productId in products
      modifies account`jars
      ensures match DepositAndRefresh(old(account.Value()), products, ticket.productId, amount, now)
              case Ok(after) => r == Ok(()) && account.Value() == after
              case Err(error) => r == Err(error)
    {
      account.Deposit(ticket.productId, amount, now);
      var cached := account.UpdateJarCache(products, ticket.productId, now);
      if cached.Err? {
        return Err(cached.error);
      }
      return Ok(());
    }

    /** The timezone, if the product needs one. */
    method PrepareTimezone(account: StoredAccount, ticket: Ticket) returns (r: Result<()>)
      requires ticket.productId in products
      modifies account`timezone
      ensures match WithTimezoneFor(old(account.Value()), products[ticket.productId], ticket.timezone)
              case Ok(after) => r == Ok(()) && account.Value() == after
              case Err(error) => r == Err(error) && account.Value() == old(account.Value())
    {
      if products[ticket.productId].terms.IsScoreBased() {
        var zoned := account.TrySetTimezone(ticket.timezone);
        if zoned.Err? {
          return Err(zoned.error);
        }
      }
      return Ok(());
    }

    method OnStake(a: AccountId, ticket: Ticket, signature: Option<string>, amount: TokenAmount, now: Timestamp) returns (r: Result<()>)
      requires KnownState(Value())
      modifies this`accounts
      ensures Becomes(Stake(env, old(Value()), a, ticket, signature, amount, now), old(Value()), Value(), r)
    {
      var message := StakeMessage(env, a, AccountOf(Value(), a), ticket, amount);
      var checked := CheckTicket(env, products, ticket, amount, message, signature, now);
      if checked.Err? {
        return checked;
      }
      var accepted := AcceptStake(AccountOrNew(Value(), a, now), ticket, amount, now);
      if accepted.Err? {
        return Err(accepted.error);
      }
      accounts := accounts[a := accepted.value];
      return Ok(());
    }

    method AcceptStake(before: Account, ticket: Ticket, amount: TokenAmount, now: Timestamp) returns (r: Result<Account>)
      requires Known(before, products) && ticket.productId in products
      ensures r == StakeAccepted(before, products, ticket, amount, now)
    {
      var account := new StoredAccount(before.(nonce := before.nonce + 1));
      var zoned := PrepareTimezone(account, ticket);
      if zoned.Err? {
        return Err(zoned.error);
      }
      var taken := TakeDeposit(account, ticket, amount, now);
      if taken.Err? {
        return Err(taken.error);
      }
      return Ok(account.Value());
    }

    method OnAirdrop(ticket: Ticket, signature: Option<string>, total: TokenAmount, receivers: seq<AccountId>,
                     booster: Score, earnedAt: Option<Timestamp>, now: Timestamp)
      returns (r: Result<()>)
      requires KnownState(Value())
      modifies this`accounts
      ensures Becomes(Airdrop(env, old(Value()), ticket, signature, total, receivers, booster, earnedAt, now), old(Value()), Value(), r)
    {
      if receivers == [] || total % |receivers| != 0 {
        return Err(BadAirdropSplit);
      }
      var amount := total / |receivers|;
      var message := AirdropMessage(env.contractId, ticket.productId, amount, receivers, ticket.validUntil);
      var checked := CheckTicket(env, products, ticket, amount, message, signature, now);
      if checked.Err? {
        return checked;
      }
      r := AirdropToAll(ticket, amount, receivers, booster, earnedAt, now);
    }

    method AirdropToAll(ticket: Ticket, amount: TokenAmount, receivers: seq<AccountId>, booster: Score, earnedAt: Option<Timestamp>, now: Timestamp)
      returns (r: Result<()>)
      requires KnownState(Value()) && ticket.productId in products
      modifies this`accounts
      ensures Becomes(AirdropAll(old(Value()), ticket, amount, receivers, booster, earnedAt, now), old(Value()), Value(), r)
    {
      var saved := accounts;
      for i := 0 to |receivers|
        invariant KnownState(Value())
        invariant Value() == old(Value()).(accounts := accounts)
        invariant AirdropAll(old(Value()), ticket, amount, receivers[..i], booster, earnedAt, now) == Ok(Value())
      {
        ghost var before := Value();
        var dropped := AirdropTo(receivers[i], ticket, amount, booster, earnedAt, now);
        if dropped.Err? {
          accounts := saved;
          AirdropToOneMore(old(Value()), ticket, amount, receivers, i, booster, earnedAt, now, before);
          AirdropAborts(old(Value()), ticket, amount, receivers, i + 1, booster, earnedAt, now);
          return dropped;
        }
        AirdropToOneMore(old(Value()), ticket, amount, receivers, i, booster, earnedAt, now, before);
      }
      assert receivers[..|receivers|] == receivers;
      return Ok(());
    }

    method AirdropTo(a: AccountId, ticket: Ticket, amount: TokenAmount, booster: Score, earnedAt: Option<Timestamp>, now: Timestamp) returns (r: Result<()>)
      requires KnownState(Value()) && ticket.productId in products
      modifies this`accounts
      ensures match Airdropped(AccountOrNew(old(Value()), a, now), products, ticket, amount, booster, earnedAt, now)
              case Ok(after) => r == Ok(()) && Value() == WithAccount(old(Value()), a, after) && Known(after, products)
              case Err(error) => r == Err(error) && Value() == old(Value())
    {
      var before := AccountOrNew(Value(), a, now);
      var dropped := AirdropAccount(before, ticket, amount, booster, earnedAt, now);
      if dropped.Err? {
        return Err(dropped.error);
      }
      AirdroppedAddsOne(before, products, ticket, amount, booster, earnedAt, now);
      accounts := accounts[a := dropped.value];
      return Ok(());
    }

    method AirdropAccount(before: Account, ticket: Ticket, amount: TokenAmount, booster: Score, earnedAt: Option<Timestamp>, now: Timestamp)
      returns (r: Result<Account>)
      requires Known(before, products) && ticket.productId in products
      ensures r == Airdropped(before, products, ticket, amount, booster, earnedAt, now)
    {
      var account := new StoredAccount(before);
      var zoned := PrepareTimezone(account, ticket);
      if zoned.Err? {
        return Err(zoned.error);
      }
      if booster > 0 {
        var settled := account.SettleInterest(products, now);
        if settled.Err? {
          return Err(settled.error);
        }
      }
      var taken := TakeDeposit(account, ticket, amount, now);
      if taken.Err? {
        return Err(taken.error);
      }
      var boosted := ApplyAirdropBooster(account, booster, earnedAt, now);
      if boosted.Err? {
        return Err(boosted.error);
      }
      return Ok(account.Value());
    }

    method ApplyAirdropBooster(account: StoredAccount, booster: Score, earnedAt: Option<Timestamp>, now: Timestamp) returns (r: Result<()>)
      modifies account`score
      ensures match Boosted(old(account.Value()), booster, earnedAt, now)
              case Ok(after) => r == Ok(()) && account.Value() == after
              case Err(error) => r == Err(error)
    {
      if booster == 0 || !account.timezone.IsValid() {
        return Ok(());
      }
      var daysAgo := 0;
      if earnedAt.Some? {
        if !NotFuture(account.timezone, earnedAt.value, now) {
          return Err(TimestampFromFuture);
        }
        daysAgo := DaysAgo(account.timezone, earnedAt.value, now);
        if daysAgo > 0xFFFF {
          return Err(DaysOffsetOutOfRange);
        }
      }
      var isApplied := account.ApplyBoosterTo(daysAgo, booster, now);
      return Ok(());
    }

    // --- Oracle -----------------------------------------------------------------

    method UpdateOne(a: AccountId, update: Accounts.Update, now: Timestamp) returns (r: Result<()>)
      requires KnownState(Value())
      modifies this`accounts
      ensures Becomes(UpdateAccount(old(Value()), a, update, now), old(Value()), Value(), r)
    {
      if a !in accounts {
        return Err(AccountNotFound);
      }
      var account := new StoredAccount(accounts[a]);
      var updated := account.Update(products, update, now);
      if updated.Err? {
        return updated;
      }
      accounts := accounts[a := account.Value()];
      return Ok(());
    }

    /** The batches of the oracle: scores, boosters or features, one account after
        the other. */
    method UpdateBatch(batch: seq<(AccountId, Accounts.Update)>, now: Timestamp) returns (r: Result<()>)
      requires KnownState(Value())
      modifies this`accounts
      ensures Becomes(UpdateAll(old(Value()), batch, now), old(Value()), Value(), r)
    {
      var saved := accounts;
      for i := 0 to |batch|
        invariant KnownState(Value())
        invariant Value() == old(Value()).(accounts := accounts)
        invariant UpdateAll(old(Value()), batch[..i], now) == Ok(Value())
      {
        assert batch[..i + 1][..i] == batch[..i];
        var updated := UpdateOne(batch[i].0, batch[i].1, now);
        if updated.Err? {
          accounts := saved;
          UpdatesAbort(old(Value()), batch, i + 1, now);
          return updated;
        }
      }
      assert batch[..|batch|] == batch;
      return Ok(());
    }

    method SwitchFeature(a: AccountId, feature: Feature, isEnabled: bool, now: Timestamp) returns (r: Result<()>)
      requires KnownState(Value())
      modifies this`accounts
      ensures Becomes(SetFeatureEnabled(old(Value()), a, feature, isEnabled, now), old(Value()), Value(), r)
    {
      if a in accounts {
        r := UpdateOne(a, SetFeature(feature, isEnabled), now);
      } else {
        var account := new StoredAccount(NewAccount(now));
        account.features := WithFeature(account.features, feature, isEnabled);
        accounts := accounts[a := account.Value()];
        r := Ok(());
      }
    }

    method ChooseTimezone(a: AccountId, timezone: Timezone, now: Timestamp) returns (r: Result<()>)
      modifies this`accounts
      ensures Becomes(SetTimezone(old(Value()), a, timezone, now), old(Value()), Value(), r)
    {
      var account := new StoredAccount(AccountOrNew(Value(), a, now));
      var zoned := account.TrySetTimezone(Some(timezone));
      if zoned.Err? {
        return zoned;
      }
      accounts := accounts[a := account.Value()];
      return Ok(());
    }
  }

  /** What a restake takes, moves and charges. */
  datatype Request = Request(parts: map<ProductId, Part>, total: TokenAmount, amount: TokenAmount, fee: TokenAmount)

  ghost predicate IsRequest(account: Account, products: map<ProductId, Product>, source: Source, target: Option<TokenAmount>, now: Timestamp, r: Result<Request>)
    requires Known(account, products)
  {
    match Parts(account, products, source, now)
    case Err(error) => r == Err(error)
    case Ok(parts) =>
      var total := TotalBalance(parts);
      var amount := target.GetOr(total);
      r == if amount > total then Err(NotEnoughFunds) else Ok(Request(parts, total, amount, FeeFor(source, parts, products, amount)))
  }

  lemma EmptySum<K>(m: map<K, nat>)
    requires m.Keys == {}
    ensures Sum(m) == 0
  {
    assert m == map[];
  }

  lemma NoParts(products: map<ProductId, Product>)
    ensures TotalBalance(map[]) == 0 && TotalFeeOf(map[], products) == 0
  {
    EmptySum(Balances(map[]));
    EmptySum(PartFees(map[], products));
  }

  lemma OneMorePart(parts: map<ProductId, Part>, products: map<ProductId, Product>, p: ProductId, part: Part)
    requires parts.Keys <= products.Keys && p in products && p !in parts
    ensures TotalBalance(parts[p := part]) == TotalBalance(parts) + part.balance
    ensures TotalFeeOf(parts[p := part], products) == TotalFeeOf(parts, products) + products[p].CalculateFee(part.balance)
  {
    OneMoreBalance(parts, p, part);
    OneMoreFee(parts, products, p, part);
  }

  lemma OneMoreBalance(parts: map<ProductId, Part>, p: ProductId, part: Part)
    requires p !in parts
    ensures TotalBalance(parts[p := part]) == TotalBalance(parts) + part.balance
  {
    SumUpdate(Balances(parts), p, part.balance);
    assert Balances(parts[p := part]) == Balances(parts)[p := part.balance];
  }

  lemma OneMoreFee(parts: map<ProductId, Part>, products: map<ProductId, Product>, p: ProductId, part: Part)
    requires parts.Keys <= products.Keys && p in products && p !in parts
    ensures TotalFeeOf(parts[p := part], products) == TotalFeeOf(parts, products) + products[p].CalculateFee(part.balance)
  {
    SumUpdate(PartFees(parts, products), p, products[p].CalculateFee(part.balance));
    assert PartFees(parts[p := part], products) == PartFees(parts, products)[p := products[p].CalculateFee(part.balance)];
  }

  lemma OneBalance(p: ProductId, part: Part)
    ensures TotalBalance(map[p := part]) == part.balance
  {
    EmptySum(Balances(map[]));
    OneMoreBalance(map[], p, part);
  }

  /** Refreshing leaves the parts where they are. */
  lemma KeptInRange(before: Account, after: Account, products: map<ProductId, Product>, parts: map<ProductId, Part>, now: Timestamp)
    requires Known(before, products)
    requires RefreshJars(before, products, parts.Keys, now).Ok?
    requires after.jars == RefreshJars(before, products, parts.Keys, now).value.jars
    ensures after.jars.Keys == before.jars.Keys
  {
  }

  lemma AirdropToOneMore(c: State, ticket: Ticket, amount: TokenAmount, receivers: seq<AccountId>, n: nat,
                         booster: Score, earnedAt: Option<Timestamp>, now: Timestamp, before: State)
    requires KnownState(c) && ticket.productId in c.products && n < |receivers|
    requires AirdropAll(c, ticket, amount, receivers[..n], booster, earnedAt, now) == Ok(before)
    ensures KnownState(before)
    ensures AirdropAll(c, ticket, amount, receivers[..n + 1], booster, earnedAt, now)
         == match Airdropped(AccountOrNew(before, receivers[n], now), c.products, ticket, amount, booster, earnedAt, now)
            case Ok(after) => Ok(WithAccount(before, receivers[n], after))
            case Err(error) => Err(error)
  {
    assert receivers[..n + 1][..n] == receivers[..n];
  }

  lemma {:induction false} AirdropAborts(c: State, ticket: Ticket, amount: TokenAmount, receivers: seq<AccountId>, n: nat,
                                         booster: Score, earnedAt: Option<Timestamp>, now: Timestamp)
    requires KnownState(c) && ticket.productId in c.products && n <= |receivers|
    requires AirdropAll(c, ticket, amount, receivers[..n], booster, earnedAt, now).Err?
    ensures AirdropAll(c, ticket, amount, receivers, booster, earnedAt, now)
         == Err(AirdropAll(c, ticket, amount, receivers[..n], booster, earnedAt, now).error)
  {
    if n == |receivers| {
      assert receivers[..n] == receivers;
    } else {
      var rest := receivers[..|receivers| - 1];
      assert rest[..n] == receivers[..n];
      AirdropAborts(c, ticket, amount, rest, n, booster, earnedAt, now);
    }
  }

  lemma {:induction false} UpdatesAbort(c: State, batch: seq<(AccountId, Accounts.Update)>, n: nat, now: Timestamp)
    requires KnownState(c) && n <= |batch|
    requires UpdateAll(c, batch[..n], now).Err?
    ensures UpdateAll(c, batch, now) == Err(UpdateAll(c, batch[..n], now).error)
  {
    if n == |batch| {
      assert batch[..n] == batch;
    } else {
      var rest := batch[..|batch| - 1];
      assert rest[..n] == batch[..n];
      UpdatesAbort(c, rest, n, now);
    }
  }

  /** The jar is closed, or has lost the deposits before the index. */
  predicate IsTaken(jar: Jar, index: nat, p: ProductId, jars: map<ProductId, Jar>) {
    && index <= |jar.deposits|
    && var taken := TakenOut(jar, index);
       (p in jars <==> !ShouldClose(taken)) && (p in jars ==> jars[p] == taken)
  }

  /** All requests but those still left have been carried out. */
  predicate IsCleaned(before: Account, requests: map<ProductId, Withdrawal>, left: set<ProductId>, jars: map<ProductId, Jar>) {
    && requests.Keys <= before.jars.Keys && jars.Keys <= before.jars.Keys
    && (forall p :: p in before.jars && p !in requests ==> p in jars && jars[p] == before.jars[p])
    && (forall p :: p in requests && p in left ==> p in jars && jars[p] == WithLock(before.jars[p], false))
    && (forall p :: p in requests && p !in left ==> IsTaken(before.jars[p], requests[p].index, p, jars))
  }

  lemma StillLocked(before: Account, requests: map<ProductId, Withdrawal>, left: set<ProductId>, jars: map<ProductId, Jar>, p: ProductId)
    requires IsCleaned(before, requests, left, jars) && p in left && p in requests
    ensures p in jars && p in before.jars && jars[p] == WithLock(before.jars[p], false)
  {
  }

  function FeesWithout(requests: map<ProductId, Withdrawal>, left: set<ProductId>): map<ProductId, TokenAmount> {
    map p | p in requests && p !in left :: requests[p].fee
  }

  ghost function FeesBeside(requests: map<ProductId, Withdrawal>, left: set<ProductId>): TokenAmount {
    Sum(FeesWithout(requests, left))
  }

  lemma NoFees(requests: map<ProductId, Withdrawal>)
    ensures FeesBeside(requests, requests.Keys) == 0
    ensures FeesBeside(requests, {}) == TotalFee(requests)
  {
    EmptySum(FeesWithout(requests, requests.Keys));
    assert FeesWithout(requests, {}) == map p | p in requests :: requests[p].fee;
  }

  lemma OneFee(p: ProductId, request: Withdrawal)
    ensures TotalFee(map[p := request]) == request.fee
  {
    var none: map<ProductId, TokenAmount> := map[];
    EmptySum(none);
    SumUpdate(none, p, request.fee);
    assert (map q | q in map[p := request] :: map[p := request][q].fee) == none[p := request.fee];
  }

  lemma OneMoreFeeBeside(requests: map<ProductId, Withdrawal>, left: set<ProductId>, p: ProductId)
    requires p in left && p in requests
    ensures FeesBeside(requests, left - {p}) == FeesBeside(requests, left) + requests[p].fee
  {
    SumUpdate(FeesWithout(requests, left), p, requests[p].fee);
    assert FeesWithout(requests, left - {p}) == FeesWithout(requests, left)[p := requests[p].fee];
  }

  lemma OneMoreCleaned(before: Account, requests: map<ProductId, Withdrawal>, left: set<ProductId>, p: ProductId,
                       jars: map<ProductId, Jar>, jars': map<ProductId, Jar>)
    requires IsCleaned(before, requests, left, jars) && p in left && p in requests
    requires requests[p].index <= |before.jars[p].deposits|
    requires var taken := WithoutPrefix(jars[p], requests[p].index);
             jars' == if ShouldClose(taken) then jars - {p} else jars[p := taken]
    ensures IsCleaned(before, requests, left - {p}, jars')
  {
    assert WithoutPrefix(jars[p], requests[p].index) == TakenOut(before.jars[p], requests[p].index);
    forall q | q in requests && q !in left - {p} ensures IsTaken(before.jars[q], requests[q].index, q, jars') {
      assert q != p ==> IsTaken(before.jars[q], requests[q].index, q, jars);
    }
  }

  lemma IndexTooBig(before: Account, requests: map<ProductId, Withdrawal>, p: ProductId)
    requires requests.Keys <= before.jars.Keys
    requires p in requests && requests[p].index > |before.jars[p].deposits|
    ensures FinishWithdraw(before, PartsOf(requests), true) == Err(IndexOutOfRange)
  {
    assert p in PartsOf(requests) && PartsOf(requests)[p].index > |before.jars[p].deposits|;
  }

  lemma TakenIsFinished(before: Account, requests: map<ProductId, Withdrawal>, jars: map<ProductId, Jar>)
    requires IsCleaned(before, requests, {}, jars)
    ensures FinishWithdraw(before, PartsOf(requests), true).Ok?
    ensures FinishWithdraw(before, PartsOf(requests), true).value == before.(jars := jars)
  {
    forall p | p in requests ensures IsTaken(before.jars[p], requests[p].index, p, jars) {
    }
    assert FinishWithdraw(before, PartsOf(requests), true).value.jars == jars;
  }

  lemma ClaimedJarsAre(settled: Account, products: map<ProductId, Product>, now: Timestamp, remainders: map<ProductId, nat>, jars: map<ProductId, Jar>)
    requires Known(settled, products) && AllAccrue(settled, products, now)
    requires remainders.Keys == Claimable(settled, products, now).Keys && jars.Keys == settled.jars.Keys
    requires forall p :: p in remainders ==> remainders[p] == InterestOf(settled, products, p, now).1
    requires forall p :: p in jars ==>
               jars[p] == if p in remainders then WithLock(Claimed(settled.jars[p], remainders[p], now), true) else settled.jars[p]
    ensures jars == AllWithLock(WithClaims(settled, products, now), remainders.Keys, true).jars
    ensures remainders == map[] ==> jars == settled.jars
  {
  }

  lemma SameHoldingsOrdered(before: Account, after: Account, now: Timestamp)
    requires SameHoldings(before, after, now) && Ordered(before, now)
    ensures Ordered(after, now)
  {
    forall p | p in after.jars ensures InOrder(after.jars[p].deposits, now) {
      assert InOrder(before.jars[p].deposits, now);
    }
  }
}
