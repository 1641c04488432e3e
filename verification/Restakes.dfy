/** Moving liquid deposits into a product, with an optional remainder paid out. */
module Restakes {
  import opened Numbers
  import opened Types
  import opened MapSum
  import opened Jars
  import opened Accounts
  import opened Promises
  import opened Tickets

  /** What a restake takes: the liquid part of each jar, and the fee as a function
      of the amount paid out. */
  datatype Source = FromJar(p: ProductId) | FromAllJars

  function PartFor(product: Product, jar: Jar, now: Timestamp): Part {
    var (balance, index) := LiquidBalance(product.terms, now, jar.deposits);
    Part(balance, index)
  }

  function AllParts(account: Account, products: map<ProductId, Product>, now: Timestamp): map<ProductId, Part>
    requires Known(account, products)
  {
    map p | p in account.jars && !account.jars[p].isLocked && PartFor(products[p], account.jars[p], now).balance > 0 ::
      PartFor(products[p], account.jars[p], now)
  }

  function Parts(account: Account, products: map<ProductId, Product>, source: Source, now: Timestamp): Result<map<ProductId, Part>>
    requires Known(account, products)
  {
    match source
    case FromAllJars => Ok(AllParts(account, products, now))
    case FromJar(p) =>
      if p !in account.jars then Err(JarNotFound)
      else if account.jars[p].isLocked then Err(JarIsLocked)
      else Ok(map[p := PartFor(products[p], account.jars[p], now)])
  }

  function Balances(parts: map<ProductId, Part>): map<ProductId, TokenAmount> {
    map p | p in parts :: parts[p].balance
  }

  function PartFees(parts: map<ProductId, Part>, products: map<ProductId, Product>): map<ProductId, TokenAmount>
    requires parts.Keys <= products.Keys
  {
    map p | p in parts :: products[p].CalculateFee(parts[p].balance)
  }

  ghost function TotalBalance(parts: map<ProductId, Part>): TokenAmount {
    Sum(Balances(parts))
  }

  ghost function TotalFeeOf(parts: map<ProductId, Part>, products: map<ProductId, Product>): TokenAmount
    requires parts.Keys <= products.Keys
  {
    Sum(PartFees(parts, products))
  }

  /** One jar pays its own fee on the remainder; several jars pay the share of
      their total fee that the remainder is of the total, rounded up. */
  ghost function RemainderFee(source: Source, parts: map<ProductId, Part>, products: map<ProductId, Product>, remainder: TokenAmount): TokenAmount
    requires parts.Keys <= products.Keys
    requires source.FromJar? ==> source.p in products
    requires remainder > 0 ==> TotalBalance(parts) > 0
  {
    if remainder == 0 then 0 else
      match source
      case FromJar(p) => products[p].CalculateFee(remainder)
      case FromAllJars => MulDivCeil(TotalFeeOf(parts, products), remainder, TotalBalance(parts))
  }

  predicate PartsInRange(account: Account, parts: map<ProductId, Part>) {
    forall p :: p in parts ==> p in account.jars && parts[p].index <= |account.jars[p].deposits|
  }

  /** The parts leave their jars and one new deposit enters. */
  function CleanUpAndDeposit(account: Account, parts: map<ProductId, Part>, into: ProductId, amount: TokenAmount, now: Timestamp): Result<Account> {
    if !(parts.Keys <= account.jars.Keys) then Err(JarNotFound)
    else if !PartsInRange(account, parts) then Err(IndexOutOfRange)
    else
      var cleaned := account.(jars := map p | p in account.jars ::
        if p in parts then WithoutPrefix(account.jars[p], parts[p].index) else account.jars[p]);
      var deposited := Deposited(cleaned, into, amount, now);
      Ok(deposited.(nonce := deposited.nonce + 1))
  }

  ghost function Restake(env: Env, a: AccountId, account: Account, products: map<ProductId, Product>, source: Source,
                         ticket: Ticket, signature: Option<string>, target: Option<TokenAmount>, now: Timestamp): (r: Result<Outcome>)
    requires Known(account, products)
    ensures r.Ok? ==> r.value.account.features == account.features && account.nonce <= r.value.account.nonce
  {
    if ticket.productId !in products then Err(ProductNotFound)
    else if !products[ticket.productId].isEnabled then Err(ProductDisabled)
    else
      var parts :- Parts(account, products, source, now);
      var total := TotalBalance(parts);
      var amount := target.GetOr(total);
      RestakeParts(a, account, products, parts, ticket, amount, total, FeeFor(source, parts, products, amount),
                   IsSigned(env, a, account, products[ticket.productId], ticket, amount, signature, now), now)
  }

  predicate IsSigned(env: Env, a: AccountId, account: Account, product: Product, ticket: Ticket, amount: TokenAmount,
                     signature: Option<string>, now: Timestamp)
  {
    Verified(env, product, DepositMessage(ForRestake, env.contractId, a, ticket.productId, amount, ticket.validUntil, account.nonce),
             ticket, signature, now)
  }

  ghost function FeeFor(source: Source, parts: map<ProductId, Part>, products: map<ProductId, Product>, amount: TokenAmount): TokenAmount
    requires parts.Keys <= products.Keys
    requires source.FromJar? ==> source.p in products
  {
    if amount < TotalBalance(parts) then RemainderFee(source, parts, products, TotalBalance(parts) - amount) else 0
  }

  function RestakeParts(a: AccountId, account: Account, products: map<ProductId, Product>, parts: map<ProductId, Part>, ticket: Ticket,
                        amount: TokenAmount, total: TokenAmount, fee: TokenAmount, isSigned: bool, now: Timestamp): (r: Result<Outcome>)
    requires Known(account, products) && ticket.productId in products
    ensures r.Ok? ==> r.value.account.features == account.features && account.nonce <= r.value.account.nonce
  {
    var into := ticket.productId;
    if amount > total then Err(NotEnoughFunds)
    else if amount == 0 then Err(NothingToRestake)
    else if !products[into].AcceptsAmount(amount) then Err(OutOfCap)
    else if !isSigned then Err(NotVerified)
    else
      var refreshed :- RefreshJars(account, products, parts.Keys, now);
      var zoned :- WithTimezoneFor(refreshed, products[into], ticket.timezone);
      Moved(a, zoned, parts, into, amount, total - amount, fee, now)
  }

  /** Without a remainder the move happens at once; otherwise the jars are locked
      until the transfer of the remainder is known. */
  function Moved(a: AccountId, account: Account, parts: map<ProductId, Part>, into: ProductId, amount: TokenAmount,
                 remainder: TokenAmount, fee: TokenAmount, now: Timestamp): Result<Outcome>
  {
    if remainder == 0 then
      var moved :- CleanUpAndDeposit(account, parts, into, amount, now);
      Ok(Outcome(moved, None))
    else if fee > remainder then Err(FeeExceedsAmount)
    else Ok(Outcome(AllWithLock(account, parts.Keys, true),
                    Some(AfterRemainder(a, parts, remainder, fee, into, amount, now))))
  }

  // --- The callback -----------------------------------------------------------

  function FinishRestake(account: Account, promise: Promise, isSuccess: bool, now: Timestamp): Result<Account>
    requires promise.AfterRemainder?
  {
    if !(promise.parts.Keys <= account.jars.Keys) then Err(JarNotFound) else
      var unlocked := AllWithLock(account, promise.parts.Keys, false);
      if isSuccess then CleanUpAndDeposit(unlocked, promise.parts, promise.into, promise.restaked, now) else Ok(unlocked)
  }

  // --- What the calls do to the jars ------------------------------------------

  lemma PartsAreFrozen(account: Account, products: map<ProductId, Product>, source: Source, now: Timestamp)
    requires Known(account, products)
    requires Parts(account, products, source, now).Ok?
    ensures var parts := Parts(account, products, source, now).value;
            && parts.Keys <= account.jars.Keys
            && (forall p :: p in parts ==> !account.jars[p].isLocked)
            && AllHold(account, parts)
            && HeldWereLiquid(account, products, parts, now)
  {
  }

  /** Taking a prefix out and putting a deposit in keeps the order. */
  lemma CleanUpKeepsOrder(account: Account, parts: map<ProductId, Part>, into: ProductId, amount: TokenAmount, now: Timestamp)
    requires CleanUpAndDeposit(account, parts, into, amount, now).Ok?
    requires Ordered(account, now)
    ensures Ordered(CleanUpAndDeposit(account, parts, into, amount, now).value, now)
  {
    var after := CleanUpAndDeposit(account, parts, into, amount, now).value;
    forall p | p in after.jars ensures InOrder(after.jars[p].deposits, now) {
      assert p in account.jars ==> InOrder(account.jars[p].deposits, now);
    }
  }

  lemma MovingOpens(before: Account, ready: Account, parts: map<ProductId, Part>, into: ProductId, amount: TokenAmount,
                    products: map<ProductId, Product>, now: Timestamp)
    requires Known(before, products) && into in products
    requires SameHoldings(before, ready, now)
    requires forall p :: p in parts && p in before.jars ==> !before.jars[p].isLocked
    requires CleanUpAndDeposit(ready, parts, into, amount, now).Ok?
    ensures Opens(before, CleanUpAndDeposit(ready, parts, into, amount, now).value, {}, map[], products, now)
  {
    if Ordered(before, now) {
      CleanUpKeepsOrder(ready, parts, into, amount, now);
    }
  }

  lemma MovedOpens(a: AccountId, before: Account, ready: Account, parts: map<ProductId, Part>, into: ProductId, amount: TokenAmount,
                   remainder: TokenAmount, fee: TokenAmount, products: map<ProductId, Product>, now: Timestamp)
    requires Known(before, products) && into in products
    requires SameHoldings(before, ready, now)
    requires parts.Keys <= before.jars.Keys
    requires forall p :: p in parts ==> !before.jars[p].isLocked
    requires AllHold(ready, parts) && HeldWereLiquid(ready, products, parts, now)
    requires Moved(a, ready, parts, into, amount, remainder, fee, now).Ok?
    ensures var outcome := Moved(a, ready, parts, into, amount, remainder, fee, now).value;
            Opened(before, outcome, products, now)
  {
    if remainder == 0 {
      MovingOpens(before, ready, parts, into, amount, products, now);
    } else {
      LockingOpens(before, ready, parts.Keys, parts, products, now);
    }
  }

  lemma FrozenElsewhere(account: Account, ready: Account, products: map<ProductId, Product>, parts: map<ProductId, Part>, now: Timestamp)
    requires SameHoldings(account, ready, now)
    requires AllHold(account, parts) && HeldWereLiquid(account, products, parts, now)
    ensures AllHold(ready, parts) && HeldWereLiquid(ready, products, parts, now)
  {
    forall p | p in parts ensures p in ready.jars && Holds(ready.jars[p], parts[p]) {
      assert Holds(account.jars[p], parts[p]);
    }
  }

  lemma RestakePartsOpens(a: AccountId, account: Account, products: map<ProductId, Product>, parts: map<ProductId, Part>, ticket: Ticket,
                          amount: TokenAmount, total: TokenAmount, fee: TokenAmount, isSigned: bool, now: Timestamp)
    requires Known(account, products)
    requires ticket.productId in products && parts.Keys <= account.jars.Keys
    requires forall p :: p in parts ==> !account.jars[p].isLocked
    requires AllHold(account, parts) && HeldWereLiquid(account, products, parts, now)
    requires RestakeParts(a, account, products, parts, ticket, amount, total, fee, isSigned, now).Ok?
    ensures Opened(account, RestakeParts(a, account, products, parts, ticket, amount, total, fee, isSigned, now).value, products, now)
  {
    RefreshKeepsDeposits(account, products, parts.Keys, now);
    var ready := WithTimezoneFor(RefreshJars(account, products, parts.Keys, now).value, products[ticket.productId], ticket.timezone).value;
    FrozenElsewhere(account, ready, products, parts, now);
    MovedOpens(a, account, ready, parts, ticket.productId, amount, total - amount, fee, products, now);
  }

  lemma RestakeOpens(env: Env, a: AccountId, account: Account, products: map<ProductId, Product>, source: Source,
                     ticket: Ticket, signature: Option<string>, target: Option<TokenAmount>, now: Timestamp)
    requires Known(account, products)
    requires Restake(env, a, account, products, source, ticket, signature, target, now).Ok?
    ensures var outcome := Restake(env, a, account, products, source, ticket, signature, target, now).value;
            Opened(account, outcome, products, now)
  {
    PartsAreFrozen(account, products, source, now);
    var parts, total, amount, fee, isSigned := RestakeIs(env, a, account, products, source, ticket, signature, target, now);
    RestakePartsOpens(a, account, products, parts, ticket, amount, total, fee, isSigned, now);
  }

  /** Without a remainder: refresh, timezone, move. */
  lemma RestakePartsMove(a: AccountId, account: Account, products: map<ProductId, Product>, parts: map<ProductId, Part>, ticket: Ticket,
                         amount: TokenAmount, total: TokenAmount, fee: TokenAmount, isSigned: bool, now: Timestamp)
    requires Known(account, products) && ticket.productId in products && amount == total
    requires RestakeParts(a, account, products, parts, ticket, amount, total, fee, isSigned, now).Ok?
    ensures products[ticket.productId].AcceptsAmount(amount)
    ensures RefreshJars(account, products, parts.Keys, now).Ok?
    ensures var refreshed := RefreshJars(account, products, parts.Keys, now).value;
            && WithTimezoneFor(refreshed, products[ticket.productId], ticket.timezone).Ok?
            && var zoned := WithTimezoneFor(refreshed, products[ticket.productId], ticket.timezone).value;
               && CleanUpAndDeposit(zoned, parts, ticket.productId, amount, now).Ok?
               && RestakeParts(a, account, products, parts, ticket, amount, total, fee, isSigned, now).value
                  == Outcome(CleanUpAndDeposit(zoned, parts, ticket.productId, amount, now).value, None)
  {
  }

  /** With a remainder the jars are refreshed and locked, nothing else. */
  lemma RestakePartsLock(a: AccountId, account: Account, products: map<ProductId, Product>, parts: map<ProductId, Part>, ticket: Ticket,
                         amount: TokenAmount, total: TokenAmount, fee: TokenAmount, isSigned: bool, now: Timestamp)
    requires Known(account, products) && ticket.productId in products && amount != total
    requires RestakeParts(a, account, products, parts, ticket, amount, total, fee, isSigned, now).Ok?
    ensures products[ticket.productId].AcceptsAmount(amount) && amount < total && fee <= total - amount
    ensures RefreshJars(account, products, parts.Keys, now).Ok?
    ensures var outcome := RestakeParts(a, account, products, parts, ticket, amount, total, fee, isSigned, now).value;
            && outcome.account.nonce == account.nonce
            && outcome.account.jars == AllWithLock(RefreshJars(account, products, parts.Keys, now).value, parts.Keys, true).jars
            && outcome.promise == Some(AfterRemainder(a, parts, total - amount, fee, ticket.productId, amount, now))
  {
  }

  /** What an accepted restake takes, moves and charges. */
  lemma RestakeIs(env: Env, a: AccountId, account: Account, products: map<ProductId, Product>, source: Source,
                  ticket: Ticket, signature: Option<string>, target: Option<TokenAmount>, now: Timestamp)
    returns (parts: map<ProductId, Part>, total: TokenAmount, amount: TokenAmount, fee: TokenAmount, isSigned: bool)
    requires Known(account, products)
    requires Restake(env, a, account, products, source, ticket, signature, target, now).Ok?
    ensures ticket.productId in products
    ensures Parts(account, products, source, now) == Ok(parts)
    ensures total == TotalBalance(parts) && amount == target.GetOr(total)
    ensures Restake(env, a, account, products, source, ticket, signature, target, now)
         == RestakeParts(a, account, products, parts, ticket, amount, total, fee, isSigned, now)
  {
    parts := Parts(account, products, source, now).value;
    total := TotalBalance(parts);
    amount := target.GetOr(total);
    fee := FeeFor(source, parts, products, amount);
    isSigned := IsSigned(env, a, account, products[ticket.productId], ticket, amount, signature, now);
  }

  /** What a restake promises adds up: the remainder and the restaked amount are
      the whole of its parts, and the fee fits into the remainder. */
  lemma RestakeFits(env: Env, a: AccountId, account: Account, products: map<ProductId, Product>, source: Source,
                    ticket: Ticket, signature: Option<string>, target: Option<TokenAmount>, now: Timestamp)
    requires Known(account, products)
    requires Restake(env, a, account, products, source, ticket, signature, target, now).Ok?
    ensures var promise := Restake(env, a, account, products, source, ticket, signature, target, now).value.promise;
            promise.Some? ==>
              && promise.value.AfterRemainder?
              && promise.value.account == a
              && promise.value.parts == Parts(account, products, source, now).value
              && promise.value.requestedAt == now
              && promise.value.fee <= promise.value.remainder
              && TotalBalance(promise.value.parts) == promise.value.remainder + promise.value.restaked
              && promise.value.into in products
              && products[promise.value.into].AcceptsAmount(promise.value.restaked)
  {
    var parts, total, amount, fee, isSigned := RestakeIs(env, a, account, products, source, ticket, signature, target, now);
    if amount == total {
      RestakePartsMove(a, account, products, parts, ticket, amount, total, fee, isSigned, now);
    } else {
      RestakePartsLock(a, account, products, parts, ticket, amount, total, fee, isSigned, now);
    }
  }

  lemma FinishRestakeCloses(account: Account, promise: Promise, products: map<ProductId, Product>, isSuccess: bool, now: Timestamp)
    requires Known(account, products)
    requires promise.AfterRemainder? && promise.into in products
    requires FinishRestake(account, promise, isSuccess, now).Ok?
    ensures Closes(account, FinishRestake(account, promise, isSuccess, now).value, promise.parts.Keys, products, now)
  {
    var unlocked := AllWithLock(account, promise.parts.Keys, false);
    if isSuccess && Ordered(account, now) {
      CleanUpKeepsOrder(unlocked, promise.parts, promise.into, promise.restaked, now);
    }
  }

  lemma FinishRestakeSucceeds(account: Account, promise: Promise, isSuccess: bool, now: Timestamp)
    requires promise.AfterRemainder?
    requires AllHold(account, promise.parts)
    ensures FinishRestake(account, promise, isSuccess, now).Ok?
  {
  }
}
