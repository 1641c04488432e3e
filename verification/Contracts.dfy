/** The contract's entry points and callbacks as functions of its state. An error
    means the call aborts and nothing changes. */
module Contracts {
  import opened Numbers
  import opened Types
  import opened MapSum
  import opened Jars
  import opened Tickets
  import opened Accounts
  import opened Promises
  import opened Withdrawals
  import opened Claims
  import opened Restakes

  datatype State = State(
    products: map<ProductId, Product>,
    accounts: map<AccountId, Account>,
    feeAmount: TokenAmount)

  predicate KnownState(c: State) {
    forall a :: a in c.accounts ==> Known(c.accounts[a], c.products)
  }

  function WithAccount(c: State, a: AccountId, account: Account): State {
    c.(accounts := c.accounts[a := account])
  }

  function AccountOf(c: State, a: AccountId): Option<Account> {
    if a in c.accounts then Some(c.accounts[a]) else None
  }

  function AccountOrNew(c: State, a: AccountId, now: Timestamp): Account {
    if a in c.accounts then c.accounts[a] else NewAccount(now)
  }

  /** The state after a call, and the promise it leaves. */
  datatype Reply = Reply(state: State, promise: Option<Promise>)

  function Replied(c: State, a: AccountId, outcome: Result<Outcome>): Result<Reply> {
    if outcome.Err? then Err(outcome.error)
    else Ok(Reply(WithAccount(c, a, outcome.value.account), outcome.value.promise))
  }

  // --- Products ---------------------------------------------------------------

  function RegisterProduct(c: State, product: Product): Result<State> {
    if product.id in c.products then Err(ProductExists)
    else if !product.IsAdmissible() then Err(ProductRejected)
    else Ok(c.(products := c.products[product.id := product]))
  }

  function SetEnabled(c: State, p: ProductId, isEnabled: bool): Result<State> {
    if p !in c.products then Err(ProductNotFound)
    else if c.products[p].isEnabled == isEnabled then Err(ProductRejected)
    else Ok(c.(products := c.products[p := c.products[p].(isEnabled := isEnabled)]))
  }

  function SetPublicKey(c: State, p: ProductId, key: string): Result<State> {
    if p !in c.products then Err(ProductNotFound)
    else Ok(c.(products := c.products[p := c.products[p].(publicKey := Some(key))]))
  }

  // --- Tokens coming in -------------------------------------------------------

  function Stake(env: Env, c: State, a: AccountId, ticket: Ticket, signature: Option<string>, amount: TokenAmount, now: Timestamp): Result<State>
    requires KnownState(c)
  {
    var account :- Staked(env, a, AccountOf(c, a), c.products, ticket, signature, amount, now);
    Ok(WithAccount(c, a, account))
  }

  /** One receiver after the other; a receiver may occur several times. */
  function AirdropAll(c: State, ticket: Ticket, amount: TokenAmount, receivers: seq<AccountId>,
                      booster: Score, earnedAt: Option<Timestamp>, now: Timestamp): (r: Result<State>)
    requires KnownState(c) && ticket.productId in c.products
    ensures r.Ok? ==> KnownState(r.value) && r.value.products == c.products
  {
    if receivers == [] then Ok(c) else
      var n := |receivers| - 1;
      var before :- AirdropAll(c, ticket, amount, receivers[..n], booster, earnedAt, now);
      var account :- Airdropped(AccountOrNew(before, receivers[n], now), c.products, ticket, amount, booster, earnedAt, now);
      AirdroppedAddsOne(AccountOrNew(before, receivers[n], now), c.products, ticket, amount, booster, earnedAt, now);
      Ok(WithAccount(before, receivers[n], account))
  }

  /** The transferred amount is split evenly among the receivers. */
  function Airdrop(env: Env, c: State, ticket: Ticket, signature: Option<string>, total: TokenAmount, receivers: seq<AccountId>,
                   booster: Score, earnedAt: Option<Timestamp>, now: Timestamp): Result<State>
    requires KnownState(c)
  {
    if receivers == [] || total % |receivers| != 0 then Err(BadAirdropSplit)
    else
      var amount := total / |receivers|;
      var message := AirdropMessage(env.contractId, ticket.productId, amount, receivers, ticket.validUntil);
      var _ :- CheckTicket(env, c.products, ticket, amount, message, signature, now);
      AirdropAll(c, ticket, amount, receivers, booster, earnedAt, now)
  }

  ghost function PrincipalsOf(account: Account): map<ProductId, TokenAmount> {
    map p | p in account.jars :: Principal(account.jars[p].deposits)
  }

  ghost function AccountPrincipal(account: Account): TokenAmount {
    Sum(PrincipalsOf(account))
  }

  /** An account taken over from the previous contract, with exactly its principal. */
  ghost function Migrate(c: State, a: AccountId, account: Account, amount: TokenAmount): Result<State> {
    if a in c.accounts && !IsEmpty(c.accounts[a]) then Err(AccountNotEmpty)
    else if AccountPrincipal(account) != amount then Err(PrincipalMismatch)
    else Ok(WithAccount(c, a, account))
  }

  // --- Calls of the account's owner -------------------------------------------

  function CallWithdraw(c: State, a: AccountId, p: ProductId, now: Timestamp): Result<Reply>
    requires KnownState(c)
  {
    if a !in c.accounts then Err(AccountNotFound)
    else Replied(c, a, Withdraw(a, c.accounts[a], c.products, p, now))
  }

  function CallWithdrawAll(c: State, a: AccountId, ps: Option<set<ProductId>>, now: Timestamp): Result<Reply>
    requires KnownState(c)
  {
    if a !in c.accounts then Err(AccountNotFound)
    else Replied(c, a, WithdrawAll(a, c.accounts[a], c.products, ps, now))
  }

  function CallClaim(c: State, a: AccountId, now: Timestamp): Result<Reply>
    requires KnownState(c)
  {
    if a !in c.accounts then Err(AccountNotFound)
    else Replied(c, a, ClaimTotal(a, c.accounts[a], c.products, now))
  }

  ghost function CallRestake(env: Env, c: State, a: AccountId, source: Source, ticket: Ticket, signature: Option<string>,
                             target: Option<TokenAmount>, now: Timestamp): Result<Reply>
    requires KnownState(c)
  {
    if a !in c.accounts then Err(AccountNotFound)
    else Replied(c, a, Restake(env, a, c.accounts[a], c.products, source, ticket, signature, target, now))
  }

  /** The collected fees leave at once and come back if the transfer fails. */
  function CallWithdrawFee(c: State): Reply {
    Reply(c.(feeAmount := 0), Some(AfterFee(c.feeAmount)))
  }

  /** A failing transfer undoes the call, and a successful one leaves nothing behind;
      fees collected in between stay either way. */
  lemma FeeWithdrawalSettles(c: State, collected: TokenAmount, now: Timestamp)
    ensures var reply := CallWithdrawFee(c);
            && reply.promise.Some?
            && Finish(reply.state, reply.promise.value, false, now) == Ok(c)
            && Finish(reply.state.(feeAmount := collected), reply.promise.value, false, now) == Ok(c.(feeAmount := c.feeAmount + collected))
            && Finish(reply.state.(feeAmount := collected), reply.promise.value, true, now) == Ok(c.(feeAmount := collected))
  {
  }

  // --- Oracle -----------------------------------------------------------------

  function UpdateAccount(c: State, a: AccountId, update: Update, now: Timestamp): (r: Result<State>)
    requires KnownState(c)
    ensures r.Ok? ==> KnownState(r.value) && r.value.products == c.products
  {
    if a !in c.accounts then Err(AccountNotFound) else
      var account :- Updated(c.accounts[a], c.products, update, now);
      UpdatedKeepsHoldings(c.accounts[a], c.products, update, now);
      Ok(WithAccount(c, a, account))
  }

  /** The same kind of update for one account after the other. */
  function UpdateAll(c: State, batch: seq<(AccountId, Update)>, now: Timestamp): (r: Result<State>)
    requires KnownState(c)
    ensures r.Ok? ==> KnownState(r.value) && r.value.products == c.products
  {
    if batch == [] then Ok(c) else
      var n := |batch| - 1;
      var before :- UpdateAll(c, batch[..n], now);
      UpdateAccount(before, batch[n].0, batch[n].1, now)
  }

  /** A single account may not exist yet; then only the setting is stored. */
  function SetFeatureEnabled(c: State, a: AccountId, feature: Feature, isEnabled: bool, now: Timestamp): Result<State>
    requires KnownState(c)
  {
    if a in c.accounts then UpdateAccount(c, a, SetFeature(feature, isEnabled), now)
    else Ok(WithAccount(c, a, NewAccount(now).(features := WithFeature(NewAccount(now).features, feature, isEnabled))))
  }

  function SetTimezone(c: State, a: AccountId, timezone: Timezone, now: Timestamp): Result<State> {
    var account :- TrySetTimezone(AccountOrNew(c, a, now), Some(timezone));
    Ok(WithAccount(c, a, account))
  }

  // --- Callbacks --------------------------------------------------------------

  ghost function Finish(c: State, promise: Promise, isSuccess: bool, now: Timestamp): Result<State> {
    match promise
    case AfterFee(amount) => Ok(if isSuccess then c else c.(feeAmount := c.feeAmount + amount))
    case AfterWithdraw(a, requests, _) =>
      if a !in c.accounts then Err(AccountNotFound) else
        var account :- FinishWithdraw(c.accounts[a], PartsOf(requests), isSuccess);
        Ok(WithAccount(c, a, account).(feeAmount := c.feeAmount + if isSuccess then TotalFee(requests) else 0))
    case AfterRemainder(a, _, _, fee, _, _, _) =>
      if a !in c.accounts then Err(AccountNotFound) else
        var account :- FinishRestake(c.accounts[a], promise, isSuccess, now);
        Ok(WithAccount(c, a, account).(feeAmount := c.feeAmount + if isSuccess then fee else 0))
    case AfterClaim(a, _, _, _, _) =>
      if a !in c.accounts then Err(AccountNotFound) else
        var account :- FinishClaim(c.accounts[a], promise, isSuccess);
        Ok(WithAccount(c, a, account))
  }
}
