/** The contract together with its pending promises, as a state machine. Every
    call and every callback is one atomic step; the outcome of each transfer is
    arbitrary, callbacks come in any order, and the clock never goes back. */
module Protocol {
  import opened Numbers
  import opened Types
  import opened Tickets
  import opened Accounts
  import opened Promises
  import opened Withdrawals
  import opened Claims
  import opened Restakes
  import opened Contracts

  /** `accepted`, `paidOut` and `feesPaid` count the tokens that came in, the net
      payouts whose callback reported success, and the fees paid out likewise. */
  datatype World = World(
    contract: State,
    now: Timestamp,
    pending: map<nat, Promise>,
    nextId: nat,
    accepted: TokenAmount,
    paidOut: TokenAmount,
    feesPaid: TokenAmount)

  datatype Action =
    | DoRegister(product: Product)
    | DoSetEnabled(p: ProductId, isEnabled: bool)
    | DoSetPublicKey(p: ProductId, key: string)
    | DoStake(receiver: AccountId, ticket: Ticket, signature: Option<string>, amount: TokenAmount)
    | DoAirdrop(ticket: Ticket, signature: Option<string>, amount: TokenAmount, receivers: seq<AccountId>,
                booster: Score, earnedAt: Option<Timestamp>)
    | DoMigrate(a: AccountId, account: Account, amount: TokenAmount)
    | DoWithdraw(a: AccountId, p: ProductId)
    | DoWithdrawAll(a: AccountId, ps: Option<set<ProductId>>)
    | DoRestake(a: AccountId, source: Source, ticket: Ticket, signature: Option<string>, target: Option<TokenAmount>)
    | DoClaim(a: AccountId)
    | DoWithdrawFee
    | DoSetFeature(a: AccountId, feature: Feature, isEnabled: bool)
    | DoUpdateAll(batch: seq<(AccountId, Update)>)
    | DoSetTimezone(a: AccountId, timezone: Timezone)
    | Resolve(id: nat, isSuccess: bool)

  function NewWorld(now: Timestamp): World {
    World(State(map[], map[], 0), now, map[], 0, 0, 0, 0)
  }

  // --- Steps ------------------------------------------------------------------

  function WithPromise(w: World, reply: Reply): World {
    if reply.promise.None? then w.(contract := reply.state)
    else w.(contract := reply.state, pending := w.pending[w.nextId := reply.promise.value], nextId := w.nextId + 1)
  }

  function WithReply(w: World, reply: Result<Reply>): Result<World> {
    if reply.Err? then Err(reply.error) else Ok(WithPromise(w, reply.value))
  }

  function WithState(w: World, state: Result<State>): Result<World> {
    if state.Err? then Err(state.error) else Ok(w.(contract := state.value))
  }

  /** What a successful callback has paid to the account. */
  ghost function Payout(promise: Promise): int {
    match promise
    case AfterWithdraw(_, requests, _) => TotalAmount(requests) - TotalFee(requests)
    case AfterRemainder(_, _, remainder, fee, _, _, _) => remainder - fee
    case AfterClaim(_, _, _, _, _) => 0
    case AfterFee(_) => 0
  }

  function FeePayout(promise: Promise): TokenAmount {
    if promise.AfterFee? then promise.amount else 0
  }

  ghost function Resolved(w: World, id: nat, isSuccess: bool): Result<World>
    requires id in w.pending
  {
    var promise := w.pending[id];
    var state :- Finish(w.contract, promise, isSuccess, w.now);
    Ok(w.(contract := state,
          pending := w.pending - {id},
          paidOut := w.paidOut + if isSuccess then Max(Payout(promise), 0) else 0,
          feesPaid := w.feesPaid + if isSuccess then FeePayout(promise) else 0))
  }

  /** A call or callback at the current time; an error means that it aborts. */
  ghost function Act(env: Env, w: World, action: Action): Result<World>
    requires KnownState(w.contract)
  {
    var c := w.contract;
    match action
    case DoRegister(product) => WithState(w, RegisterProduct(c, product))
    case DoSetEnabled(p, isEnabled) => WithState(w, SetEnabled(c, p, isEnabled))
    case DoSetPublicKey(p, key) => WithState(w, SetPublicKey(c, p, key))
    case DoStake(receiver, ticket, signature, amount) =>
      WithState(w.(accepted := w.accepted + amount), Stake(env, c, receiver, ticket, signature, amount, w.now))
    case DoAirdrop(ticket, signature, amount, receivers, booster, earnedAt) =>
      WithState(w.(accepted := w.accepted + amount), Airdrop(env, c, ticket, signature, amount, receivers, booster, earnedAt, w.now))
    case DoMigrate(a, account, amount) =>
      WithState(w.(accepted := w.accepted + amount), Migrate(c, a, account, amount))
    case DoWithdraw(a, p) => WithReply(w, CallWithdraw(c, a, p, w.now))
    case DoWithdrawAll(a, ps) => WithReply(w, CallWithdrawAll(c, a, ps, w.now))
    case DoRestake(a, source, ticket, signature, target) =>
      WithReply(w, CallRestake(env, c, a, source, ticket, signature, target, w.now))
    case DoClaim(a) => WithReply(w, CallClaim(c, a, w.now))
    case DoWithdrawFee => Ok(WithPromise(w, CallWithdrawFee(c)))
    case DoSetFeature(a, feature, isEnabled) => WithState(w, SetFeatureEnabled(c, a, feature, isEnabled, w.now))
    case DoUpdateAll(batch) => WithState(w, UpdateAll(c, batch, w.now))
    case DoSetTimezone(a, timezone) => WithState(w, SetTimezone(c, a, timezone, w.now))
    case Resolve(id, isSuccess) => if id !in w.pending then Err(NoSuchPromise) else Resolved(w, id, isSuccess)
  }

  /** A migrated account is taken to be well formed: it is unlocked and ordered,
      nothing in it is from the future, and its products are registered. */
  predicate IsAdmissible(w: World, at: Timestamp, action: Action) {
    && w.now <= at
    && (action.DoMigrate? ==>
          && Known(action.account, w.contract.products)
          && Ordered(action.account, at)
          && forall p :: p in action.account.jars ==> !action.account.jars[p].isLocked)
  }

  /** One step: an aborted call changes nothing but the clock; an aborted callback
      would be lost. */
  ghost function Step(env: Env, w: World, at: Timestamp, action: Action): World
    requires KnownState(w.contract)
  {
    var w0 := w.(now := at);
    match Act(env, w0, action)
    case Ok(next) => next
    case Err(_) => if action.Resolve? then w0.(pending := w0.pending - {action.id}) else w0
  }

  // --- What holds in every reachable world ------------------------------------

  /** A pending promise finds its jars locked and its deposits frozen. */
  ghost predicate Grounded(c: State, promise: Promise) {
    promise.AfterFee? || (
      && promise.account in c.accounts
      && var account := c.accounts[promise.account];
         && (forall p :: p in Owned(promise) ==> p in account.jars && account.jars[p].isLocked)
         && AllHold(account, Held(promise))
         && (promise.AfterWithdraw? || promise.AfterRemainder? ==>
               HeldWereLiquid(account, c.products, Held(promise), promise.requestedAt)))
  }

  /** The amounts of a promise fit together. */
  ghost predicate WellFormed(c: State, promise: Promise) {
    match promise
    case AfterWithdraw(_, requests, _) => FeesCovered(requests)
    case AfterRemainder(_, parts, remainder, fee, into, restaked, _) =>
      && fee <= remainder && TotalBalance(parts) == remainder + restaked
      && into in c.products && c.products[into].AcceptsAmount(restaked)
    case AfterClaim(_, rollback, _, _, _) => AreRollbacks(rollback)
    case AfterFee(_) => true
  }

  predicate Owns(promise: Promise, a: AccountId, p: ProductId) {
    !promise.AfterFee? && promise.account == a && p in Owned(promise)
  }

  predicate IsLocked(c: State, a: AccountId, p: ProductId) {
    a in c.accounts && p in c.accounts[a].jars && c.accounts[a].jars[p].isLocked
  }

  ghost predicate PromisesGrounded(w: World) {
    forall id :: id in w.pending ==>
      && id < w.nextId
      && Grounded(w.contract, w.pending[id]) && WellFormed(w.contract, w.pending[id]) && SnapshotsArePast(w.pending[id], w.now)
  }

  ghost predicate Exclusive(w: World) {
    forall i, j, a, p :: i in w.pending && j in w.pending && Owns(w.pending[i], a, p) && Owns(w.pending[j], a, p) ==> i == j
  }

  ghost predicate LocksAreOwned(w: World) {
    forall a, p :: IsLocked(w.contract, a, p) ==> exists id :: id in w.pending && Owns(w.pending[id], a, p)
  }

  ghost predicate AllOrdered(w: World) {
    forall a :: a in w.contract.accounts ==> Ordered(w.contract.accounts[a], w.now)
  }

  ghost predicate Inv(w: World) {
    && KnownState(w.contract)
    && PromisesGrounded(w)
    && Exclusive(w)
    && LocksAreOwned(w)
    && AllOrdered(w)
  }

  // --- One account changes ----------------------------------------------------

  /** A call on one account: the account before is the stored one or a new one,
      and a promise it leaves is its own. */
  ghost predicate Opening(w: World, a: AccountId, outcome: Outcome) {
    && Opened(AccountOrNew(w.contract, a, w.now), outcome, w.contract.products, w.now)
    && (outcome.promise.Some? ==>
          && a in w.contract.accounts
          && !outcome.promise.value.AfterFee?
          && outcome.promise.value.account == a
          && (outcome.promise.value.AfterClaim? || outcome.promise.value.requestedAt == w.now)
          && WellFormed(w.contract, outcome.promise.value))
  }

  function AfterOpening(w: World, a: AccountId, outcome: Outcome): World {
    WithPromise(w, Reply(WithAccount(w.contract, a, outcome.account), outcome.promise))
  }

  lemma StillGrounded(c: State, promise: Promise, a: AccountId, before: Account, after: Account,
                      owned: set<ProductId>, held: map<ProductId, Part>, now: Timestamp)
    requires KnownState(c)
    requires Grounded(c, promise)
    requires before == AccountOrNew(c, a, now)
    requires Opens(before, after, owned, held, c.products, now)
    ensures Grounded(WithAccount(c, a, after), promise)
  {
    if !promise.AfterFee? && promise.account == a {
      forall p | p in Held(promise) ensures p in after.jars && Holds(after.jars[p], Held(promise)[p]) {
        HoldsInExtension(before.jars[p], after.jars[p], Held(promise)[p]);
      }
    }
  }

  lemma OpeningGrounds(w: World, a: AccountId, outcome: Outcome)
    requires Inv(w) && Opening(w, a, outcome)
    ensures PromisesGrounded(AfterOpening(w, a, outcome))
  {
    var w' := AfterOpening(w, a, outcome);
    forall id | id in w'.pending
      ensures id < w'.nextId && Grounded(w'.contract, w'.pending[id]) && WellFormed(w'.contract, w'.pending[id])
      ensures SnapshotsArePast(w'.pending[id], w'.now)
    {
      if id in w.pending {
        StillGrounded(w.contract, w.pending[id], a, AccountOrNew(w.contract, a, w.now), outcome.account,
                      OwnedBy(outcome.promise), HeldBy(outcome.promise), w.now);
      }
    }
  }

  lemma OpeningIsExclusive(w: World, a: AccountId, outcome: Outcome)
    requires Inv(w) && Opening(w, a, outcome)
    ensures Exclusive(AfterOpening(w, a, outcome))
  {
    var w' := AfterOpening(w, a, outcome);
    forall i, j, b, p | i in w'.pending && j in w'.pending && Owns(w'.pending[i], b, p) && Owns(w'.pending[j], b, p)
      ensures i == j
    {
      if i in w.pending {
        assert Grounded(w.contract, w.pending[i]);
      }
      if j in w.pending {
        assert Grounded(w.contract, w.pending[j]);
      }
    }
  }

  lemma OpeningOwnsLocks(w: World, a: AccountId, outcome: Outcome)
    requires Inv(w) && Opening(w, a, outcome)
    ensures LocksAreOwned(AfterOpening(w, a, outcome))
  {
    var w' := AfterOpening(w, a, outcome);
    forall b, p | IsLocked(w'.contract, b, p) ensures exists id :: id in w'.pending && Owns(w'.pending[id], b, p) {
      if b == a && p in OwnedBy(outcome.promise) {
        assert Owns(w'.pending[w.nextId], b, p);
      } else {
        assert IsLocked(w.contract, b, p);
        var id :| id in w.pending && Owns(w.pending[id], b, p);
        assert id in w'.pending && w'.pending[id] == w.pending[id];
      }
    }
  }

  lemma OpeningKeepsInv(w: World, a: AccountId, outcome: Outcome)
    requires Inv(w) && Opening(w, a, outcome)
    ensures Inv(AfterOpening(w, a, outcome))
  {
    OpeningGrounds(w, a, outcome);
    OpeningIsExclusive(w, a, outcome);
    OpeningOwnsLocks(w, a, outcome);
  }

  // --- A callback -------------------------------------------------------------

  /** Everything a callback needs is there, for either outcome. */
  lemma CallbackSucceeds(w: World, id: nat, isSuccess: bool)
    requires Inv(w) && id in w.pending
    ensures Finish(w.contract, w.pending[id], isSuccess, w.now).Ok?
  {
    var promise := w.pending[id];
    assert Grounded(w.contract, promise);
    match promise
    case AfterFee(_) =>
    case AfterWithdraw(a, requests, _) => FinishWithdrawSucceeds(w.contract.accounts[a], PartsOf(requests), isSuccess);
    case AfterRemainder(a, _, _, _, _, _, _) => FinishRestakeSucceeds(w.contract.accounts[a], promise, isSuccess, w.now);
    case AfterClaim(_, _, _, _, _) =>
  }

  /** The world after a callback on one account. */
  predicate AfterClosing(w: World, id: nat, after: Account, w': World) {
    && id in w.pending && !w.pending[id].AfterFee?
    && w'.contract.products == w.contract.products
    && w'.contract.accounts == w.contract.accounts[w.pending[id].account := after]
    && w'.pending == w.pending - {id}
    && w'.nextId == w.nextId
    && w'.now == w.now
  }

  ghost predicate Closing(w: World, id: nat, after: Account) {
    && id in w.pending && !w.pending[id].AfterFee?
    && w.pending[id].account in w.contract.accounts
    && Closes(w.contract.accounts[w.pending[id].account], after, Owned(w.pending[id]), w.contract.products, w.now)
  }

  /** Other jars than the owned ones keep what a promise relies on. */
  lemma GroundedElsewhere(before: Account, after: Account, owned: set<ProductId>, products: map<ProductId, Product>,
                          now: Timestamp, held: map<ProductId, Part>, at: Timestamp)
    requires Closes(before, after, owned, products, now)
    requires AllHold(before, held) && held.Keys !! owned
    requires HeldWereLiquid(before, products, held, at)
    ensures AllHold(after, held) && HeldWereLiquid(after, products, held, at)
  {
    forall p | p in held ensures p in after.jars && Holds(after.jars[p], held[p]) {
      HoldsInExtension(before.jars[p], after.jars[p], held[p]);
    }
  }

  lemma OtherStaysGrounded(w: World, id: nat, after: Account, w': World, other: nat)
    requires Inv(w) && Closing(w, id, after) && AfterClosing(w, id, after, w')
    requires other in w.pending && other != id
    ensures Grounded(w'.contract, w.pending[other])
  {
    var promise, mine := w.pending[other], w.pending[id];
    assert Grounded(w.contract, promise);
    if !promise.AfterFee? && promise.account == mine.account {
      forall p | p in Owned(promise) ensures p !in Owned(mine) {
        assert Owns(promise, mine.account, p);
        assert !Owns(mine, mine.account, p);
      }
      var at := if promise.AfterClaim? then 0 else promise.requestedAt;
      GroundedElsewhere(w.contract.accounts[mine.account], after, Owned(mine), w.contract.products, w.now, Held(promise), at);
    }
  }

  lemma ClosingOwnsLocks(w: World, id: nat, after: Account, w': World)
    requires Inv(w) && Closing(w, id, after) && AfterClosing(w, id, after, w')
    ensures LocksAreOwned(w')
  {
    forall a, p | IsLocked(w'.contract, a, p) ensures exists other :: other in w'.pending && Owns(w'.pending[other], a, p) {
      assert IsLocked(w.contract, a, p);
      var other :| other in w.pending && Owns(w.pending[other], a, p);
      assert other in w'.pending && w'.pending[other] == w.pending[other];
    }
  }

  lemma ClosingKeepsInv(w: World, id: nat, after: Account, w': World)
    requires Inv(w) && Closing(w, id, after) && AfterClosing(w, id, after, w')
    ensures Inv(w')
  {
    forall other | other in w'.pending
      ensures other < w'.nextId && Grounded(w'.contract, w'.pending[other]) && WellFormed(w'.contract, w'.pending[other])
      ensures SnapshotsArePast(w'.pending[other], w'.now)
    {
      OtherStaysGrounded(w, id, after, w', other);
    }
    ClosingOwnsLocks(w, id, after, w');
    assert Exclusive(w') by {
      forall i, j, a, p | i in w'.pending && j in w'.pending && Owns(w'.pending[i], a, p) && Owns(w'.pending[j], a, p)
        ensures i == j
      {
        assert i in w.pending && j in w.pending;
      }
    }
  }

  lemma ResolvedKeepsInv(w: World, id: nat, isSuccess: bool)
    requires Inv(w) && id in w.pending
    requires Resolved(w, id, isSuccess).Ok?
    ensures Inv(Resolved(w, id, isSuccess).value)
  {
    var w' := Resolved(w, id, isSuccess).value;
    var promise := w.pending[id];
    assert Grounded(w.contract, promise) && WellFormed(w.contract, promise);
    match promise
    case AfterFee(_) => FeeCallbackKeepsInv(w, id, w');
    case AfterWithdraw(a, requests, _) =>
      FinishWithdrawCloses(w.contract.accounts[a], PartsOf(requests), w.contract.products, isSuccess, w.now);
      assert PartsOf(requests).Keys == Owned(promise);
      ClosingKeepsInv(w, id, w'.contract.accounts[a], w');
    case AfterRemainder(a, _, _, _, _, _, _) =>
      FinishRestakeCloses(w.contract.accounts[a], promise, w.contract.products, isSuccess, w.now);
      ClosingKeepsInv(w, id, w'.contract.accounts[a], w');
    case AfterClaim(a, _, _, _, _) =>
      FinishClaimCloses(w.contract.accounts[a], promise, w.contract.products, isSuccess, w.now);
      ClosingKeepsInv(w, id, w'.contract.accounts[a], w');
  }

  lemma FeeCallbackKeepsInv(w: World, id: nat, w': World)
    requires Inv(w) && id in w.pending && w.pending[id].AfterFee?
    requires w'.contract.products == w.contract.products && w'.contract.accounts == w.contract.accounts
    requires w'.pending == w.pending - {id} && w'.nextId == w.nextId && w'.now == w.now
    ensures Inv(w')
  {
    assert LocksAreOwned(w') by {
      forall a, p | IsLocked(w'.contract, a, p) ensures exists other :: other in w'.pending && Owns(w'.pending[other], a, p) {
        assert IsLocked(w.contract, a, p);
        var other :| other in w.pending && Owns(w.pending[other], a, p);
        assert other in w'.pending;
      }
    }
  }

  // --- The other calls --------------------------------------------------------

  lemma LaterKeepsInv(w: World, at: Timestamp)
    requires Inv(w) && w.now <= at
    ensures Inv(w.(now := at))
  {
    var w' := w.(now := at);
    assert forall a :: a in w'.contract.accounts ==> Ordered(w.contract.accounts[a], w.now);
    assert forall a, p :: IsLocked(w'.contract, a, p) ==> IsLocked(w.contract, a, p);
  }

  /** Registered products keep their terms and caps for good. */
  predicate SameTerms(products: map<ProductId, Product>, products': map<ProductId, Product>) {
    forall p :: p in products ==>
      && p in products'
      && products'[p].terms == products[p].terms
      && products'[p].capMin == products[p].capMin
      && products'[p].capMax == products[p].capMax
      && products'[p].withdrawalFee == products[p].withdrawalFee
  }

  lemma ProductsKeepInv(w: World, w': World)
    requires Inv(w)
    requires w' == w.(contract := w.contract.(products := w'.contract.products))
    requires SameTerms(w.contract.products, w'.contract.products)
    ensures Inv(w')
  {
    assert forall a, p :: IsLocked(w'.contract, a, p) ==> IsLocked(w.contract, a, p);
    forall id | id in w'.pending ensures Grounded(w'.contract, w'.pending[id]) && WellFormed(w'.contract, w'.pending[id]) {
      assert Grounded(w.contract, w.pending[id]) && WellFormed(w.contract, w.pending[id]);
      var promise := w.pending[id];
      if promise.AfterWithdraw? || promise.AfterRemainder? {
        var account := w.contract.accounts[promise.account];
        assert Known(account, w.contract.products);
        assert HeldWereLiquid(account, w.contract.products, Held(promise), promise.requestedAt);
      }
    }
  }

  lemma OneMoreOpens(before: Account, after: Account, p: ProductId, amount: TokenAmount, products: map<ProductId, Product>, now: Timestamp)
    requires Known(before, products) && p in products
    requires OneMore(before, after, p, Deposit(now, amount))
    ensures Opens(before, after, {}, map[], products, now)
  {
    if Ordered(before, now) {
      forall q | q in after.jars ensures InOrder(after.jars[q].deposits, now) {
        assert q in before.jars ==> InOrder(before.jars[q].deposits, now);
      }
    }
  }

  lemma DepositKeepsInv(w: World, a: AccountId, after: Account, p: ProductId, amount: TokenAmount)
    requires Inv(w) && p in w.contract.products
    requires OneMore(AccountOrNew(w.contract, a, w.now), after, p, Deposit(w.now, amount))
    ensures Inv(w.(contract := WithAccount(w.contract, a, after)))
  {
    OneMoreOpens(AccountOrNew(w.contract, a, w.now), after, p, amount, w.contract.products, w.now);
    OpeningKeepsInv(w, a, Outcome(after, None));
  }

  lemma SettingKeepsInv(w: World, a: AccountId, after: Account)
    requires Inv(w)
    requires SameHoldings(AccountOrNew(w.contract, a, w.now), after, w.now)
    ensures Inv(w.(contract := WithAccount(w.contract, a, after)))
  {
    SameHoldingsOpen(AccountOrNew(w.contract, a, w.now), after, w.contract.products, w.now);
    OpeningKeepsInv(w, a, Outcome(after, None));
  }

  lemma {:induction false} AirdropKeepsInv(w: World, ticket: Ticket, amount: TokenAmount, receivers: seq<AccountId>,
                                           booster: Score, earnedAt: Option<Timestamp>)
    requires Inv(w) && ticket.productId in w.contract.products
    requires AirdropAll(w.contract, ticket, amount, receivers, booster, earnedAt, w.now).Ok?
    ensures Inv(w.(contract := AirdropAll(w.contract, ticket, amount, receivers, booster, earnedAt, w.now).value))
  {
    if receivers != [] {
      var n := |receivers| - 1;
      AirdropKeepsInv(w, ticket, amount, receivers[..n], booster, earnedAt);
      var before := AirdropAll(w.contract, ticket, amount, receivers[..n], booster, earnedAt, w.now).value;
      var account := AccountOrNew(before, receivers[n], w.now);
      AirdroppedAddsOne(account, before.products, ticket, amount, booster, earnedAt, w.now);
      DepositKeepsInv(w.(contract := before), receivers[n],
                      Airdropped(account, before.products, ticket, amount, booster, earnedAt, w.now).value, ticket.productId, amount);
    }
  }

  lemma UpdateKeepsInv(w: World, a: AccountId, update: Update)
    requires Inv(w)
    requires UpdateAccount(w.contract, a, update, w.now).Ok?
    ensures Inv(w.(contract := UpdateAccount(w.contract, a, update, w.now).value))
  {
    UpdatedKeepsHoldings(w.contract.accounts[a], w.contract.products, update, w.now);
    SettingKeepsInv(w, a, Updated(w.contract.accounts[a], w.contract.products, update, w.now).value);
  }

  lemma {:induction false} UpdateAllKeepsInv(w: World, batch: seq<(AccountId, Update)>)
    requires Inv(w)
    requires UpdateAll(w.contract, batch, w.now).Ok?
    ensures Inv(w.(contract := UpdateAll(w.contract, batch, w.now).value))
  {
    if batch != [] {
      var n := |batch| - 1;
      UpdateAllKeepsInv(w, batch[..n]);
      UpdateKeepsInv(w.(contract := UpdateAll(w.contract, batch[..n], w.now).value), batch[n].0, batch[n].1);
    }
  }

  /** Only an account without jars can be overwritten, so no promise loses one. */
  lemma MigrateKeepsInv(w: World, a: AccountId, account: Account, amount: TokenAmount)
    requires Inv(w)
    requires Known(account, w.contract.products) && Ordered(account, w.now)
    requires forall p :: p in account.jars ==> !account.jars[p].isLocked
    requires Migrate(w.contract, a, account, amount).Ok?
    ensures Inv(w.(contract := WithAccount(w.contract, a, account)))
  {
    OpeningKeepsInv(w, a, Outcome(account, None));
  }

  lemma WithdrawKeepsInv(w: World, a: AccountId, p: ProductId)
    requires Inv(w)
    requires CallWithdraw(w.contract, a, p, w.now).Ok?
    ensures Inv(WithPromise(w, CallWithdraw(w.contract, a, p, w.now).value))
  {
    var c := w.contract;
    WithdrawOpens(a, c.accounts[a], c.products, p, w.now);
    OpeningKeepsInv(w, a, Withdraw(a, c.accounts[a], c.products, p, w.now).value);
  }

  lemma WithdrawAllKeepsInv(w: World, a: AccountId, ps: Option<set<ProductId>>)
    requires Inv(w)
    requires CallWithdrawAll(w.contract, a, ps, w.now).Ok?
    ensures Inv(WithPromise(w, CallWithdrawAll(w.contract, a, ps, w.now).value))
  {
    var c := w.contract;
    WithdrawAllOpens(a, c.accounts[a], c.products, ps, w.now);
    OpeningKeepsInv(w, a, WithdrawAll(a, c.accounts[a], c.products, ps, w.now).value);
  }

  lemma ClaimKeepsInv(w: World, a: AccountId)
    requires Inv(w)
    requires CallClaim(w.contract, a, w.now).Ok?
    ensures Inv(WithPromise(w, CallClaim(w.contract, a, w.now).value))
  {
    var c := w.contract;
    ClaimTotalOpens(a, c.accounts[a], c.products, w.now);
    OpeningKeepsInv(w, a, ClaimTotal(a, c.accounts[a], c.products, w.now).value);
  }

  lemma RestakeKeepsInv(env: Env, w: World, a: AccountId, source: Source, ticket: Ticket, signature: Option<string>, target: Option<TokenAmount>)
    requires Inv(w)
    requires CallRestake(env, w.contract, a, source, ticket, signature, target, w.now).Ok?
    ensures Inv(WithPromise(w, CallRestake(env, w.contract, a, source, ticket, signature, target, w.now).value))
  {
    var c := w.contract;
    RestakeOpens(env, a, c.accounts[a], c.products, source, ticket, signature, target, w.now);
    RestakeFits(env, a, c.accounts[a], c.products, source, ticket, signature, target, w.now);
    OpeningKeepsInv(w, a, Restake(env, a, c.accounts[a], c.products, source, ticket, signature, target, w.now).value);
  }

  predicate BringsTokens(action: Action) {
    action.DoStake? || action.DoAirdrop? || action.DoMigrate?
  }

  lemma StakeKeepsInv(env: Env, w: World, a: AccountId, ticket: Ticket, signature: Option<string>, amount: TokenAmount)
    requires Inv(w)
    requires Stake(env, w.contract, a, ticket, signature, amount, w.now).Ok?
    ensures Inv(w.(contract := Stake(env, w.contract, a, ticket, signature, amount, w.now).value))
  {
    var before, products := AccountOrNew(w.contract, a, w.now), w.contract.products;
    StakedAddsOne(before, products, ticket, amount, w.now);
    DepositKeepsInv(w, a, StakeAccepted(before, products, ticket, amount, w.now).value, ticket.productId, amount);
  }

  lemma IncomingKeepsInv(env: Env, w: World, action: Action)
    requires Inv(w) && IsAdmissible(w, w.now, action) && BringsTokens(action)
    requires Act(env, w, action).Ok?
    ensures Inv(Act(env, w, action).value)
  {
    var c, w0 := w.contract, w.(accepted := w.accepted + action.amount);
    match action
    case DoStake(a, ticket, signature, amount) => StakeKeepsInv(env, w0, a, ticket, signature, amount);
    case DoAirdrop(ticket, _, amount, receivers, booster, earnedAt) =>
      AirdropKeepsInv(w0, ticket, amount / |receivers|, receivers, booster, earnedAt);
    case DoMigrate(a, account, amount) => MigrateKeepsInv(w0, a, account, amount);
  }

  lemma SettingsKeepInv(w: World, a: AccountId, feature: Feature, isEnabled: bool)
    requires Inv(w)
    requires SetFeatureEnabled(w.contract, a, feature, isEnabled, w.now).Ok?
    ensures Inv(w.(contract := SetFeatureEnabled(w.contract, a, feature, isEnabled, w.now).value))
  {
    if a in w.contract.accounts {
      UpdateKeepsInv(w, a, SetFeature(feature, isEnabled));
    } else {
      SettingKeepsInv(w, a, NewAccount(w.now).(features := WithFeature(NewAccount(w.now).features, feature, isEnabled)));
    }
  }

  lemma ActKeepsInv(env: Env, w: World, action: Action)
    requires Inv(w) && IsAdmissible(w, w.now, action)
    requires Act(env, w, action).Ok?
    ensures Inv(Act(env, w, action).value)
  {
    if BringsTokens(action) {
      IncomingKeepsInv(env, w, action);
    } else {
      match action
      case DoRegister(_) => ProductsKeepInv(w, Act(env, w, action).value);
      case DoSetEnabled(_, _) => ProductsKeepInv(w, Act(env, w, action).value);
      case DoSetPublicKey(_, _) => ProductsKeepInv(w, Act(env, w, action).value);
      case DoWithdraw(a, p) => WithdrawKeepsInv(w, a, p);
      case DoWithdrawAll(a, ps) => WithdrawAllKeepsInv(w, a, ps);
      case DoRestake(a, source, ticket, signature, target) => RestakeKeepsInv(env, w, a, source, ticket, signature, target);
      case DoClaim(a) => ClaimKeepsInv(w, a);
      case DoWithdrawFee => WithdrawFeeKeepsInv(w);
      case DoSetFeature(a, feature, isEnabled) => SettingsKeepInv(w, a, feature, isEnabled);
      case DoUpdateAll(batch) => UpdateAllKeepsInv(w, batch);
      case DoSetTimezone(a, timezone) =>
        SettingKeepsInv(w, a, TrySetTimezone(AccountOrNew(w.contract, a, w.now), Some(timezone)).value);
      case Resolve(id, isSuccess) => ResolvedKeepsInv(w, id, isSuccess);
    }
  }

  lemma WithdrawFeeKeepsInv(w: World)
    requires Inv(w)
    ensures Inv(WithPromise(w, CallWithdrawFee(w.contract)))
  {
    var w' := WithPromise(w, CallWithdrawFee(w.contract));
    assert LocksAreOwned(w') by {
      forall a, p | IsLocked(w'.contract, a, p) ensures exists id :: id in w'.pending && Owns(w'.pending[id], a, p) {
        assert IsLocked(w.contract, a, p);
        var id :| id in w.pending && Owns(w.pending[id], a, p);
        assert id in w'.pending && w'.pending[id] == w.pending[id];
      }
    }
  }

  lemma StepKeepsInv(env: Env, w: World, at: Timestamp, action: Action)
    requires Inv(w) && IsAdmissible(w, at, action)
    ensures Inv(Step(env, w, at, action))
  {
    LaterKeepsInv(w, at);
    var w0 := w.(now := at);
    if action.Resolve? && action.id in w.pending {
      CallbackSucceeds(w0, action.id, action.isSuccess);
    }
    if Act(env, w0, action).Ok? {
      ActKeepsInv(env, w0, action);
    } else if action.Resolve? {
      assert w0.pending - {action.id} == w0.pending;
    }
  }

  /** No call changes a product's terms, caps or fee, or the clock. */
  lemma ActKeepsTerms(env: Env, w: World, action: Action)
    requires KnownState(w.contract)
    requires Act(env, w, action).Ok?
    ensures SameTerms(w.contract.products, Act(env, w, action).value.contract.products)
    ensures Act(env, w, action).value.now == w.now
  {
  }
}
