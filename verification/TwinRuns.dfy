/** Two runs side by side: one with a claim that fails in the end, and one in which
    the claim was never made. What happens in between is the same in both, but for
    the numbers of the promises. */
module TwinRuns {
  import opened Numbers
  import opened Types
  import opened Interest
  import opened Jars
  import opened Scores
  import opened Tickets
  import opened Accounts
  import opened Promises
  import opened Withdrawals
  import opened Claims
  import opened Restakes
  import opened Contracts
  import opened Protocol
  import opened Safety
  import opened Books
  import opened Schedules
  import opened Histories
  import opened ClaimOutcomes
  import opened Shadowing

  // --- The worlds -------------------------------------------------------------

  /** A claim takes number `n`; without it every later promise has one number less. */
  function Past(n: nat, id: nat): nat {
    if id < n then id else id + 1
  }

  function Renumbered(n: nat, action: Action): Action {
    if action.Resolve? then Resolve(Past(n, action.id), action.isSuccess) else action
  }

  function AllRenumbered(n: nat, entries: seq<Entry>): seq<Entry> {
    seq(|entries|, i requires 0 <= i < |entries| => Entry(entries[i].at, Renumbered(n, entries[i].action)))
  }

  ghost predicate SamePending(claimed: map<nat, Promise>, other: map<nat, Promise>, n: nat) {
    forall id: nat ::
      && (id in other <==> Past(n, id) in claimed)
      && (id in other ==> claimed[Past(n, id)] == other[id])
  }

  /** No restake of the account waits to enter a score product. */
  predicate PlainPromises(w: World, a: AccountId) {
    forall id :: id in w.pending && w.pending[id].AfterRemainder? && w.pending[id].account == a ==>
      w.pending[id].into in w.contract.products && IsPlain(w.contract.products, w.pending[id].into)
  }

  ghost predicate TwinWorlds(c: World, o: World, n: nat, a: AccountId, claim: Promise) {
    && c.now == o.now && c.accepted == o.accepted && c.paidOut == o.paidOut && c.feesPaid == o.feesPaid
    && n <= o.nextId && c.nextId == o.nextId + 1
    && claim.AfterClaim? && claim.account == a && claim.rollback != map[]
    && n in c.pending && c.pending[n] == claim
    && SamePending(c.pending, o.pending, n)
    && PlainPromises(o, a)
    && TwinStates(c.contract, o.contract, a, claim.rollback, o.now)
  }

  // --- Calls of others --------------------------------------------------------

  /** Not a call of the account's owner, no change of its rate, no booster for it,
      and nothing that opens a score jar in it. */
  predicate IsQuiet(products: map<ProductId, Product>, action: Action, a: AccountId) {
    match action
    case DoStake(b, ticket, _, _) => b == a ==> IsPlain(products, ticket.productId)
    case DoAirdrop(ticket, _, _, receivers, booster, _) => a in receivers ==> booster == 0 && IsPlain(products, ticket.productId)
    case DoWithdraw(b, _) => b != a
    case DoWithdrawAll(b, _) => b != a
    case DoRestake(b, _, _, _, _) => b != a
    case DoClaim(b) => b != a
    case DoSetFeature(b, feature, _) => b == a ==> !feature.IncreasedApy?
    case DoUpdateAll(batch) => forall i :: 0 <= i < |batch| && batch[i].0 == a ==> IsNeutral(batch[i].1)
    case _ => true
  }

  /** Both abort, or both succeed and the worlds are still twins. */
  ghost predicate TwinResults(c: Result<World>, o: Result<World>, n: nat, a: AccountId, claim: Promise) {
    && (c.Ok? <==> o.Ok?)
    && (o.Ok? ==> TwinWorlds(c.value, o.value, n, a, claim))
  }

  ghost predicate TwinStateResults(c: Result<State>, o: Result<State>, products: map<ProductId, Product>, a: AccountId,
                                   rollback: map<ProductId, JarCompanion>, now: Timestamp)
  {
    && (c.Ok? <==> o.Ok?)
    && (o.Ok? ==> TwinStates(c.value, o.value, a, rollback, now) && SameTerms(products, o.value.products))
  }

  lemma TwinContracts(c: World, o: World, n: nat, a: AccountId, claim: Promise, c': State, o': State, amount: TokenAmount)
    requires TwinWorlds(c, o, n, a, claim)
    requires TwinStates(c', o', a, claim.rollback, o.now) && SameTerms(o.contract.products, o'.products)
    ensures TwinWorlds(c.(contract := c', accepted := c.accepted + amount), o.(contract := o', accepted := o.accepted + amount), n, a, claim)
  {
  }

  lemma TwinStateCall(c: World, o: World, n: nat, a: AccountId, claim: Promise, c': Result<State>, o': Result<State>, amount: TokenAmount)
    requires TwinWorlds(c, o, n, a, claim)
    requires TwinStateResults(c', o', o.contract.products, a, claim.rollback, o.now)
    ensures TwinResults(WithState(c.(accepted := c.accepted + amount), c'), WithState(o.(accepted := o.accepted + amount), o'), n, a, claim)
  {
    if o'.Ok? {
      TwinContracts(c, o, n, a, claim, c'.value, o'.value, amount);
    }
  }

  lemma TwinPromises(c: World, o: World, n: nat, a: AccountId, claim: Promise, promise: Promise)
    requires TwinWorlds(c, o, n, a, claim)
    requires promise.AfterFee? || promise.account != a
    ensures TwinWorlds(c.(pending := c.pending[c.nextId := promise], nextId := c.nextId + 1),
                       o.(pending := o.pending[o.nextId := promise], nextId := o.nextId + 1), n, a, claim)
  {
    assert SamePending(c.pending[c.nextId := promise], o.pending[o.nextId := promise], n);
  }

  lemma TwinOpening(c: World, o: World, n: nat, a: AccountId, claim: Promise, b: AccountId, outcome: Outcome)
    requires TwinWorlds(c, o, n, a, claim) && b != a
    requires outcome.promise.Some? ==> outcome.promise.value.AfterFee? || outcome.promise.value.account == b
    ensures TwinWorlds(AfterOpening(c, b, outcome), AfterOpening(o, b, outcome), n, a, claim)
  {
    TwinForeign(c.contract, o.contract, a, claim.rollback, o.now, b, outcome.account);
    var c', o' := WithAccount(c.contract, b, outcome.account), WithAccount(o.contract, b, outcome.account);
    TwinContracts(c, o, n, a, claim, c', o', 0);
    if outcome.promise.Some? {
      TwinPromises(c.(contract := c'), o.(contract := o'), n, a, claim, outcome.promise.value);
    }
  }

  /** A call of another owner. */
  lemma TwinReplies(c: World, o: World, n: nat, a: AccountId, claim: Promise, b: AccountId, outcome: Result<Outcome>)
    requires TwinWorlds(c, o, n, a, claim) && b != a
    requires outcome.Ok? && outcome.value.promise.Some? ==> outcome.value.promise.value.AfterFee? || outcome.value.promise.value.account == b
    ensures TwinResults(WithReply(c, Replied(c.contract, b, outcome)), WithReply(o, Replied(o.contract, b, outcome)), n, a, claim)
  {
    if outcome.Ok? {
      TwinOpening(c, o, n, a, claim, b, outcome.value);
    }
  }

  lemma TwinWithdraw(c: World, o: World, n: nat, a: AccountId, claim: Promise, b: AccountId, p: ProductId)
    requires KnownState(c.contract) && KnownState(o.contract) && TwinWorlds(c, o, n, a, claim) && b != a
    ensures TwinResults(WithReply(c, CallWithdraw(c.contract, b, p, c.now)), WithReply(o, CallWithdraw(o.contract, b, p, o.now)), n, a, claim)
  {
    if b in o.contract.accounts {
      TwinReplies(c, o, n, a, claim, b, Withdraw(b, o.contract.accounts[b], o.contract.products, p, o.now));
    }
  }

  lemma TwinWithdrawAll(c: World, o: World, n: nat, a: AccountId, claim: Promise, b: AccountId, ps: Option<set<ProductId>>)
    requires KnownState(c.contract) && KnownState(o.contract) && TwinWorlds(c, o, n, a, claim) && b != a
    ensures TwinResults(WithReply(c, CallWithdrawAll(c.contract, b, ps, c.now)), WithReply(o, CallWithdrawAll(o.contract, b, ps, o.now)), n, a, claim)
  {
    if b in o.contract.accounts {
      TwinReplies(c, o, n, a, claim, b, WithdrawAll(b, o.contract.accounts[b], o.contract.products, ps, o.now));
    }
  }

  lemma TwinRestake(env: Env, c: World, o: World, n: nat, a: AccountId, claim: Promise, b: AccountId, source: Source,
                    ticket: Ticket, signature: Option<string>, target: Option<TokenAmount>)
    requires KnownState(c.contract) && KnownState(o.contract) && TwinWorlds(c, o, n, a, claim) && b != a
    ensures TwinResults(WithReply(c, CallRestake(env, c.contract, b, source, ticket, signature, target, c.now)),
                        WithReply(o, CallRestake(env, o.contract, b, source, ticket, signature, target, o.now)), n, a, claim)
  {
    if b in o.contract.accounts {
      var account, products := o.contract.accounts[b], o.contract.products;
      var outcome := Restake(env, b, account, products, source, ticket, signature, target, o.now);
      if outcome.Ok? {
        RestakeFits(env, b, account, products, source, ticket, signature, target, o.now);
      }
      TwinReplies(c, o, n, a, claim, b, outcome);
    }
  }

  lemma TwinClaim(c: World, o: World, n: nat, a: AccountId, claim: Promise, b: AccountId)
    requires KnownState(c.contract) && KnownState(o.contract) && TwinWorlds(c, o, n, a, claim) && b != a
    ensures TwinResults(WithReply(c, CallClaim(c.contract, b, c.now)), WithReply(o, CallClaim(o.contract, b, o.now)), n, a, claim)
  {
    if b in o.contract.accounts {
      TwinReplies(c, o, n, a, claim, b, ClaimTotal(b, o.contract.accounts[b], o.contract.products, o.now));
    }
  }

  lemma TwinMigrate(c: State, o: State, a: AccountId, rollback: map<ProductId, JarCompanion>, now: Timestamp,
                    b: AccountId, account: Account, amount: TokenAmount)
    requires TwinStates(c, o, a, rollback, now) && rollback != map[]
    ensures TwinStateResults(Migrate(c, b, account, amount), Migrate(o, b, account, amount), o.products, a, rollback, now)
  {
    if b == a {
      assert o.accounts[a].jars != map[] && c.accounts[a].jars != map[] by {
        var p :| p in rollback;
        assert p in o.accounts[a].jars && p in c.accounts[a].jars;
      }
    } else if Migrate(o, b, account, amount).Ok? {
      TwinForeign(c, o, a, rollback, now, b, account);
    }
  }

  lemma TwinAirdropCall(env: Env, c: State, o: State, a: AccountId, rollback: map<ProductId, JarCompanion>, now: Timestamp, ticket: Ticket,
                        signature: Option<string>, total: TokenAmount, receivers: seq<AccountId>, booster: Score, earnedAt: Option<Timestamp>)
    requires KnownState(c) && KnownState(o) && TwinStates(c, o, a, rollback, now)
    requires a in receivers ==> booster == 0 && IsPlain(o.products, ticket.productId)
    ensures TwinStateResults(Airdrop(env, c, ticket, signature, total, receivers, booster, earnedAt, now),
                             Airdrop(env, o, ticket, signature, total, receivers, booster, earnedAt, now), o.products, a, rollback, now)
  {
    if ticket.productId in o.products && receivers != [] {
      TwinAirdropAll(c, o, a, rollback, now, ticket, total / |receivers|, receivers, booster, earnedAt);
    }
  }

  lemma TwinProducts(c: State, o: State, a: AccountId, rollback: map<ProductId, JarCompanion>, now: Timestamp, products: map<ProductId, Product>)
    requires TwinStates(c, o, a, rollback, now) && SameTerms(o.products, products)
    ensures TwinStates(c.(products := products), o.(products := products), a, rollback, now)
  {
    var claimed, other := c.accounts[a], o.accounts[a];
    forall p | p in other.jars
      ensures p in products
      ensures TwinJar(products[p].terms, other.features.increasedApy, claimed.jars[p], other.jars[p], CompanionOf(rollback, p), now)
    {
      assert TwinJar(o.products[p].terms, other.features.increasedApy, claimed.jars[p], other.jars[p], CompanionOf(rollback, p), now);
    }
  }

  lemma TwinProductCall(c: World, o: World, n: nat, a: AccountId, claim: Promise, c': Result<State>, o': Result<State>)
    requires TwinWorlds(c, o, n, a, claim)
    requires c'.Ok? <==> o'.Ok?
    requires o'.Ok? ==> SameTerms(o.contract.products, o'.value.products)
    requires o'.Ok? ==> c'.value == c.contract.(products := o'.value.products) && o'.value == o.contract.(products := o'.value.products)
    ensures TwinResults(WithState(c, c'), WithState(o, o'), n, a, claim)
  {
    if o'.Ok? {
      TwinProducts(c.contract, o.contract, a, claim.rollback, o.now, o'.value.products);
      TwinContracts(c, o, n, a, claim, c'.value, o'.value, 0);
    }
  }

  lemma TwinSetFeature(c: State, o: State, a: AccountId, rollback: map<ProductId, JarCompanion>, now: Timestamp,
                       b: AccountId, feature: Feature, isEnabled: bool)
    requires KnownState(c) && KnownState(o) && TwinStates(c, o, a, rollback, now)
    requires b == a ==> !feature.IncreasedApy?
    ensures TwinStateResults(SetFeatureEnabled(c, b, feature, isEnabled, now), SetFeatureEnabled(o, b, feature, isEnabled, now), o.products,
                             a, rollback, now)
  {
    if b in o.accounts {
      TwinUpdateAccount(c, o, a, rollback, now, b, SetFeature(feature, isEnabled));
    } else {
      TwinForeign(c, o, a, rollback, now, b, SetFeatureEnabled(o, b, feature, isEnabled, now).value.accounts[b]);
    }
  }

  lemma TwinTimezone(c: State, o: State, a: AccountId, rollback: map<ProductId, JarCompanion>, now: Timestamp, b: AccountId, timezone: Timezone)
    requires TwinStates(c, o, a, rollback, now)
    ensures TwinStateResults(SetTimezone(c, b, timezone, now), SetTimezone(o, b, timezone, now), o.products, a, rollback, now)
  {
    if b == a {
      TwinZoned(c.accounts[a], o.accounts[a], rollback, o.products, now, Some(timezone));
      TwinOwn(c, o, a, rollback, now, TrySetTimezone(c.accounts[a], Some(timezone)).value, TrySetTimezone(o.accounts[a], Some(timezone)).value);
    } else {
      TwinAccountOf(c, o, a, rollback, now, b);
      TwinForeign(c, o, a, rollback, now, b, TrySetTimezone(AccountOrNew(o, b, now), Some(timezone)).value);
    }
  }

  lemma TwinZoned(claimed: Account, other: Account, rollback: map<ProductId, JarCompanion>, products: map<ProductId, Product>, now: Timestamp,
                  timezone: Option<Timezone>)
    requires Twins(claimed, other, rollback, products, now) && timezone.Some?
    ensures Twins(TrySetTimezone(claimed, timezone).value, TrySetTimezone(other, timezone).value, rollback, products, now)
  {
  }

  // --- Callbacks --------------------------------------------------------------

  /** No other promise owns a claimed jar. */
  lemma OthersOwnElsewhere(c: World, o: World, n: nat, a: AccountId, claim: Promise, id: nat)
    requires Exclusive(c) && TwinWorlds(c, o, n, a, claim) && id in o.pending
    requires !o.pending[id].AfterFee? && o.pending[id].account == a
    ensures Owned(o.pending[id]) !! claim.rollback.Keys
  {
    forall p | p in Owned(o.pending[id]) ensures p !in claim.rollback {
      assert Owns(c.pending[Past(n, id)], a, p);
      assert !Owns(c.pending[n], a, p);
    }
  }

  lemma TwinResolved(c: World, o: World, n: nat, a: AccountId, claim: Promise, id: nat, isSuccess: bool)
    requires Exclusive(c) && TwinWorlds(c, o, n, a, claim) && id in o.pending
    ensures Past(n, id) in c.pending
    ensures TwinResults(Resolved(c, Past(n, id), isSuccess), Resolved(o, id, isSuccess), n, a, claim)
  {
    var promise := o.pending[id];
    var c', o' := Finish(c.contract, promise, isSuccess, o.now), Finish(o.contract, promise, isSuccess, o.now);
    TwinFinishes(c, o, n, a, claim, id, isSuccess);
    if o'.Ok? {
      TwinDone(c.(contract := c'.value), o.(contract := o'.value), n, a, claim, id,
               if isSuccess then Max(Payout(promise), 0) else 0, if isSuccess then FeePayout(promise) else 0);
    }
  }

  lemma TwinFinishes(c: World, o: World, n: nat, a: AccountId, claim: Promise, id: nat, isSuccess: bool)
    requires Exclusive(c) && TwinWorlds(c, o, n, a, claim) && id in o.pending
    ensures var c', o' := Finish(c.contract, o.pending[id], isSuccess, o.now), Finish(o.contract, o.pending[id], isSuccess, o.now);
            && (c'.Ok? <==> o'.Ok?)
            && (o'.Ok? ==> TwinWorlds(c.(contract := c'.value), o.(contract := o'.value), n, a, claim))
  {
    var promise := o.pending[id];
    if !promise.AfterFee? && promise.account == a {
      OthersOwnElsewhere(c, o, n, a, claim, id);
    }
    TwinFinish(c.contract, o.contract, a, claim.rollback, o.now, promise, isSuccess);
    var c', o' := Finish(c.contract, promise, isSuccess, o.now), Finish(o.contract, promise, isSuccess, o.now);
    if o'.Ok? {
      TwinContracts(c, o, n, a, claim, c'.value, o'.value, 0);
    }
  }

  lemma TwinDone(c: World, o: World, n: nat, a: AccountId, claim: Promise, id: nat, payout: TokenAmount, fee: TokenAmount)
    requires TwinWorlds(c, o, n, a, claim)
    ensures TwinWorlds(c.(pending := c.pending - {Past(n, id)}, paidOut := c.paidOut + payout, feesPaid := c.feesPaid + fee),
                       o.(pending := o.pending - {id}, paidOut := o.paidOut + payout, feesPaid := o.feesPaid + fee), n, a, claim)
  {
    SamePendingWithout(c.pending, o.pending, n, id);
  }

  lemma SamePendingWithout(claimed: map<nat, Promise>, other: map<nat, Promise>, n: nat, id: nat)
    requires SamePending(claimed, other, n)
    ensures SamePending(claimed - {Past(n, id)}, other - {id}, n)
    ensures n in claimed ==> n in claimed - {Past(n, id)}
  {
  }

  // --- Every step and every run -----------------------------------------------

  lemma TwinOwnersCall(env: Env, c: World, o: World, n: nat, a: AccountId, claim: Promise, action: Action)
    requires KnownState(c.contract) && KnownState(o.contract) && TwinWorlds(c, o, n, a, claim)
    requires IsOwnersCall(action) && action.a != a
    ensures TwinResults(Act(env, c, action), Act(env, o, action), n, a, claim)
  {
    match action
    case DoWithdraw(b, p) => TwinWithdraw(c, o, n, a, claim, b, p);
    case DoWithdrawAll(b, ps) => TwinWithdrawAll(c, o, n, a, claim, b, ps);
    case DoRestake(b, source, ticket, signature, target) => TwinRestake(env, c, o, n, a, claim, b, source, ticket, signature, target);
    case DoClaim(b) => TwinClaim(c, o, n, a, claim, b);
  }

  lemma TwinStakes(env: Env, c: World, o: World, n: nat, a: AccountId, claim: Promise,
                   b: AccountId, ticket: Ticket, signature: Option<string>, amount: TokenAmount)
    requires KnownState(c.contract) && KnownState(o.contract) && TwinWorlds(c, o, n, a, claim)
    requires b == a ==> IsPlain(o.contract.products, ticket.productId)
    ensures TwinResults(WithState(c.(accepted := c.accepted + amount), Stake(env, c.contract, b, ticket, signature, amount, c.now)),
                        WithState(o.(accepted := o.accepted + amount), Stake(env, o.contract, b, ticket, signature, amount, o.now)), n, a, claim)
  {
    TwinStakeCall(env, c.contract, o.contract, a, claim.rollback, o.now, b, ticket, signature, amount);
    TwinStateCall(c, o, n, a, claim, Stake(env, c.contract, b, ticket, signature, amount, o.now),
                  Stake(env, o.contract, b, ticket, signature, amount, o.now), amount);
  }

  lemma TwinAirdrops(env: Env, c: World, o: World, n: nat, a: AccountId, claim: Promise, ticket: Ticket,
                     signature: Option<string>, amount: TokenAmount, receivers: seq<AccountId>, booster: Score, earnedAt: Option<Timestamp>)
    requires KnownState(c.contract) && KnownState(o.contract) && TwinWorlds(c, o, n, a, claim)
    requires a in receivers ==> booster == 0 && IsPlain(o.contract.products, ticket.productId)
    ensures TwinResults(WithState(c.(accepted := c.accepted + amount), Airdrop(env, c.contract, ticket, signature, amount, receivers, booster, earnedAt, c.now)),
                        WithState(o.(accepted := o.accepted + amount), Airdrop(env, o.contract, ticket, signature, amount, receivers, booster, earnedAt, o.now)),
                        n, a, claim)
  {
    TwinAirdropCall(env, c.contract, o.contract, a, claim.rollback, o.now, ticket, signature, amount, receivers, booster, earnedAt);
    TwinStateCall(c, o, n, a, claim, Airdrop(env, c.contract, ticket, signature, amount, receivers, booster, earnedAt, o.now),
                  Airdrop(env, o.contract, ticket, signature, amount, receivers, booster, earnedAt, o.now), amount);
  }

  lemma TwinStakeAct(env: Env, c: World, o: World, n: nat, a: AccountId, claim: Promise, action: Action)
    requires KnownState(c.contract) && KnownState(o.contract) && TwinWorlds(c, o, n, a, claim)
    requires action.DoStake? && IsQuiet(o.contract.products, action, a)
    ensures TwinResults(Act(env, c, action), Act(env, o, action), n, a, claim)
  {
    TwinStakes(env, c, o, n, a, claim, action.receiver, action.ticket, action.signature, action.amount);
  }

  lemma TwinAirdropAct(env: Env, c: World, o: World, n: nat, a: AccountId, claim: Promise, action: Action)
    requires KnownState(c.contract) && KnownState(o.contract) && TwinWorlds(c, o, n, a, claim)
    requires action.DoAirdrop? && IsQuiet(o.contract.products, action, a)
    ensures TwinResults(Act(env, c, action), Act(env, o, action), n, a, claim)
  {
    TwinAirdrops(env, c, o, n, a, claim, action.ticket, action.signature, action.amount, action.receivers, action.booster, action.earnedAt);
  }

  lemma TwinMigrates(env: Env, c: World, o: World, n: nat, a: AccountId, claim: Promise, b: AccountId, account: Account, amount: TokenAmount)
    requires KnownState(c.contract) && KnownState(o.contract) && TwinWorlds(c, o, n, a, claim)
    ensures TwinResults(Act(env, c, DoMigrate(b, account, amount)), Act(env, o, DoMigrate(b, account, amount)), n, a, claim)
  {
    TwinMigrate(c.contract, o.contract, a, claim.rollback, o.now, b, account, amount);
    TwinStateCall(c, o, n, a, claim, Migrate(c.contract, b, account, amount), Migrate(o.contract, b, account, amount), amount);
  }

  lemma TwinIncoming(env: Env, c: World, o: World, n: nat, a: AccountId, claim: Promise, action: Action)
    requires KnownState(c.contract) && KnownState(o.contract) && TwinWorlds(c, o, n, a, claim)
    requires BringsTokens(action) && IsQuiet(o.contract.products, action, a)
    ensures TwinResults(Act(env, c, action), Act(env, o, action), n, a, claim)
  {
    match action
    case DoStake(_, _, _, _) => TwinStakeAct(env, c, o, n, a, claim, action);
    case DoAirdrop(_, _, _, _, _, _) => TwinAirdropAct(env, c, o, n, a, claim, action);
    case DoMigrate(b, account, amount) => TwinMigrates(env, c, o, n, a, claim, b, account, amount);
  }

  lemma TwinRegister(c: World, o: World, n: nat, a: AccountId, claim: Promise, product: Product)
    requires TwinWorlds(c, o, n, a, claim)
    ensures TwinResults(WithState(c, RegisterProduct(c.contract, product)), WithState(o, RegisterProduct(o.contract, product)), n, a, claim)
  {
    TwinProductCall(c, o, n, a, claim, RegisterProduct(c.contract, product), RegisterProduct(o.contract, product));
  }

  lemma TwinSetEnabled(c: World, o: World, n: nat, a: AccountId, claim: Promise, p: ProductId, isEnabled: bool)
    requires TwinWorlds(c, o, n, a, claim)
    ensures TwinResults(WithState(c, SetEnabled(c.contract, p, isEnabled)), WithState(o, SetEnabled(o.contract, p, isEnabled)), n, a, claim)
  {
    TwinProductCall(c, o, n, a, claim, SetEnabled(c.contract, p, isEnabled), SetEnabled(o.contract, p, isEnabled));
  }

  lemma TwinSetPublicKey(c: World, o: World, n: nat, a: AccountId, claim: Promise, p: ProductId, key: string)
    requires TwinWorlds(c, o, n, a, claim)
    ensures TwinResults(WithState(c, SetPublicKey(c.contract, p, key)), WithState(o, SetPublicKey(o.contract, p, key)), n, a, claim)
  {
    TwinProductCall(c, o, n, a, claim, SetPublicKey(c.contract, p, key), SetPublicKey(o.contract, p, key));
  }

  lemma TwinOperatorsCall(env: Env, c: World, o: World, n: nat, a: AccountId, claim: Promise, action: Action)
    requires KnownState(c.contract) && KnownState(o.contract) && TwinWorlds(c, o, n, a, claim)
    requires IsProductCall(action)
    ensures TwinResults(Act(env, c, action), Act(env, o, action), n, a, claim)
  {
    match action
    case DoRegister(product) => TwinRegister(c, o, n, a, claim, product);
    case DoSetEnabled(p, isEnabled) => TwinSetEnabled(c, o, n, a, claim, p, isEnabled);
    case DoSetPublicKey(p, key) => TwinSetPublicKey(c, o, n, a, claim, p, key);
  }

  lemma TwinSetsFeature(c: World, o: World, n: nat, a: AccountId, claim: Promise, b: AccountId, feature: Feature, isEnabled: bool)
    requires KnownState(c.contract) && KnownState(o.contract) && TwinWorlds(c, o, n, a, claim)
    requires b == a ==> !feature.IncreasedApy?
    ensures TwinResults(WithState(c, SetFeatureEnabled(c.contract, b, feature, isEnabled, c.now)),
                        WithState(o, SetFeatureEnabled(o.contract, b, feature, isEnabled, o.now)), n, a, claim)
  {
    TwinSetFeature(c.contract, o.contract, a, claim.rollback, o.now, b, feature, isEnabled);
    TwinStateCall(c, o, n, a, claim, SetFeatureEnabled(c.contract, b, feature, isEnabled, o.now),
                  SetFeatureEnabled(o.contract, b, feature, isEnabled, o.now), 0);
  }

  lemma TwinUpdates(c: World, o: World, n: nat, a: AccountId, claim: Promise, batch: seq<(AccountId, Update)>)
    requires KnownState(c.contract) && KnownState(o.contract) && TwinWorlds(c, o, n, a, claim)
    requires forall i :: 0 <= i < |batch| && batch[i].0 == a ==> IsNeutral(batch[i].1)
    ensures TwinResults(WithState(c, UpdateAll(c.contract, batch, c.now)), WithState(o, UpdateAll(o.contract, batch, o.now)), n, a, claim)
  {
    TwinUpdateAll(c.contract, o.contract, a, claim.rollback, o.now, batch);
    TwinStateCall(c, o, n, a, claim, UpdateAll(c.contract, batch, o.now), UpdateAll(o.contract, batch, o.now), 0);
  }

  lemma TwinSetsTimezone(c: World, o: World, n: nat, a: AccountId, claim: Promise, b: AccountId, timezone: Timezone)
    requires TwinWorlds(c, o, n, a, claim)
    ensures TwinResults(WithState(c, SetTimezone(c.contract, b, timezone, c.now)), WithState(o, SetTimezone(o.contract, b, timezone, o.now)), n, a, claim)
  {
    TwinTimezone(c.contract, o.contract, a, claim.rollback, o.now, b, timezone);
    TwinStateCall(c, o, n, a, claim, SetTimezone(c.contract, b, timezone, o.now), SetTimezone(o.contract, b, timezone, o.now), 0);
  }

  lemma TwinSetting(env: Env, c: World, o: World, n: nat, a: AccountId, claim: Promise, action: Action)
    requires KnownState(c.contract) && KnownState(o.contract) && TwinWorlds(c, o, n, a, claim)
    requires action.DoSetFeature? || action.DoUpdateAll? || action.DoSetTimezone?
    requires IsQuiet(o.contract.products, action, a)
    ensures TwinResults(Act(env, c, action), Act(env, o, action), n, a, claim)
  {
    match action
    case DoSetFeature(b, feature, isEnabled) => TwinSetsFeature(c, o, n, a, claim, b, feature, isEnabled);
    case DoUpdateAll(batch) => TwinUpdates(c, o, n, a, claim, batch);
    case DoSetTimezone(b, timezone) => TwinSetsTimezone(c, o, n, a, claim, b, timezone);
  }

  lemma TwinAct(env: Env, c: World, o: World, n: nat, a: AccountId, claim: Promise, action: Action)
    requires KnownState(c.contract) && KnownState(o.contract) && Exclusive(c)
    requires TwinWorlds(c, o, n, a, claim) && IsQuiet(o.contract.products, action, a)
    ensures TwinResults(Act(env, c, Renumbered(n, action)), Act(env, o, action), n, a, claim)
  {
    if action.Resolve? {
      TwinCallback(env, c, o, n, a, claim, action.id, action.isSuccess);
    } else {
      TwinCall(env, c, o, n, a, claim, action);
    }
  }

  lemma TwinCallback(env: Env, c: World, o: World, n: nat, a: AccountId, claim: Promise, id: nat, isSuccess: bool)
    requires KnownState(c.contract) && KnownState(o.contract) && Exclusive(c) && TwinWorlds(c, o, n, a, claim)
    ensures TwinResults(Act(env, c, Resolve(Past(n, id), isSuccess)), Act(env, o, Resolve(id, isSuccess)), n, a, claim)
  {
    if id in o.pending {
      TwinResolved(c, o, n, a, claim, id, isSuccess);
    }
  }

  lemma TwinCall(env: Env, c: World, o: World, n: nat, a: AccountId, claim: Promise, action: Action)
    requires KnownState(c.contract) && KnownState(o.contract) && TwinWorlds(c, o, n, a, claim)
    requires !action.Resolve? && IsQuiet(o.contract.products, action, a)
    ensures TwinResults(Act(env, c, action), Act(env, o, action), n, a, claim)
  {
    if IsOwnersCall(action) {
      TwinOwnersCall(env, c, o, n, a, claim, action);
    } else if BringsTokens(action) {
      TwinIncoming(env, c, o, n, a, claim, action);
    } else if IsProductCall(action) {
      TwinOperatorsCall(env, c, o, n, a, claim, action);
    } else if action.DoWithdrawFee? {
      TwinFeeCall(c, o, n, a, claim);
    } else {
      TwinSetting(env, c, o, n, a, claim, action);
    }
  }

  lemma TwinFeeCall(c: World, o: World, n: nat, a: AccountId, claim: Promise)
    requires TwinWorlds(c, o, n, a, claim)
    ensures TwinWorlds(WithPromise(c, CallWithdrawFee(c.contract)), WithPromise(o, CallWithdrawFee(o.contract)), n, a, claim)
  {
    var c', o' := c.contract.(feeAmount := 0), o.contract.(feeAmount := 0);
    TwinContracts(c, o, n, a, claim, c', o', 0);
    TwinPromises(c.(contract := c'), o.(contract := o'), n, a, claim, AfterFee(o.contract.feeAmount));
  }

  lemma LaterWorlds(c: World, o: World, n: nat, a: AccountId, claim: Promise, at: Timestamp)
    requires TwinWorlds(c, o, n, a, claim) && o.now <= at
    ensures TwinWorlds(c.(now := at), o.(now := at), n, a, claim)
  {
    LaterTwins(c.contract.accounts[a], o.contract.accounts[a], claim.rollback, o.contract.products, o.now, at);
  }

  lemma TwinNext(env: Env, c: World, o: World, n: nat, a: AccountId, claim: Promise, entry: Entry)
    requires Inv(c) && Inv(o) && TwinWorlds(c, o, n, a, claim) && IsQuiet(o.contract.products, entry.action, a)
    ensures TwinWorlds(Next(env, c, Entry(entry.at, Renumbered(n, entry.action))), Next(env, o, entry), n, a, claim)
  {
    if IsAdmissible(o, entry.at, entry.action) {
      StepIsAct(env, c, Entry(entry.at, Renumbered(n, entry.action)));
      StepIsAct(env, o, entry);
      TwinLaterAct(env, c, o, n, a, claim, entry);
    }
  }

  lemma TwinLaterAct(env: Env, c: World, o: World, n: nat, a: AccountId, claim: Promise, entry: Entry)
    requires KnownState(c.contract) && KnownState(o.contract) && Exclusive(c) && TwinWorlds(c, o, n, a, claim)
    requires o.now <= entry.at && IsQuiet(o.contract.products, entry.action, a)
    ensures TwinWorlds(c.(now := entry.at), o.(now := entry.at), n, a, claim)
    ensures TwinResults(Act(env, c.(now := entry.at), Renumbered(n, entry.action)), Act(env, o.(now := entry.at), entry.action), n, a, claim)
  {
    LaterWorlds(c, o, n, a, claim, entry.at);
    TwinAct(env, c.(now := entry.at), o.(now := entry.at), n, a, claim, entry.action);
  }

  /** Every entry is quiet for the account when it comes. */
  ghost predicate IsQuietRun(env: Env, w: World, entries: seq<Entry>, a: AccountId)
    requires Inv(w)
  {
    entries == [] || (
      var n := |entries| - 1;
      && IsQuietRun(env, w, entries[..n], a)
      && IsQuiet(Run(env, w, entries[..n]).contract.products, entries[n].action, a))
  }

  lemma RenumberedPrefix(n: nat, entries: seq<Entry>)
    requires entries != []
    ensures var m := |entries| - 1;
            && AllRenumbered(n, entries)[..m] == AllRenumbered(n, entries[..m])
            && AllRenumbered(n, entries)[m] == Entry(entries[m].at, Renumbered(n, entries[m].action))
  {
  }

  lemma {:induction false} TwinRun(env: Env, c: World, o: World, n: nat, a: AccountId, claim: Promise, entries: seq<Entry>)
    requires Inv(c) && Inv(o) && TwinWorlds(c, o, n, a, claim) && IsQuietRun(env, o, entries, a)
    ensures TwinWorlds(Run(env, c, AllRenumbered(n, entries)), Run(env, o, entries), n, a, claim)
  {
    if entries != [] {
      var m := |entries| - 1;
      TwinRun(env, c, o, n, a, claim, entries[..m]);
      RenumberedPrefix(n, entries);
      TwinNext(env, Run(env, c, AllRenumbered(n, entries[..m])), Run(env, o, entries[..m]), n, a, claim, entries[m]);
    }
  }

  // --- From the claim to its failure -------------------------------------------

  /** The claim makes a twin of the world it is made in. */
  lemma ClaimMakesTwins(env: Env, w: World, a: AccountId, p: ProductId)
    requires Inv(w) && TakesClaim(env, w, a, p) && PlainPromises(w, a)
    requires a in w.contract.accounts ==> NoScores(w.contract.accounts[a], w.contract.products)
    ensures var claimed := Claiming(env, w, a, p);
            TwinWorlds(claimed, w, w.nextId, a, claimed.pending[w.nextId])
  {
    var outcome := ClaimTotal(a, w.contract.accounts[a], w.contract.products, w.now).value;
    assert Ordered(w.contract.accounts[a], w.now);
    ClaimedTwin(a, w.contract.accounts[a], w.contract.products, w.now);
    assert Claiming(env, w, a, p) == AfterOpening(w, a, outcome);
    TwinsBegin(w, a, outcome);
  }

  lemma TwinsBegin(w: World, a: AccountId, outcome: Outcome)
    requires a in w.contract.accounts && PlainPromises(w, a)
    requires forall id :: id in w.pending ==> id < w.nextId
    requires outcome.promise.Some? && outcome.promise.value.AfterClaim? && outcome.promise.value.account == a
    requires outcome.promise.value.rollback != map[]
    requires Twins(outcome.account, w.contract.accounts[a], outcome.promise.value.rollback, w.contract.products, w.now)
    ensures TwinWorlds(AfterOpening(w, a, outcome), w, w.nextId, a, outcome.promise.value)
  {
    assert SamePending(AfterOpening(w, a, outcome).pending, w.pending, w.nextId);
  }

  lemma ClaimedTwin(a: AccountId, account: Account, products: map<ProductId, Product>, now: Timestamp)
    requires Known(account, products) && NoScores(account, products) && Ordered(account, now)
    requires ClaimTotal(a, account, products, now).Ok?
    requires ClaimTotal(a, account, products, now).value.promise.Some?
    ensures var outcome := ClaimTotal(a, account, products, now).value;
            && outcome.promise.value.AfterClaim? && outcome.promise.value.account == a
            && Twins(outcome.account, account, outcome.promise.value.rollback, products, now)
  {
    var outcome := ClaimTotal(a, account, products, now).value;
    var rollback := outcome.promise.value.rollback;
    NoScoresNothingSettled(account, products, now);
    forall p | p in account.jars
      ensures TwinJar(products[p].terms, account.features.increasedApy, outcome.account.jars[p], account.jars[p], CompanionOf(rollback, p), now)
    {
      assert InOrder(account.jars[p].deposits, now);
      if p in rollback {
        assert Applied(outcome.account.jars[p], rollback[p]) == account.jars[p];
      }
    }
  }

  /** At every later moment each jar of the one owes what it owes in the other. */
  ghost predicate OwesTheSame(failed: Account, other: Account, products: map<ProductId, Product>, at: Timestamp)
    requires Known(other, products) && NoScores(other, products)
  {
    && failed.jars.Keys == other.jars.Keys
    && failed.nonce == other.nonce && failed.features == other.features
    && (forall p :: p in other.jars ==>
          failed.jars[p].deposits == other.jars[p].deposits && failed.jars[p].isLocked == other.jars[p].isLocked)
    && (forall p, later: nat :: p in other.jars && at <= later && LivesFit(RateFor(products[p].terms, other, later), other.jars[p].deposits, later) ==>
          JarInterest(RateFor(products[p].terms, failed, later), failed.jars[p], later)
          == JarInterest(RateFor(products[p].terms, other, later), other.jars[p], later))
  }

  /** The same contract, but for how the caches of one account split what is owed
      and for its score window and timezone. */
  ghost predicate SameButFor(failed: World, other: World, n: nat, a: AccountId) {
    && failed.accepted == other.accepted && failed.paidOut == other.paidOut && failed.feesPaid == other.feesPaid
    && n !in failed.pending && SamePending(failed.pending, other.pending, n)
    && failed.contract.products == other.contract.products && failed.contract.feeAmount == other.contract.feeAmount
    && failed.contract.accounts.Keys == other.contract.accounts.Keys
    && a in other.contract.accounts
    && (forall b :: b in other.contract.accounts && b != a ==> failed.contract.accounts[b] == other.contract.accounts[b])
    && Known(other.contract.accounts[a], other.contract.products) && NoScores(other.contract.accounts[a], other.contract.products)
    && OwesTheSame(failed.contract.accounts[a], other.contract.accounts[a], other.contract.products, failed.now)
  }

  lemma FailureMeetsTwin(claimed: Account, other: Account, claim: Promise, products: map<ProductId, Product>, now: Timestamp)
    requires claim.AfterClaim? && Twins(claimed, other, claim.rollback, products, now)
    ensures FinishClaim(claimed, claim, false).Ok?
    ensures OwesTheSame(FinishClaim(claimed, claim, false).value, other, products, now)
  {
    var failed := FinishClaim(claimed, claim, false).value;
    forall p, later: nat | p in other.jars && now <= later && LivesFit(RateFor(products[p].terms, other, later), other.jars[p].deposits, later)
      ensures JarInterest(RateFor(products[p].terms, failed, later), failed.jars[p], later)
           == JarInterest(RateFor(products[p].terms, other, later), other.jars[p], later)
    {
      var terms, flag := products[p].terms, other.features.increasedApy;
      PlainRateSuffices(terms, failed, failed.jars[p], later);
      PlainRateSuffices(terms, other, other.jars[p], later);
      assert TwinJar(terms, flag, claimed.jars[p], other.jars[p], CompanionOf(claim.rollback, p), now);
      if p in claim.rollback {
        SamePromiseSameInterest(PlainRate(terms, flag), failed.jars[p], other.jars[p], later);
      }
    }
  }

  lemma FailureMeetsOther(env: Env, c: World, o: World, n: nat, a: AccountId, claim: Promise, at: Timestamp)
    requires Inv(c) && TwinWorlds(c, o, n, a, claim) && o.now <= at
    ensures SameButFor(Next(env, c, Entry(at, Resolve(n, false))), o, n, a)
  {
    FailureIsResolved(env, c, n, at);
    LaterWorlds(c, o, n, a, claim, at);
    ResolvedMeetsOther(c.(now := at), o.(now := at), n, a, claim);
  }

  lemma FailureIsResolved(env: Env, w: World, id: nat, at: Timestamp)
    requires Inv(w) && id in w.pending && w.now <= at
    ensures Resolved(w.(now := at), id, false).Ok?
    ensures Next(env, w, Entry(at, Resolve(id, false))) == Resolved(w.(now := at), id, false).value
  {
    LaterKeepsInv(w, at);
    CallbackSucceeds(w.(now := at), id, false);
    StepIsAct(env, w, Entry(at, Resolve(id, false)));
  }

  lemma ResolvedMeetsOther(c: World, o: World, n: nat, a: AccountId, claim: Promise)
    requires TwinWorlds(c, o, n, a, claim)
    ensures Resolved(c, n, false).Ok?
    ensures SameButFor(Resolved(c, n, false).value, o, n, a)
  {
    FailureMeetsTwin(c.contract.accounts[a], o.contract.accounts[a], claim, o.contract.products, o.now);
    var failed := Resolved(c, n, false).value;
    assert SamePending(failed.pending, o.pending, n);
  }

  /** A failed claim leaves no trace. Beside the run with the claim stands the run
      of the same calls without it, where every later promise has one number less.
      Once the claim fails, the two contracts agree: all other accounts are equal,
      and every jar of this one has the same deposits and lock, and owes the same
      at every later moment. */
  lemma FailedClaimIsInvisible(env: Env, w: World, a: AccountId, p: ProductId, entries: seq<Entry>, at: Timestamp)
    requires Inv(w) && TakesClaim(env, w, a, p) && PlainPromises(w, a)
    requires a in w.contract.accounts ==> NoScores(w.contract.accounts[a], w.contract.products)
    requires IsQuietRun(env, w, entries, a)
    requires Run(env, w, entries).now <= at
    ensures var other := Run(env, w, entries);
            var claimed := Run(env, Claiming(env, w, a, p), AllRenumbered(w.nextId, entries));
            SameButFor(Next(env, claimed, Entry(at, Resolve(w.nextId, false))), other, w.nextId, a)
  {
    ClaimMakesTwins(env, w, a, p);
    var claim := Claiming(env, w, a, p).pending[w.nextId];
    TwinRun(env, Claiming(env, w, a, p), w, w.nextId, a, claim, entries);
    FailureMeetsOther(env, Run(env, Claiming(env, w, a, p), AllRenumbered(w.nextId, entries)), Run(env, w, entries), w.nextId, a, claim, at);
  }
}
