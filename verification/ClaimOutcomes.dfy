/** What happens to a claimed jar until its claim fails, over every run in between. */
module ClaimOutcomes {
  import opened Numbers
  import opened Types
  import opened Interest
  import opened Jars
  import opened Tickets
  import opened Accounts
  import opened Promises
  import opened Withdrawals
  import opened Claims
  import opened Restakes
  import opened Contracts
  import opened Protocol
  import opened Safety
  import opened Books
  import opened Schedules
  import opened TrackedCallbacks
  import opened Histories

  // --- What can happen to a jar while it is claimed ---------------------------

  /** A claimed jar is locked: deposits enter it, with a refresh or, out of a
      restake, without one; and its cache is refreshed. */
  datatype JarEvent = Push(at: Timestamp, amount: TokenAmount) | Refresh(at: Timestamp)

  function AfterEvent(rate: Rate, jar: Jar, event: JarEvent): Jar
    requires !rate.terms.IsScoreBased()
  {
    match event
    case Push(at, amount) => WithDeposit(jar, Deposit(at, amount))
    case Refresh(at) => Refreshed(rate, jar, at)
  }

  function AfterEvents(rate: Rate, jar: Jar, events: seq<JarEvent>): Jar
    requires !rate.terms.IsScoreBased()
  {
    if events == [] then jar else AfterEvent(rate, AfterEvents(rate, jar, events[..|events| - 1]), events[|events| - 1])
  }

  /** The deposits that were made. */
  function Made(events: seq<JarEvent>): seq<Deposit> {
    if events == [] then [] else
      var last := events[|events| - 1];
      Made(events[..|events| - 1]) + if last.Push? then [Deposit(last.at, last.amount)] else []
  }

  predicate InOrderSince(events: seq<JarEvent>, now: Timestamp) {
    && (forall i :: 0 <= i < |events| ==> now <= events[i].at)
    && (forall i, j :: 0 <= i < j < |events| ==> events[i].at <= events[j].at)
  }

  function LastMoment(events: seq<JarEvent>, now: Timestamp): Timestamp {
    if events == [] then now else events[|events| - 1].at
  }

  function WithMade(jar: Jar, events: seq<JarEvent>): Jar {
    jar.(deposits := jar.deposits + Made(events))
  }

  /** The events amount to the deposits alone: what the jar will owe at any later
      moment does not depend on the refreshes. */
  lemma {:induction false} EventsKeepPromise(rate: Rate, jar: Jar, events: seq<JarEvent>, now: Timestamp, later: Timestamp)
    requires !rate.terms.IsScoreBased()
    requires IsPast(jar, now) && InOrderSince(events, now) && LastMoment(events, now) <= later
    requires LivesFit(rate, WithMade(jar, events).deposits, later)
    ensures var after := AfterEvents(rate, jar, events);
            && after.deposits == WithMade(jar, events).deposits
            && IsPast(after, LastMoment(events, now))
            && Promised(rate, after, later) == Promised(rate, WithMade(jar, events), later)
  {
    if events == [] {
      assert WithMade(jar, events) == jar;
    } else {
      var n := |events| - 1;
      var bare := WithMade(jar, events[..n]);
      assert WithMade(jar, events) == if events[n].Push? then WithDeposit(bare, Deposit(events[n].at, events[n].amount)) else bare;
      assert forall i :: 0 <= i < |bare.deposits| ==> bare.deposits[i] == WithMade(jar, events).deposits[i];
      EventsKeepPromise(rate, jar, events[..n], now, later);
      EventKeepsPromise(rate, AfterEvents(rate, jar, events[..n]), bare, events[n], LastMoment(events[..n], now), later);
    }
  }

  /** One event on a jar that was refreshed now and then, and on one that was not. */
  lemma EventKeepsPromise(rate: Rate, jar: Jar, bare: Jar, event: JarEvent, now: Timestamp, later: Timestamp)
    requires !rate.terms.IsScoreBased() && now <= event.at <= later
    requires IsPast(jar, now) && (bare.cache.Some? ==> bare.cache.value.updatedAt <= now)
    requires jar.deposits == bare.deposits && LivesFit(rate, jar.deposits, later)
    requires Promised(rate, jar, later) == Promised(rate, bare, later)
    ensures var bare' := if event.Push? then WithDeposit(bare, Deposit(event.at, event.amount)) else bare;
            && AfterEvent(rate, jar, event).deposits == bare'.deposits
            && IsPast(AfterEvent(rate, jar, event), event.at)
            && Promised(rate, AfterEvent(rate, jar, event), later) == Promised(rate, bare', later)
  {
    match event
    case Push(at, amount) =>
      PushAddsToPromise(rate, jar, Deposit(at, amount), later);
      PushAddsToPromise(rate, bare, Deposit(at, amount), later);
    case Refresh(at) => RefreshKeepsPromise(rate, jar, at, later);
  }

  lemma {:induction false} EventsMakeDeposits(rate: Rate, jar: Jar, events: seq<JarEvent>)
    requires !rate.terms.IsScoreBased()
    ensures AfterEvents(rate, jar, events).deposits == jar.deposits + Made(events)
  {
    if events != [] {
      EventsMakeDeposits(rate, jar, events[..|events| - 1]);
    }
  }

  lemma {:induction false} EventsAppend(rate: Rate, jar: Jar, first: seq<JarEvent>, second: seq<JarEvent>)
    requires !rate.terms.IsScoreBased()
    ensures AfterEvents(rate, jar, first + second) == AfterEvents(rate, AfterEvents(rate, jar, first), second)
  {
    if second == [] {
      assert first + second == first;
    } else {
      var n := |second| - 1;
      assert (first + second)[..|first + second| - 1] == first + second[..n];
      EventsAppend(rate, jar, first, second[..n]);
    }
  }

  /** Locks play no part. */
  lemma {:induction false} EventsIgnoreLock(rate: Rate, jar: Jar, events: seq<JarEvent>)
    requires !rate.terms.IsScoreBased()
    ensures Core(AfterEvents(rate, jar, events)) == AfterEvents(rate, Core(jar), events)
  {
    if events != [] {
      EventsIgnoreLock(rate, jar, events[..|events| - 1]);
    }
  }

  // --- Calls as events --------------------------------------------------------

  function DepositEvents(isHere: bool, amount: TokenAmount, now: Timestamp): seq<JarEvent> {
    if isHere then [Push(now, amount), Refresh(now)] else []
  }

  function AirdropEvents(a: AccountId, isHere: bool, amount: TokenAmount, receivers: seq<AccountId>, now: Timestamp): seq<JarEvent> {
    if receivers == [] then [] else
      var n := |receivers| - 1;
      AirdropEvents(a, isHere, amount, receivers[..n], now) + DepositEvents(isHere && receivers[n] == a, amount, now)
  }

  function UpdateEvents(update: Update, now: Timestamp): seq<JarEvent> {
    if update.SetFeature? then [Refresh(now)] else []
  }

  function BatchEvents(batch: seq<(AccountId, Update)>, a: AccountId, now: Timestamp): seq<JarEvent> {
    if batch == [] then [] else
      var n := |batch| - 1;
      BatchEvents(batch[..n], a, now) + if batch[n].0 == a then UpdateEvents(batch[n].1, now) else []
  }

  ghost function RestakeEvents(w: World, source: Source, ticket: Ticket, target: Option<TokenAmount>, a: AccountId, p: ProductId): seq<JarEvent>
    requires Inv(w) && a in w.contract.accounts
    requires Parts(w.contract.accounts[a], w.contract.products, source, w.now).Ok?
  {
    var total := TotalBalance(Parts(w.contract.accounts[a], w.contract.products, source, w.now).value);
    if ticket.productId == p && target.GetOr(total) == total then [Push(w.now, total)] else []
  }

  /** What a call or callback does to a claimed jar. */
  ghost function EventsBy(env: Env, w: World, action: Action, a: AccountId, p: ProductId): seq<JarEvent>
    requires Inv(w)
  {
    if Act(env, w, action).Err? then [] else
      match action
      case DoStake(b, ticket, _, amount) => DepositEvents(b == a && ticket.productId == p, amount, w.now)
      case DoAirdrop(ticket, _, amount, receivers, _, _) =>
        AirdropEvents(a, ticket.productId == p, amount / |receivers|, receivers, w.now)
      case DoWithdrawAll(b, _) => if b == a then [Refresh(w.now)] else []
      case DoRestake(b, source, ticket, _, target) => if b == a then RestakeEvents(w, source, ticket, target, a, p) else []
      case DoSetFeature(b, feature, isEnabled) => if b == a then [Refresh(w.now)] else []
      case DoUpdateAll(batch) => BatchEvents(batch, a, w.now)
      case Resolve(id, isSuccess) =>
        var promise := w.pending[id];
        if isSuccess && promise.AfterRemainder? && promise.account == a && promise.into == p then [Push(w.now, promise.restaked)] else []
      case _ => []
  }

  /** The jar moved by these events, and the setting of the rate stayed. */
  predicate Moves(before: Account, after: Account, p: ProductId, terms: Terms, events: seq<JarEvent>)
    requires !terms.IsScoreBased()
  {
    && after.features.increasedApy == before.features.increasedApy
    && Core(JarOf(after, p)) == Core(AfterEvents(PlainRate(terms, before.features.increasedApy), JarOf(before, p), events))
  }

  lemma MovesTwice(before: Account, middle: Account, after: Account, p: ProductId, terms: Terms, first: seq<JarEvent>, second: seq<JarEvent>)
    requires !terms.IsScoreBased()
    requires Moves(before, middle, p, terms, first) && Moves(middle, after, p, terms, second)
    ensures Moves(before, after, p, terms, first + second)
  {
    var rate := PlainRate(terms, before.features.increasedApy);
    EventsAppend(rate, JarOf(before, p), first, second);
    EventsIgnoreLock(rate, JarOf(middle, p), second);
    EventsIgnoreLock(rate, AfterEvents(rate, JarOf(before, p), first), second);
  }

  lemma SameMoves(before: Account, after: Account, p: ProductId, terms: Terms)
    requires !terms.IsScoreBased() && Same(before, after, p)
    ensures Moves(before, after, p, terms, [])
  {
  }

  lemma FreshMoves(before: Account, after: Account, p: ProductId, terms: Terms, now: Timestamp)
    requires !terms.IsScoreBased() && p in before.jars && Fresh(before, after, p, terms, now)
    ensures Moves(before, after, p, terms, [Refresh(now)])
  {
    assert [Refresh(now)][..0] == [];
  }

  lemma ToppedMoves(before: Account, after: Account, p: ProductId, terms: Terms, amount: TokenAmount, now: Timestamp)
    requires !terms.IsScoreBased() && Topped(before, after, p, terms, amount, now)
    ensures Moves(before, after, p, terms, [Push(now, amount), Refresh(now)])
  {
    var rate, events := PlainRate(terms, before.features.increasedApy), [Push(now, amount), Refresh(now)];
    assert events[..1] == [Push(now, amount)] && events[..1][..0] == [];
    assert AfterEvents(rate, JarOf(before, p), events[..1]) == WithDeposit(JarOf(before, p), Deposit(now, amount));
  }

  lemma PushedMoves(before: Account, after: Account, p: ProductId, terms: Terms, amount: TokenAmount, now: Timestamp)
    requires !terms.IsScoreBased()
    requires after.features.increasedApy == before.features.increasedApy
    requires Core(JarOf(after, p)) == Core(WithDeposit(JarOf(before, p), Deposit(now, amount)))
    ensures Moves(before, after, p, terms, [Push(now, amount)])
  {
    assert [Push(now, amount)][..0] == [];
  }

  // --- Every call acts by its events ------------------------------------------

  lemma StakeMoves(env: Env, c: State, b: AccountId, ticket: Ticket, signature: Option<string>, amount: TokenAmount, now: Timestamp,
                   a: AccountId, p: ProductId)
    requires KnownState(c) && a in c.accounts && p in c.products && !c.products[p].terms.IsScoreBased()
    requires Stake(env, c, b, ticket, signature, amount, now).Ok?
    ensures var c' := Stake(env, c, b, ticket, signature, amount, now).value;
            && a in c'.accounts
            && Moves(c.accounts[a], c'.accounts[a], p, c.products[p].terms, DepositEvents(b == a && ticket.productId == p, amount, now))
  {
    var account, terms := c.accounts[a], c.products[p].terms;
    if b == a {
      var after := StakeAccepted(account, c.products, ticket, amount, now).value;
      StakeTops(account, c.products, ticket, amount, now, p);
      DepositMoves(account, after, p, terms, ticket.productId == p, amount, now);
    } else {
      SameMoves(account, account, p, terms);
    }
  }

  lemma DepositMoves(before: Account, after: Account, p: ProductId, terms: Terms, isHere: bool, amount: TokenAmount, now: Timestamp)
    requires !terms.IsScoreBased()
    requires if isHere then Topped(before, after, p, terms, amount, now) else Same(before, after, p)
    ensures Moves(before, after, p, terms, DepositEvents(isHere, amount, now))
  {
    if isHere {
      ToppedMoves(before, after, p, terms, amount, now);
    } else {
      SameMoves(before, after, p, terms);
    }
  }

  lemma {:induction false} AirdropMoves(c: State, ticket: Ticket, amount: TokenAmount, receivers: seq<AccountId>, booster: Score,
                                        earnedAt: Option<Timestamp>, now: Timestamp, a: AccountId, p: ProductId)
    requires KnownState(c) && a in c.accounts && p in c.products && !c.products[p].terms.IsScoreBased()
    requires ticket.productId in c.products
    requires AirdropAll(c, ticket, amount, receivers, booster, earnedAt, now).Ok?
    ensures var c' := AirdropAll(c, ticket, amount, receivers, booster, earnedAt, now).value;
            && a in c'.accounts
            && Moves(c.accounts[a], c'.accounts[a], p, c.products[p].terms, AirdropEvents(a, ticket.productId == p, amount, receivers, now))
  {
    var terms := c.products[p].terms;
    if receivers == [] {
      SameMoves(c.accounts[a], c.accounts[a], p, terms);
    } else {
      var n := |receivers| - 1;
      AirdropMoves(c, ticket, amount, receivers[..n], booster, earnedAt, now, a, p);
      var middle := AirdropAll(c, ticket, amount, receivers[..n], booster, earnedAt, now).value;
      var isHere, first := ticket.productId == p && receivers[n] == a, AirdropEvents(a, ticket.productId == p, amount, receivers[..n], now);
      if receivers[n] == a {
        var after := Airdropped(middle.accounts[a], c.products, ticket, amount, booster, earnedAt, now).value;
        AirdropTops(middle.accounts[a], c.products, ticket, amount, booster, earnedAt, now, p);
        DepositMoves(middle.accounts[a], after, p, terms, isHere, amount, now);
        MovesTwice(c.accounts[a], middle.accounts[a], after, p, terms, first, DepositEvents(isHere, amount, now));
      } else {
        assert first + [] == first;
      }
    }
  }

  lemma UpdateMoves(c: State, b: AccountId, update: Update, now: Timestamp, a: AccountId, p: ProductId)
    requires KnownState(c) && a in c.accounts && p in c.accounts[a].jars && !c.products[p].terms.IsScoreBased()
    requires UpdateAccount(c, b, update, now).Ok?
    requires b == a ==> TogglesOf(update, now) == []
    ensures var c' := UpdateAccount(c, b, update, now).value;
            && a in c'.accounts && p in c'.accounts[a].jars
            && Moves(c.accounts[a], c'.accounts[a], p, c.products[p].terms, if b == a then UpdateEvents(update, now) else [])
  {
    var account, terms := c.accounts[a], c.products[p].terms;
    if b == a {
      var after := Updated(account, c.products, update, now).value;
      UpdatedKeepsHoldings(account, c.products, update, now);
      UpdateIsFresh(account, c.products, update, now, p);
      match update
      case SetFeature(_, _) => FreshMoves(account, after.(features := account.features), p, terms, now);
      case RecordScore(_) => SameMoves(account, after, p, terms);
      case ApplyBooster(_, _) => SameMoves(account, after, p, terms);
    } else {
      SameMoves(account, account, p, terms);
    }
  }

  lemma {:induction false} BatchMoves(c: State, batch: seq<(AccountId, Update)>, now: Timestamp, a: AccountId, p: ProductId)
    requires KnownState(c) && a in c.accounts && p in c.accounts[a].jars && !c.products[p].terms.IsScoreBased()
    requires UpdateAll(c, batch, now).Ok? && TogglesIn(batch, a, now) == []
    ensures var c' := UpdateAll(c, batch, now).value;
            && a in c'.accounts && p in c'.accounts[a].jars
            && Moves(c.accounts[a], c'.accounts[a], p, c.products[p].terms, BatchEvents(batch, a, now))
  {
    var terms := c.products[p].terms;
    if batch == [] {
      SameMoves(c.accounts[a], c.accounts[a], p, terms);
    } else {
      var n := |batch| - 1;
      BatchMoves(c, batch[..n], now, a, p);
      var middle := UpdateAll(c, batch[..n], now).value;
      UpdateMoves(middle, batch[n].0, batch[n].1, now, a, p);
      MovesTwice(c.accounts[a], middle.accounts[a], UpdateAll(c, batch, now).value.accounts[a], p, terms, BatchEvents(batch[..n], a, now),
                 if batch[n].0 == a then UpdateEvents(batch[n].1, now) else []);
    }
  }

  lemma WithdrawMoves(c: State, b: AccountId, q: ProductId, now: Timestamp, a: AccountId, p: ProductId)
    requires KnownState(c) && IsLocked(c, a, p) && !c.products[p].terms.IsScoreBased()
    requires CallWithdraw(c, b, q, now).Ok?
    ensures var c' := CallWithdraw(c, b, q, now).value.state;
            a in c'.accounts && Moves(c.accounts[a], c'.accounts[a], p, c.products[p].terms, [])
  {
    var account := c.accounts[a];
    if b == a {
      WithdrawIsFresh(a, account, c.products, q, now, p);
      SameMoves(account, Withdraw(a, account, c.products, q, now).value.account, p, c.products[p].terms);
    } else {
      SameMoves(account, account, p, c.products[p].terms);
    }
  }

  lemma WithdrawAllMoves(c: State, b: AccountId, ps: Option<set<ProductId>>, now: Timestamp, a: AccountId, p: ProductId)
    requires KnownState(c) && IsLocked(c, a, p) && !c.products[p].terms.IsScoreBased()
    requires CallWithdrawAll(c, b, ps, now).Ok?
    ensures var c' := CallWithdrawAll(c, b, ps, now).value.state;
            a in c'.accounts && Moves(c.accounts[a], c'.accounts[a], p, c.products[p].terms, if b == a then [Refresh(now)] else [])
  {
    var account := c.accounts[a];
    if b == a {
      WithdrawAllIsFresh(a, account, c.products, ps, now, p);
      FreshMoves(account, WithdrawAll(a, account, c.products, ps, now).value.account, p, c.products[p].terms, now);
    } else {
      SameMoves(account, account, p, c.products[p].terms);
    }
  }

  lemma ClaimMoves(c: State, b: AccountId, now: Timestamp, a: AccountId, p: ProductId)
    requires KnownState(c) && IsLocked(c, a, p) && !c.products[p].terms.IsScoreBased()
    requires CallClaim(c, b, now).Ok?
    ensures var c' := CallClaim(c, b, now).value.state;
            a in c'.accounts && Moves(c.accounts[a], c'.accounts[a], p, c.products[p].terms, [])
  {
    var account := c.accounts[a];
    if b == a {
      ClaimTotalOpens(a, account, c.products, now);
      ClaimIsInClaim(a, account, c.products, now, p);
      SameMoves(account, ClaimTotal(a, account, c.products, now).value.account, p, c.products[p].terms);
    } else {
      SameMoves(account, account, p, c.products[p].terms);
    }
  }

  /** A restake takes nothing out of a locked jar; into it, it puts a deposit. */
  lemma OwnRestakeMoves(a: AccountId, account: Account, products: map<ProductId, Product>, parts: map<ProductId, Part>, ticket: Ticket,
                        amount: TokenAmount, total: TokenAmount, fee: TokenAmount, isSigned: bool, now: Timestamp, p: ProductId)
    requires Known(account, products) && ticket.productId in products
    requires p in account.jars && p !in parts && !products[p].terms.IsScoreBased()
    requires RestakeParts(a, account, products, parts, ticket, amount, total, fee, isSigned, now).Ok?
    ensures var after := RestakeParts(a, account, products, parts, ticket, amount, total, fee, isSigned, now).value.account;
            Moves(account, after, p, products[p].terms, if ticket.productId == p && amount == total then [Push(now, total)] else [])
  {
    var after := RestakeParts(a, account, products, parts, ticket, amount, total, fee, isSigned, now).value.account;
    RefreshJarsOk(a, account, products, parts, ticket, amount, total, fee, isSigned, now);
    RefreshJarsIsFresh(account, products, parts.Keys, now, p);
    if amount == total {
      RestakePartsMove(a, account, products, parts, ticket, amount, total, fee, isSigned, now);
      MoveIsMovedJar(account, products, parts, products[ticket.productId], ticket.timezone, ticket.productId, amount, now, p);
      if ticket.productId == p {
        PushedMoves(account, after, p, products[p].terms, total, now);
      } else {
        SameMoves(account, after, p, products[p].terms);
      }
    } else {
      RestakePartsLock(a, account, products, parts, ticket, amount, total, fee, isSigned, now);
      SameMoves(account, after, p, products[p].terms);
    }
  }

  lemma RefreshJarsOk(a: AccountId, account: Account, products: map<ProductId, Product>, parts: map<ProductId, Part>, ticket: Ticket,
                      amount: TokenAmount, total: TokenAmount, fee: TokenAmount, isSigned: bool, now: Timestamp)
    requires Known(account, products) && ticket.productId in products
    requires RestakeParts(a, account, products, parts, ticket, amount, total, fee, isSigned, now).Ok?
    ensures RefreshJars(account, products, parts.Keys, now).Ok?
  {
  }

  lemma RestakeMoves(env: Env, w: World, b: AccountId, source: Source, ticket: Ticket, signature: Option<string>, target: Option<TokenAmount>,
                     a: AccountId, p: ProductId)
    requires Inv(w) && IsLocked(w.contract, a, p) && !w.contract.products[p].terms.IsScoreBased()
    requires CallRestake(env, w.contract, b, source, ticket, signature, target, w.now).Ok?
    ensures b == a ==> Parts(w.contract.accounts[a], w.contract.products, source, w.now).Ok?
    ensures var c' := CallRestake(env, w.contract, b, source, ticket, signature, target, w.now).value.state;
            && a in c'.accounts
            && Moves(w.contract.accounts[a], c'.accounts[a], p, w.contract.products[p].terms,
                     if b == a then RestakeEvents(w, source, ticket, target, a, p) else [])
  {
    var account, products := w.contract.accounts[a], w.contract.products;
    if b == a {
      var parts, total, amount, fee, isSigned := RestakeIs(env, a, account, products, source, ticket, signature, target, w.now);
      PartsAreFrozen(account, products, source, w.now);
      OwnRestakeMoves(a, account, products, parts, ticket, amount, total, fee, isSigned, w.now, p);
    } else {
      SameMoves(account, account, p, products[p].terms);
    }
  }

  lemma ResolvedMoves(w: World, id: nat, isSuccess: bool, a: AccountId, p: ProductId)
    requires Inv(w) && id in w.pending && IsLocked(w.contract, a, p) && !w.contract.products[p].terms.IsScoreBased()
    requires !Owns(w.pending[id], a, p)
    requires Resolved(w, id, isSuccess).Ok?
    ensures var c', promise := Resolved(w, id, isSuccess).value.contract, w.pending[id];
            && a in c'.accounts
            && Moves(w.contract.accounts[a], c'.accounts[a], p, w.contract.products[p].terms,
                     if isSuccess && promise.AfterRemainder? && promise.account == a && promise.into == p then [Push(w.now, promise.restaked)] else [])
  {
    var account, promise, terms := w.contract.accounts[a], w.pending[id], w.contract.products[p].terms;
    if promise.AfterFee? || promise.account != a {
      SameMoves(account, account, p, terms);
    } else {
      FinishIsFinish(w.contract, promise, isSuccess, p, w.now);
      var after := Finish(w.contract, promise, isSuccess, w.now).value.accounts[a];
      if isSuccess && promise.AfterRemainder? && promise.into == p {
        PushedMoves(account, after, p, terms, promise.restaked, w.now);
      } else {
        SameMoves(account, after, p, terms);
      }
    }
  }

  // --- Every run acts by its events -------------------------------------------

  /** A pending claim owns the jar. */
  predicate IsClaimed(w: World, id: nat, a: AccountId, p: ProductId) {
    id in w.pending && w.pending[id].AfterClaim? && Owns(w.pending[id], a, p)
  }

  lemma ClaimedIsLocked(w: World, id: nat, a: AccountId, p: ProductId)
    requires Inv(w) && IsClaimed(w, id, a, p)
    ensures IsLocked(w.contract, a, p) && p in w.contract.products
    ensures forall other :: other in w.pending && Owns(w.pending[other], a, p) ==> other == id
  {
    assert Grounded(w.contract, w.pending[id]);
  }

  predicate TogglesRate(action: Action, a: AccountId) {
    match action
    case DoSetFeature(b, feature, _) => b == a && feature.IncreasedApy?
    case DoUpdateAll(batch) => TogglesIn(batch, a, 0) != []
    case _ => false
  }

  lemma {:induction false} NoTogglesAtAnyTime(batch: seq<(AccountId, Update)>, a: AccountId, now: Timestamp)
    ensures TogglesIn(batch, a, now) == [] <==> TogglesIn(batch, a, 0) == []
  {
    if batch != [] {
      NoTogglesAtAnyTime(batch[..|batch| - 1], a, now);
    }
  }

  lemma SplitMoves(env: Env, c: State, ticket: Ticket, signature: Option<string>, total: TokenAmount, receivers: seq<AccountId>,
                   booster: Score, earnedAt: Option<Timestamp>, now: Timestamp, a: AccountId, p: ProductId)
    requires KnownState(c) && a in c.accounts && p in c.products && !c.products[p].terms.IsScoreBased()
    requires Airdrop(env, c, ticket, signature, total, receivers, booster, earnedAt, now).Ok?
    ensures receivers != []
    ensures var c' := Airdrop(env, c, ticket, signature, total, receivers, booster, earnedAt, now).value;
            && a in c'.accounts
            && Moves(c.accounts[a], c'.accounts[a], p, c.products[p].terms,
                     AirdropEvents(a, ticket.productId == p, total / |receivers|, receivers, now))
  {
    AirdropMoves(c, ticket, total / |receivers|, receivers, booster, earnedAt, now, a, p);
  }

  lemma IncomingMoves(env: Env, w: World, action: Action, a: AccountId, p: ProductId)
    requires Inv(w) && IsLocked(w.contract, a, p) && !w.contract.products[p].terms.IsScoreBased()
    requires BringsTokens(action) && Act(env, w, action).Ok?
    ensures var c' := Act(env, w, action).value.contract;
            && a in c'.accounts
            && Moves(w.contract.accounts[a], c'.accounts[a], p, w.contract.products[p].terms, EventsBy(env, w, action, a, p))
  {
    match action
    case DoStake(b, ticket, signature, amount) => StakeMoves(env, w.contract, b, ticket, signature, amount, w.now, a, p);
    case DoAirdrop(ticket, signature, amount, receivers, booster, earnedAt) =>
      SplitMoves(env, w.contract, ticket, signature, amount, receivers, booster, earnedAt, w.now, a, p);
    case DoMigrate(_, _, _) => SameMoves(w.contract.accounts[a], w.contract.accounts[a], p, w.contract.products[p].terms);
  }

  lemma OwnersCallMoves(env: Env, w: World, action: Action, a: AccountId, p: ProductId)
    requires Inv(w) && IsLocked(w.contract, a, p) && !w.contract.products[p].terms.IsScoreBased()
    requires IsOwnersCall(action) && Act(env, w, action).Ok?
    ensures var c' := Act(env, w, action).value.contract;
            && a in c'.accounts
            && Moves(w.contract.accounts[a], c'.accounts[a], p, w.contract.products[p].terms, EventsBy(env, w, action, a, p))
  {
    match action
    case DoWithdraw(b, q) => WithdrawMoves(w.contract, b, q, w.now, a, p);
    case DoWithdrawAll(b, ps) => WithdrawAllMoves(w.contract, b, ps, w.now, a, p);
    case DoRestake(b, source, ticket, signature, target) => RestakeMoves(env, w, b, source, ticket, signature, target, a, p);
    case DoClaim(b) => ClaimMoves(w.contract, b, w.now, a, p);
  }

  lemma SettingMoves(env: Env, w: World, action: Action, a: AccountId, p: ProductId)
    requires Inv(w) && IsLocked(w.contract, a, p) && !w.contract.products[p].terms.IsScoreBased()
    requires action.DoSetFeature? || action.DoUpdateAll?
    requires Act(env, w, action).Ok? && !TogglesRate(action, a)
    ensures var c' := Act(env, w, action).value.contract;
            && a in c'.accounts
            && Moves(w.contract.accounts[a], c'.accounts[a], p, w.contract.products[p].terms, EventsBy(env, w, action, a, p))
  {
    match action
    case DoSetFeature(b, feature, isEnabled) =>
      if b in w.contract.accounts {
        UpdateMoves(w.contract, b, SetFeature(feature, isEnabled), w.now, a, p);
      } else {
        SameMoves(w.contract.accounts[a], w.contract.accounts[a], p, w.contract.products[p].terms);
      }
    case DoUpdateAll(batch) =>
      NoTogglesAtAnyTime(batch, a, w.now);
      BatchMoves(w.contract, batch, w.now, a, p);
  }

  /** Every call and callback but its own acts on a claimed jar as a list of events. */
  lemma ActMoves(env: Env, w: World, action: Action, id: nat, a: AccountId, p: ProductId)
    requires Inv(w) && IsClaimed(w, id, a, p) && p in w.contract.products && !w.contract.products[p].terms.IsScoreBased()
    requires Act(env, w, action).Ok? && !TogglesRate(action, a)
    requires !(action.Resolve? && action.id == id)
    ensures a in w.contract.accounts
    ensures var c' := Act(env, w, action).value.contract;
            && a in c'.accounts
            && Moves(w.contract.accounts[a], c'.accounts[a], p, w.contract.products[p].terms, EventsBy(env, w, action, a, p))
  {
    ClaimedIsLocked(w, id, a, p);
    if BringsTokens(action) {
      IncomingMoves(env, w, action, a, p);
    } else if IsOwnersCall(action) {
      OwnersCallMoves(env, w, action, a, p);
    } else if action.DoSetFeature? || action.DoUpdateAll? {
      SettingMoves(env, w, action, a, p);
    } else if action.Resolve? {
      ResolvedMoves(w, action.id, action.isSuccess, a, p);
    } else {
      OperatorMoves(env, w, action, a, p);
    }
  }

  lemma OperatorMoves(env: Env, w: World, action: Action, a: AccountId, p: ProductId)
    requires Inv(w) && IsLocked(w.contract, a, p) && !w.contract.products[p].terms.IsScoreBased()
    requires Act(env, w, action).Ok?
    requires action.DoRegister? || action.DoSetEnabled? || action.DoSetPublicKey? || action.DoWithdrawFee? || action.DoSetTimezone?
    ensures var c' := Act(env, w, action).value.contract;
            && a in c'.accounts
            && Moves(w.contract.accounts[a], c'.accounts[a], p, w.contract.products[p].terms, EventsBy(env, w, action, a, p))
  {
    SameMoves(w.contract.accounts[a], Act(env, w, action).value.contract.accounts[a], p, w.contract.products[p].terms);
  }

  /** Only its own callback ends a claim. */
  lemma StillClaimed(env: Env, w: World, action: Action, id: nat)
    requires Inv(w) && id in w.pending && !(action.Resolve? && action.id == id)
    requires Act(env, w, action).Ok?
    ensures id in Act(env, w, action).value.pending && Act(env, w, action).value.pending[id] == w.pending[id]
  {
    assert id < w.nextId;
  }

  ghost function EventsOf(env: Env, w: World, entries: seq<Entry>, a: AccountId, p: ProductId): seq<JarEvent>
    requires Inv(w)
  {
    if entries == [] then [] else
      var n := |entries| - 1;
      EventsOf(env, w, entries[..n], a, p) + EventsIn(env, Run(env, w, entries[..n]), entries[n], a, p)
  }

  ghost function EventsIn(env: Env, w: World, entry: Entry, a: AccountId, p: ProductId): seq<JarEvent>
    requires Inv(w)
  {
    if !IsAdmissible(w, entry.at, entry.action) then [] else
      LaterKeepsInv(w, entry.at);
      EventsBy(env, w.(now := entry.at), entry.action, a, p)
  }

  /** No entry is the callback of this claim, and none changes the rate. */
  predicate LeavesClaim(entries: seq<Entry>, id: nat, a: AccountId) {
    forall i :: 0 <= i < |entries| ==> !(entries[i].action.Resolve? && entries[i].action.id == id) && !TogglesRate(entries[i].action, a)
  }

  ghost predicate MovedTo(w: World, w': World, id: nat, a: AccountId, p: ProductId, events: seq<JarEvent>)
    requires p in w.contract.products && !w.contract.products[p].terms.IsScoreBased()
  {
    && IsClaimed(w', id, a, p) && id in w.pending && w'.pending[id] == w.pending[id]
    && SameTerms(w.contract.products, w'.contract.products)
    && a in w.contract.accounts && a in w'.contract.accounts
    && Moves(w.contract.accounts[a], w'.contract.accounts[a], p, w.contract.products[p].terms, events)
  }

  lemma StepMoves(env: Env, w: World, entry: Entry, id: nat, a: AccountId, p: ProductId)
    requires Inv(w) && IsClaimed(w, id, a, p) && p in w.contract.products && !w.contract.products[p].terms.IsScoreBased()
    requires LeavesClaim([entry], id, a)
    ensures MovedTo(w, Next(env, w, entry), id, a, p, EventsIn(env, w, entry, a, p))
  {
    assert [entry][0] == entry;
    ClaimedIsLocked(w, id, a, p);
    StepKeepsTerms(env, w, entry);
    var account := w.contract.accounts[a];
    if IsAdmissible(w, entry.at, entry.action) && Act(env, w.(now := entry.at), entry.action).Ok? {
      StepIsAct(env, w, entry);
      ActMoves(env, w.(now := entry.at), entry.action, id, a, p);
      StillClaimed(env, w.(now := entry.at), entry.action, id);
    } else {
      SameMoves(account, account, p, w.contract.products[p].terms);
      if IsAdmissible(w, entry.at, entry.action) {
        StepIsAct(env, w, entry);
      }
    }
  }

  lemma {:induction false} RunMoves(env: Env, w: World, entries: seq<Entry>, id: nat, a: AccountId, p: ProductId)
    requires Inv(w) && IsClaimed(w, id, a, p) && p in w.contract.products && !w.contract.products[p].terms.IsScoreBased()
    requires LeavesClaim(entries, id, a)
    ensures MovedTo(w, Run(env, w, entries), id, a, p, EventsOf(env, w, entries, a, p))
  {
    ClaimedIsLocked(w, id, a, p);
    if entries == [] {
      SameMoves(w.contract.accounts[a], w.contract.accounts[a], p, w.contract.products[p].terms);
    } else {
      var n := |entries| - 1;
      var before := Run(env, w, entries[..n]);
      RunMoves(env, w, entries[..n], id, a, p);
      StepMoves(env, before, entries[n], id, a, p);
      MovesTwice(w.contract.accounts[a], before.contract.accounts[a], Next(env, before, entries[n]).contract.accounts[a], p,
                 w.contract.products[p].terms, EventsOf(env, w, entries[..n], a, p), EventsIn(env, before, entries[n], a, p));
    }
  }

  // --- The times of the events ------------------------------------------------

  predicate AllAt(events: seq<JarEvent>, now: Timestamp) {
    forall i :: 0 <= i < |events| ==> events[i].at == now
  }

  lemma {:induction false} AirdropEventsNow(a: AccountId, isHere: bool, amount: TokenAmount, receivers: seq<AccountId>, now: Timestamp)
    ensures AllAt(AirdropEvents(a, isHere, amount, receivers, now), now)
  {
    if receivers != [] {
      AirdropEventsNow(a, isHere, amount, receivers[..|receivers| - 1], now);
    }
  }

  lemma {:induction false} BatchEventsNow(batch: seq<(AccountId, Update)>, a: AccountId, now: Timestamp)
    ensures AllAt(BatchEvents(batch, a, now), now)
  {
    if batch != [] {
      BatchEventsNow(batch[..|batch| - 1], a, now);
    }
  }

  lemma EventsNow(env: Env, w: World, action: Action, a: AccountId, p: ProductId)
    requires Inv(w)
    ensures AllAt(EventsBy(env, w, action, a, p), w.now)
  {
    match action
    case DoAirdrop(ticket, _, amount, receivers, _, _) =>
      if receivers != [] {
        AirdropEventsNow(a, ticket.productId == p, amount / |receivers|, receivers, w.now);
      }
    case DoUpdateAll(batch) => BatchEventsNow(batch, a, w.now);
    case _ =>
  }

  lemma {:induction false} RunEventsInOrder(env: Env, w: World, entries: seq<Entry>, a: AccountId, p: ProductId)
    requires Inv(w)
    ensures w.now <= Run(env, w, entries).now
    ensures InOrderSince(EventsOf(env, w, entries, a, p), w.now)
    ensures LastMoment(EventsOf(env, w, entries, a, p), w.now) <= Run(env, w, entries).now
  {
    if entries != [] {
      var n := |entries| - 1;
      var before := Run(env, w, entries[..n]);
      RunEventsInOrder(env, w, entries[..n], a, p);
      StepKeepsTerms(env, before, entries[n]);
      if IsAdmissible(before, entries[n].at, entries[n].action) {
        LaterKeepsInv(before, entries[n].at);
        EventsNow(env, before.(now := entries[n].at), entries[n].action, a, p);
      }
      LaterEventsInOrder(EventsOf(env, w, entries[..n], a, p), EventsIn(env, before, entries[n], a, p), w.now, before.now, entries[n].at);
    }
  }

  lemma LaterEventsInOrder(events: seq<JarEvent>, more: seq<JarEvent>, since: Timestamp, now: Timestamp, at: Timestamp)
    requires InOrderSince(events, since) && LastMoment(events, since) <= now && since <= now
    requires more == [] || (now <= at && AllAt(more, at))
    ensures InOrderSince(events + more, since)
    ensures LastMoment(events + more, since) <= if more == [] then now else at
  {
    if more == [] {
      assert events + more == events;
    }
  }

  // --- The claim that fails ---------------------------------------------------

  /** The claim was accepted and is for this jar. */
  ghost predicate TakesClaim(env: Env, w: World, a: AccountId, p: ProductId)
    requires Inv(w)
  {
    Act(env, w, DoClaim(a)).Ok? && IsClaimed(Act(env, w, DoClaim(a)).value, w.nextId, a, p)
  }

  ghost function Claiming(env: Env, w: World, a: AccountId, p: ProductId): (claimed: World)
    requires Inv(w) && TakesClaim(env, w, a, p)
    ensures Inv(claimed) && IsClaimed(claimed, w.nextId, a, p)
  {
    ClaimKeepsInv(w, a);
    Act(env, w, DoClaim(a)).value
  }

  lemma ClaimTakesTheJar(env: Env, w: World, a: AccountId, p: ProductId)
    requires Inv(w) && TakesClaim(env, w, a, p)
    requires p in w.contract.products ==> !w.contract.products[p].terms.IsScoreBased()
    ensures var claimed := Claiming(env, w, a, p);
            && claimed.now == w.now && claimed.contract.products == w.contract.products
            && a in w.contract.accounts && p in w.contract.accounts[a].jars && p in w.contract.products
            && a in claimed.contract.accounts
            && var jar := w.contract.accounts[a].jars[p];
               && !jar.isLocked && IsPast(jar, w.now)
               && claimed.pending[w.nextId].rollback[p] == Rollback(jar)
               && JarOf(claimed.contract.accounts[a], p).deposits == jar.deposits
               && claimed.contract.accounts[a].features == w.contract.accounts[a].features
  {
    var account, products := w.contract.accounts[a], w.contract.products;
    ClaimTotalOpens(a, account, products, w.now);
    assert Ordered(account, w.now) && InOrder(account.jars[p].deposits, w.now);
    ClaimIsInClaim(a, account, products, w.now, p);
  }

  lemma FailureAppliesSnapshot(env: Env, w: World, id: nat, a: AccountId, p: ProductId, at: Timestamp)
    requires Inv(w) && IsClaimed(w, id, a, p) && w.now <= at
    ensures a in w.contract.accounts
    ensures var failed := Next(env, w, Entry(at, Resolve(id, false)));
            && a in failed.contract.accounts && p in failed.contract.accounts[a].jars
            && failed.contract.accounts[a].jars[p] == Applied(JarOf(w.contract.accounts[a], p), w.pending[id].rollback[p])
            && failed.contract.accounts[a].features == w.contract.accounts[a].features
            && failed.contract.accounts[a].score == w.pending[id].score && failed.contract.accounts[a].timezone == w.pending[id].timezone
  {
    ClaimedIsLocked(w, id, a, p);
    LaterKeepsInv(w, at);
    CallbackSucceeds(w.(now := at), id, false);
    StepIsAct(env, w, Entry(at, Resolve(id, false)));
    FinishIsFinish(w.contract, w.pending[id], false, p, at);
  }

  lemma RestoredIsBare(env: Env, w: World, entries: seq<Entry>, a: AccountId, p: ProductId, at: Timestamp)
    requires Inv(w) && TakesClaim(env, w, a, p)
    requires p in w.contract.products ==> !w.contract.products[p].terms.IsScoreBased()
    requires LeavesClaim(entries, w.nextId, a)
    ensures a in w.contract.accounts && p in w.contract.accounts[a].jars && p in w.contract.products
    ensures var claimed := Claiming(env, w, a, p);
            var before, events := Run(env, claimed, entries), EventsOf(env, claimed, entries, a, p);
            && MovedTo(claimed, before, w.nextId, a, p, events)
            && (before.now <= at ==>
                  var failed := Next(env, before, Entry(at, Resolve(w.nextId, false)));
                  && a in failed.contract.accounts && p in failed.contract.accounts[a].jars
                  && failed.contract.accounts[a].jars[p] == WithMade(w.contract.accounts[a].jars[p], events)
                  && failed.contract.accounts[a].features.increasedApy == w.contract.accounts[a].features.increasedApy)
  {
    ClaimTakesTheJar(env, w, a, p);
    var claimed, jar := Claiming(env, w, a, p), w.contract.accounts[a].jars[p];
    var before, events := Run(env, claimed, entries), EventsOf(env, claimed, entries, a, p);
    RunMoves(env, claimed, entries, w.nextId, a, p);
    if before.now <= at {
      FailureAppliesSnapshot(env, before, w.nextId, a, p, at);
      EventsMakeDeposits(PlainRate(w.contract.products[p].terms, w.contract.accounts[a].features.increasedApy),
                         JarOf(claimed.contract.accounts[a], p), events);
      assert JarOf(before.contract.accounts[a], p).deposits == jar.deposits + Made(events);
    }
  }

  /** A failed claim restores the jar. After any run of calls and callbacks by anyone,
      with no change of the account's rate, the failing callback leaves the claimed
      jar exactly as it was before the claim, plus the deposits made meanwhile; and
      at every later moment its interest and remainder are those of the jar that was
      never claimed and saw the same deposits and refreshes. */
  lemma FailedClaimRestoresTheJar(env: Env, w: World, a: AccountId, p: ProductId, entries: seq<Entry>, at: Timestamp, later: Timestamp)
    requires Inv(w) && TakesClaim(env, w, a, p)
    requires p in w.contract.products ==> !w.contract.products[p].terms.IsScoreBased()
    requires LeavesClaim(entries, w.nextId, a)
    ensures a in w.contract.accounts && p in w.contract.accounts[a].jars && p in w.contract.products
    ensures var claimed := Claiming(env, w, a, p);
            var before, events := Run(env, claimed, entries), EventsOf(env, claimed, entries, a, p);
            && MovedTo(claimed, before, w.nextId, a, p, events)
            && (before.now <= at <= later ==>
                  var failed := Next(env, before, Entry(at, Resolve(w.nextId, false)));
                  && a in failed.contract.accounts && p in failed.contract.accounts[a].jars
                  && var terms, jar, jar' := w.contract.products[p].terms, w.contract.accounts[a].jars[p], failed.contract.accounts[a].jars[p];
                     var unclaimed := AfterEvents(RateFor(terms, w.contract.accounts[a], w.now), jar, events);
                     && jar' == WithMade(jar, events)
                     && jar'.deposits == unclaimed.deposits
                     && (LivesFit(RateFor(terms, w.contract.accounts[a], later), jar'.deposits, later) ==>
                           JarInterest(RateFor(terms, failed.contract.accounts[a], later), jar', later)
                           == JarInterest(RateFor(terms, w.contract.accounts[a], later), unclaimed, later)))
  {
    RestoredIsBare(env, w, entries, a, p, at);
    ClaimTakesTheJar(env, w, a, p);
    var claimed := Claiming(env, w, a, p);
    var before, events := Run(env, claimed, entries), EventsOf(env, claimed, entries, a, p);
    RunEventsInOrder(env, claimed, entries, a, p);
    if before.now <= at <= later {
      var failed := Next(env, before, Entry(at, Resolve(w.nextId, false)));
      SameInterestUnclaimed(w.contract.accounts[a], failed.contract.accounts[a], p, w.contract.products[p].terms, events, w.now, later);
    }
  }

  lemma SameInterestUnclaimed(account: Account, failed: Account, p: ProductId, terms: Terms, events: seq<JarEvent>, now: Timestamp, later: Timestamp)
    requires p in account.jars && p in failed.jars && !terms.IsScoreBased()
    requires failed.jars[p] == WithMade(account.jars[p], events)
    requires failed.features.increasedApy == account.features.increasedApy
    requires IsPast(account.jars[p], now) && InOrderSince(events, now) && LastMoment(events, now) <= later
    ensures var rate := RateFor(terms, account, now);
            var unclaimed := AfterEvents(rate, account.jars[p], events);
            && failed.jars[p].deposits == unclaimed.deposits
            && (LivesFit(RateFor(terms, account, later), failed.jars[p].deposits, later) ==>
                  JarInterest(RateFor(terms, failed, later), failed.jars[p], later) == JarInterest(RateFor(terms, account, later), unclaimed, later))
  {
    var rate, jar := RateFor(terms, account, now), account.jars[p];
    assert rate == RateFor(terms, account, later);
    EventsMakeDeposits(rate, jar, events);
    if LivesFit(rate, failed.jars[p].deposits, later) {
      EventsKeepPromise(rate, jar, events, now, later);
      SamePromiseSameInterest(rate, failed.jars[p], AfterEvents(rate, jar, events), later);
      PlainRateSuffices(terms, account, failed.jars[p], later);
      PlainRateSuffices(terms, failed, failed.jars[p], later);
    }
  }

  // --- What the claim and its failure leave alone -----------------------------

  /** Jars that were not claimed notice neither the claim nor its failure. */
  lemma OtherJarsSeeNothing(env: Env, w: World, a: AccountId, p: ProductId, before: World, at: Timestamp)
    requires Inv(w) && Act(env, w, DoClaim(a)).Ok?
    requires a in w.contract.accounts && p in w.contract.accounts[a].jars
    requires p in w.contract.products ==> !w.contract.products[p].terms.IsScoreBased()
    requires !IsClaimed(Act(env, w, DoClaim(a)).value, w.nextId, a, p)
    requires Inv(before) && w.nextId in before.pending && before.pending[w.nextId].AfterClaim? && before.now <= at
    requires before.pending[w.nextId].account == a && !Owns(before.pending[w.nextId], a, p)
    ensures JarOf(Act(env, w, DoClaim(a)).value.contract.accounts[a], p) == w.contract.accounts[a].jars[p]
    ensures a in before.contract.accounts
    ensures var failed := Next(env, before, Entry(at, Resolve(w.nextId, false)));
            a in failed.contract.accounts && JarOf(failed.contract.accounts[a], p) == JarOf(before.contract.accounts[a], p)
  {
    UnclaimedJarStays(a, w.contract.accounts[a], w.contract.products, w.now, p);
    assert Grounded(before.contract, before.pending[w.nextId]);
    LaterKeepsInv(before, at);
    CallbackSucceeds(before.(now := at), w.nextId, false);
    StepIsAct(env, before, Entry(at, Resolve(w.nextId, false)));
    FinishIsFinish(before.contract, before.pending[w.nextId], false, p, at);
  }

  lemma UnclaimedJarStays(a: AccountId, account: Account, products: map<ProductId, Product>, now: Timestamp, p: ProductId)
    requires Known(account, products) && p in account.jars && !products[p].terms.IsScoreBased()
    requires ClaimTotal(a, account, products, now).Ok?
    requires p !in OwnedBy(ClaimTotal(a, account, products, now).value.promise)
    ensures JarOf(ClaimTotal(a, account, products, now).value.account, p) == account.jars[p]
  {
    SettleIsSame(account, products, now, p);
  }
}
