/** Every step of the contract keeps every book balanced. */
module Tracking {
  import opened Numbers
  import opened Types
  import opened Interest
  import opened Jars
  import opened Tickets
  import opened Accounts
  import opened Promises
  import opened Withdrawals
  import opened Claims
  import opened Contracts
  import opened Protocol
  import opened Accrual
  import opened Books
  import opened Ledgers

  // --- One account ------------------------------------------------------------

  lemma SameAccountFollows(before: Account, after: Account, p: ProductId, terms: Terms, book: Book, now: Timestamp)
    requires terms.Fixed? && Same(before, after, p)
    requires Balanced(terms, Core(JarOf(before, p)), book, before.features.increasedApy, now)
    ensures Follows(terms, JarOf(before, p), book, before.features.increasedApy, JarOf(after, p), book, after.features.increasedApy, now)
  {
    SameFollows(terms, JarOf(before, p), book, before.features.increasedApy, JarOf(after, p), now);
  }

  lemma FreshAccountFollows(before: Account, after: Account, p: ProductId, terms: Terms, book: Book, now: Timestamp)
    requires terms.Fixed? && Fresh(before, after, p, terms, now)
    requires Balanced(terms, Core(JarOf(before, p)), book, before.features.increasedApy, now)
    ensures Follows(terms, JarOf(before, p), book, before.features.increasedApy,
                    JarOf(after, p), BookRefreshed(book, now), after.features.increasedApy, now)
  {
    var flag, jar := before.features.increasedApy, JarOf(before, p);
    if p in before.jars {
      var middle := PlainRefresh(terms, flag, jar, now);
      RefreshFollows(terms, jar, book, flag, now);
      SameFollows(terms, middle, BookRefreshed(book, now), flag, JarOf(after, p), now);
      FollowsTwice(terms, jar, book, flag, middle, BookRefreshed(book, now), flag, JarOf(after, p), BookRefreshed(book, now), flag, now);
    } else {
      CatchUpFollows(terms, jar, book, flag, now);
      SameFollows(terms, jar, BookRefreshed(book, now), flag, JarOf(after, p), now);
      FollowsTwice(terms, jar, book, flag, jar, BookRefreshed(book, now), flag, JarOf(after, p), BookRefreshed(book, now), flag, now);
    }
  }

  lemma ToppedAccountFollows(before: Account, after: Account, p: ProductId, terms: Terms, amount: TokenAmount, book: Book, now: Timestamp)
    requires terms.Fixed? && Topped(before, after, p, terms, amount, now) && Unsaturated(terms, amount)
    requires Balanced(terms, Core(JarOf(before, p)), book, before.features.increasedApy, now)
    ensures Follows(terms, JarOf(before, p), book, before.features.increasedApy,
                    JarOf(after, p), BookRefreshed(BookDeposit(book, amount, now), now), after.features.increasedApy, now)
  {
    var flag, jar := before.features.increasedApy, JarOf(before, p);
    var pushed, pushedBook := WithDeposit(jar, Deposit(now, amount)), BookDeposit(book, amount, now);
    PushFollows(terms, jar, book, flag, amount, now);
    var cached, cachedBook := PlainRefresh(terms, flag, pushed, now), BookRefreshed(pushedBook, now);
    RefreshFollows(terms, pushed, pushedBook, flag, now);
    FollowsTwice(terms, jar, book, flag, pushed, pushedBook, flag, cached, cachedBook, flag, now);
    SameFollows(terms, cached, cachedBook, flag, JarOf(after, p), now);
    FollowsTwice(terms, jar, book, flag, cached, cachedBook, flag, JarOf(after, p), cachedBook, flag, now);
  }

  /** Everything earned under the old setting is cached before the setting changes. */
  lemma FeatureFollows(before: Account, after: Account, p: ProductId, terms: Terms, feature: Feature, isEnabled: bool, book: Book, now: Timestamp)
    requires terms.Fixed?
    requires Fresh(before, after.(features := before.features), p, terms, now)
    requires after.features.increasedApy == if feature.IncreasedApy? then isEnabled else before.features.increasedApy
    requires Balanced(terms, Core(JarOf(before, p)), book, before.features.increasedApy, now)
    ensures Follows(terms, JarOf(before, p), book, before.features.increasedApy,
                    JarOf(after, p), BookUpdated(book, SetFeature(feature, isEnabled), now), after.features.increasedApy, now)
  {
    var flag := before.features.increasedApy;
    FreshAccountFollows(before, after.(features := before.features), p, terms, book, now);
    if feature.IncreasedApy? {
      ToggleFollows(terms, JarOf(after, p), BookRefreshed(book, now), flag, isEnabled, now);
      FollowsTwice(terms, JarOf(before, p), book, flag, JarOf(after, p), BookRefreshed(book, now), flag,
                   JarOf(after, p), BookUpdated(book, SetFeature(feature, isEnabled), now), isEnabled, now);
    }
  }

  lemma UpdatedAccountFollows(before: Account, products: map<ProductId, Product>, update: Update, p: ProductId, book: Book, now: Timestamp)
    requires Known(before, products)
    requires p in products && products[p].terms.Fixed?
    requires Updated(before, products, update, now).Ok?
    requires Balanced(products[p].terms, Core(JarOf(before, p)), book, before.features.increasedApy, now)
    ensures var after := Updated(before, products, update, now).value;
            Follows(products[p].terms, JarOf(before, p), book, before.features.increasedApy,
                    JarOf(after, p), BookUpdated(book, update, now), after.features.increasedApy, now)
  {
    UpdateIsFresh(before, products, update, now, p);
    var terms, after := products[p].terms, Updated(before, products, update, now).value;
    match update
    case SetFeature(feature, isEnabled) => FeatureFollows(before, after, p, terms, feature, isEnabled, book, now);
    case RecordScore(_) => SameAccountFollows(before, after, p, terms, book, now);
    case ApplyBooster(_, _) => SameAccountFollows(before, after, p, terms, book, now);
  }

  /** A bigger deposit than the cap allows is never made, and smaller ones saturate
      no sooner. */
  lemma SmallerIsUnsaturated(terms: Terms, amount: TokenAmount, capMax: TokenAmount)
    requires terms.Fixed? && Unsaturated(terms, capMax) && amount <= capMax
    ensures Unsaturated(terms, amount)
  {
    forall flag ensures terms.lockupTerm * YearlyInterest(amount, terms.apy.Resolve(flag)) <= U128_MAX {
      SaturatingMulMonotone(terms.apy.Resolve(flag), amount, capMax);
      TimesAtMost(terms.lockupTerm, YearlyInterest(amount, terms.apy.Resolve(flag)), YearlyInterest(capMax, terms.apy.Resolve(flag)));
    }
  }

  // --- One world --------------------------------------------------------------

  /** The book follows the account from one world to the next. */
  ghost predicate Followed(w: World, account: Account, account': Account, p: ProductId, book: Book, book': Book) {
    if p !in w.contract.products then Blank(book', account'.features.increasedApy, w.now)
    else Fits(w.contract.products[p]) ==>
      Follows(w.contract.products[p].terms, JarOf(account, p), book, account.features.increasedApy,
              JarOf(account', p), book', account'.features.increasedApy, w.now)
  }

  /** A call on any account that leaves no promise owning this jar, or one whose
      deposits have run out. */
  lemma CallTracks(w: World, b: AccountId, outcome: Outcome, a: AccountId, p: ProductId, book: Book, book': Book)
    requires Inv(w) && Tracks(w, a, p, book)
    requires b != a ==> book' == book
    requires b == a ==> Followed(w, AccountOrNew(w.contract, a, w.now), outcome.account, p, book, book')
    requires outcome.promise.Some? && p in w.contract.products && Fits(w.contract.products[p]) && Owns(outcome.promise.value, a, p) ==>
               && b == a && !outcome.promise.value.AfterClaim?
               && Flight(outcome.promise.value, p, w.contract.products[p].terms, JarOf(outcome.account, p), book',
                         outcome.account.features.increasedApy, w.now)
    ensures Tracks(AfterOpening(w, b, outcome), a, p, book')
  {
    var w' := AfterOpening(w, b, outcome);
    if p in w.contract.products && Fits(w.contract.products[p]) {
      var terms := w.contract.products[p].terms;
      var account, account' := AccountOrNew(w.contract, a, w.now), AccountOrNew(w'.contract, a, w.now);
      if b == a {
        FollowsTracks(w.pending, a, p, terms, JarOf(account, p), book, account.features.increasedApy,
                      JarOf(account', p), book', account'.features.increasedApy, w.now);
      }
      if outcome.promise.Some? {
        assert w.nextId !in w.pending;
        NewHoldTracks(w.pending, w.nextId, outcome.promise.value, a, p, terms, JarOf(account', p), book',
                      account'.features.increasedApy, w.now);
      }
    }
  }

  /** Held deposits of a fixed-term jar that had matured have run out. */
  lemma LiquidHaveRunOut(account: Account, products: map<ProductId, Product>, promise: Promise, p: ProductId, book: Book, flag: bool, now: Timestamp)
    requires p in products && products[p].terms.Fixed?
    requires !promise.AfterClaim?
    requires p in Held(promise) ==> p in account.jars && Holds(account.jars[p], Held(promise)[p])
    requires HeldWereLiquid(account, products, Held(promise), now)
    requires p in Held(promise) ==> book.upTo == now
    ensures Flight(promise, p, products[p].terms, JarOf(account, p), book, flag, now)
  {
  }

  // --- Calls ------------------------------------------------------------------

  predicate IsDeposit(before: Account, after: Account, products: map<ProductId, Product>, p: ProductId, q: ProductId, amount: TokenAmount, now: Timestamp) {
    p in products && products[p].terms.Fixed? ==>
      if p == q then Topped(before, after, p, products[p].terms, amount, now) else Same(before, after, p)
  }

  lemma DepositTracks(w: World, b: AccountId, after: Account, q: ProductId, amount: TokenAmount, a: AccountId, p: ProductId, book: Book)
    requires Inv(w) && Tracks(w, a, p, book)
    requires q in w.contract.products && amount <= w.contract.products[q].capMax
    requires IsDeposit(AccountOrNew(w.contract, b, w.now), after, w.contract.products, p, q, amount, w.now)
    requires after.features == AccountOrNew(w.contract, b, w.now).features
    ensures Tracks(w.(contract := WithAccount(w.contract, b, after)), a, p,
                   if b == a && q == p then BookRefreshed(BookDeposit(book, amount, w.now), w.now) else book)
  {
    var book' := if b == a && q == p then BookRefreshed(BookDeposit(book, amount, w.now), w.now) else book;
    var before, products := AccountOrNew(w.contract, b, w.now), w.contract.products;
    if b == a && p in products && Fits(products[p]) {
      if p == q {
        SmallerIsUnsaturated(products[p].terms, amount, products[p].capMax);
        ToppedAccountFollows(before, after, p, products[p].terms, amount, book, w.now);
      } else {
        SameAccountFollows(before, after, p, products[p].terms, book, w.now);
      }
    }
    CallTracks(w, b, Outcome(after, None), a, p, book, book');
  }

  lemma StakeTracks(env: Env, w: World, b: AccountId, ticket: Ticket, signature: Option<string>, amount: TokenAmount,
                    a: AccountId, p: ProductId, book: Book)
    requires Inv(w) && Tracks(w, a, p, book)
    requires Stake(env, w.contract, b, ticket, signature, amount, w.now).Ok?
    ensures Tracks(w.(contract := Stake(env, w.contract, b, ticket, signature, amount, w.now).value), a, p,
                   if b == a && ticket.productId == p then BookRefreshed(BookDeposit(book, amount, w.now), w.now) else book)
  {
    var before, products := AccountOrNew(w.contract, b, w.now), w.contract.products;
    if p in products && products[p].terms.Fixed? {
      StakeTops(before, products, ticket, amount, w.now, p);
    }
    DepositTracks(w, b, StakeAccepted(before, products, ticket, amount, w.now).value, ticket.productId, amount, a, p, book);
  }

  lemma {:induction false} AirdropTracks(w: World, ticket: Ticket, amount: TokenAmount, receivers: seq<AccountId>, booster: Score,
                                         earnedAt: Option<Timestamp>, a: AccountId, p: ProductId, book: Book)
    requires Inv(w) && Tracks(w, a, p, book)
    requires ticket.productId in w.contract.products && amount <= w.contract.products[ticket.productId].capMax
    requires AirdropAll(w.contract, ticket, amount, receivers, booster, earnedAt, w.now).Ok?
    ensures Tracks(w.(contract := AirdropAll(w.contract, ticket, amount, receivers, booster, earnedAt, w.now).value), a, p,
                   if ticket.productId == p then BookAirdrop(book, a, amount, receivers, w.now) else book)
  {
    if receivers != [] {
      var n := |receivers| - 1;
      AirdropTracks(w, ticket, amount, receivers[..n], booster, earnedAt, a, p, book);
      AirdropKeepsInv(w, ticket, amount, receivers[..n], booster, earnedAt);
      var middle := AirdropAll(w.contract, ticket, amount, receivers[..n], booster, earnedAt, w.now).value;
      var before, products := AccountOrNew(middle, receivers[n], w.now), middle.products;
      if p in products && products[p].terms.Fixed? {
        AirdropTops(before, products, ticket, amount, booster, earnedAt, w.now, p);
      }
      DepositTracks(w.(contract := middle), receivers[n], Airdropped(before, products, ticket, amount, booster, earnedAt, w.now).value,
                    ticket.productId, amount, a, p,
                    if ticket.productId == p then BookAirdrop(book, a, amount, receivers[..n], w.now) else book);
    }
  }

  /** A call that holds deposits under a withdrawal or restake, or nothing. */
  lemma HoldingCallTracks(w: World, b: AccountId, outcome: Outcome, a: AccountId, p: ProductId, book: Book, book': Book)
    requires Inv(w) && Tracks(w, a, p, book)
    requires b in w.contract.accounts
    requires Opened(w.contract.accounts[b], outcome, w.contract.products, w.now)
    requires outcome.promise.Some? ==> !outcome.promise.value.AfterClaim? && !outcome.promise.value.AfterFee? && outcome.promise.value.account == b
    requires b != a ==> book' == book
    requires b == a ==> Followed(w, w.contract.accounts[b], outcome.account, p, book, book')
    requires b == a && p in HeldBy(outcome.promise) ==> book'.upTo == w.now
    ensures Tracks(AfterOpening(w, b, outcome), a, p, book')
  {
    if outcome.promise.Some? && p in w.contract.products && Fits(w.contract.products[p]) && Owns(outcome.promise.value, a, p) {
      LiquidHaveRunOut(outcome.account, w.contract.products, outcome.promise.value, p, book', outcome.account.features.increasedApy, w.now);
    }
    CallTracks(w, b, outcome, a, p, book, book');
  }

  lemma WithdrawFollows(w: World, q: ProductId, a: AccountId, p: ProductId, book: Book)
    requires Inv(w) && Tracks(w, a, p, book) && a in w.contract.accounts
    requires Withdraw(a, w.contract.accounts[a], w.contract.products, q, w.now).Ok?
    ensures Followed(w, w.contract.accounts[a], Withdraw(a, w.contract.accounts[a], w.contract.products, q, w.now).value.account, p, book,
                     if q == p then BookRefreshed(book, w.now) else book)
  {
    var account, products := w.contract.accounts[a], w.contract.products;
    var after := Withdraw(a, account, products, q, w.now).value.account;
    if p in products && Fits(products[p]) {
      WithdrawIsFresh(a, account, products, q, w.now, p);
      if p == q {
        FreshAccountFollows(account, after, p, products[p].terms, book, w.now);
      } else {
        SameAccountFollows(account, after, p, products[p].terms, book, w.now);
      }
    }
  }

  lemma WithdrawTracks(w: World, b: AccountId, q: ProductId, a: AccountId, p: ProductId, book: Book)
    requires Inv(w) && Tracks(w, a, p, book)
    requires CallWithdraw(w.contract, b, q, w.now).Ok?
    ensures Tracks(WithPromise(w, CallWithdraw(w.contract, b, q, w.now).value), a, p,
                   if b == a && q == p then BookRefreshed(book, w.now) else book)
  {
    var account, products := w.contract.accounts[b], w.contract.products;
    var outcome := Withdraw(b, account, products, q, w.now).value;
    WithdrawOpens(b, account, products, q, w.now);
    if b == a {
      WithdrawFollows(w, q, a, p, book);
    }
    HoldingCallTracks(w, b, outcome, a, p, book, if b == a && q == p then BookRefreshed(book, w.now) else book);
  }

  lemma WithdrawAllTracks(w: World, b: AccountId, ps: Option<set<ProductId>>, a: AccountId, p: ProductId, book: Book)
    requires Inv(w) && Tracks(w, a, p, book)
    requires CallWithdrawAll(w.contract, b, ps, w.now).Ok?
    ensures Tracks(WithPromise(w, CallWithdrawAll(w.contract, b, ps, w.now).value), a, p,
                   if b == a then BookRefreshed(book, w.now) else book)
  {
    var account, products := w.contract.accounts[b], w.contract.products;
    var outcome := WithdrawAll(b, account, products, ps, w.now).value;
    WithdrawAllOpens(b, account, products, ps, w.now);
    if b == a && p in products && Fits(products[p]) {
      WithdrawAllIsFresh(b, account, products, ps, w.now, p);
      FreshAccountFollows(account, outcome.account, p, products[p].terms, book, w.now);
    }
    HoldingCallTracks(w, b, outcome, a, p, book, if b == a then BookRefreshed(book, w.now) else book);
  }

  /** No promise owns an unlocked jar. */
  lemma UnlockedIsUnowned(w: World, a: AccountId, p: ProductId)
    requires Inv(w) && !IsLocked(w.contract, a, p)
    ensures forall id :: id in w.pending ==> !Owns(w.pending[id], a, p)
  {
    forall id | id in w.pending ensures !Owns(w.pending[id], a, p) {
      assert Grounded(w.contract, w.pending[id]);
    }
  }

  lemma ClaimTracks(w: World, b: AccountId, a: AccountId, p: ProductId, book: Book)
    requires Inv(w) && Tracks(w, a, p, book)
    requires CallClaim(w.contract, b, w.now).Ok?
    ensures var promise := ClaimTotal(b, w.contract.accounts[b], w.contract.products, w.now).value.promise;
            Tracks(WithPromise(w, CallClaim(w.contract, b, w.now).value), a, p,
                   if b == a && p in OwnedBy(promise) && p in promise.value.amounts then BookClaimed(book, promise.value.amounts[p], w.now) else book)
  {
    var account, products := w.contract.accounts[b], w.contract.products;
    var outcome := ClaimTotal(b, account, products, w.now).value;
    ClaimTotalOpens(b, account, products, w.now);
    if b == a && p in products && Fits(products[p]) {
      ClaimIsInClaim(b, account, products, w.now, p);
      if p in OwnedBy(outcome.promise) {
        UnlockedIsUnowned(w, a, p);
        NewClaimTracks(w.pending, w.nextId, account, outcome.account, outcome.promise.value, a, p, products[p].terms, book, w.now);
      } else {
        SameAccountFollows(account, outcome.account, p, products[p].terms, book, w.now);
        CallTracks(w, b, outcome, a, p, book, book);
      }
    } else {
      CallTracks(w, b, outcome, a, p, book, book);
    }
  }
}
