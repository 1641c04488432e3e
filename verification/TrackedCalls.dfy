/** Restakes, settings and the clock keep every book balanced. */
module TrackedCalls {
  import opened Numbers
  import opened Types
  import opened Jars
  import opened Tickets
  import opened Accounts
  import opened Promises
  import opened Restakes
  import opened Contracts
  import opened Protocol
  import opened Accrual
  import opened Books
  import opened Ledgers
  import opened Tracking

  // --- Restakes ---------------------------------------------------------------

  lemma UnownedTracks(pending: map<nat, Promise>, a: AccountId, p: ProductId, terms: Terms, jar: Jar, book: Book, flag: bool, now: Timestamp)
    requires terms.Fixed?
    requires forall id :: id in pending ==> !Owns(pending[id], a, p)
    requires Balanced(terms, Core(jar), book, flag, now) && book.inFlight == 0
    ensures TracksJar(pending, a, p, terms, jar, book, flag, now)
  {
  }

  lemma DropTracks(pending: map<nat, Promise>, a: AccountId, p: ProductId, terms: Terms, jar: Jar, index: nat, book: Book, flag: bool, now: Timestamp)
    requires terms.Fixed?
    requires forall id :: id in pending ==> !Owns(pending[id], a, p)
    requires TracksJar(pending, a, p, terms, jar, book, flag, now)
    requires HeldRunOut(terms, jar, index, now)
    ensures TracksJar(pending, a, p, terms, WithoutPrefix(PlainRefresh(terms, flag, jar, now), index), BookRefreshed(book, now), flag, now)
  {
    RefreshFollows(terms, jar, book, flag, now);
    var cached := PlainRefresh(terms, flag, jar, now);
    assert book.inFlight == 0 by {
      assert !InClaimNow(pending, a, p);
    }
    DropBalanced(terms, Core(cached), BookRefreshed(book, now), flag, index, now);
    assert Core(WithoutPrefix(cached, index)) == WithoutPrefix(Core(cached), index);
    UnownedTracks(pending, a, p, terms, WithoutPrefix(cached, index), BookRefreshed(book, now), flag, now);
  }

  lemma MovedJarTracks(pending: map<nat, Promise>, a: AccountId, p: ProductId, terms: Terms, jar: Jar, part: Option<Part>,
                       added: Option<Deposit>, jar': Jar, book: Book, flag: bool, now: Timestamp)
    requires terms.Fixed?
    requires TracksJar(pending, a, p, terms, jar, book, flag, now)
    requires part.Some? ==>
               && (forall id :: id in pending ==> !Owns(pending[id], a, p))
               && HeldRunOut(terms, jar, part.value.index, now)
    requires added.Some? ==> added.value.createdAt == now && Unsaturated(terms, added.value.principal)
    requires Core(jar') == Core(MovedJar(terms, flag, jar, part, added, now))
    ensures var refreshed := if part.Some? then BookRefreshed(book, now) else book;
            TracksJar(pending, a, p, terms, jar', if added.Some? then BookDeposit(refreshed, added.value.principal, now) else refreshed, flag, now)
  {
    var refreshed := if part.Some? then BookRefreshed(book, now) else book;
    var kept := MovedJar(terms, flag, jar, part, None, now);
    if part.Some? {
      DropTracks(pending, a, p, terms, jar, part.value.index, book, flag, now);
    }
    AddedTracks(pending, a, p, terms, kept, added, jar', refreshed, flag, now);
  }

  lemma AddedTracks(pending: map<nat, Promise>, a: AccountId, p: ProductId, terms: Terms, jar: Jar,
                    added: Option<Deposit>, jar': Jar, book: Book, flag: bool, now: Timestamp)
    requires terms.Fixed?
    requires TracksJar(pending, a, p, terms, jar, book, flag, now)
    requires added.Some? ==> added.value.createdAt == now && Unsaturated(terms, added.value.principal)
    requires Core(jar') == Core(if added.Some? then WithDeposit(jar, added.value) else jar)
    ensures TracksJar(pending, a, p, terms, jar', if added.Some? then BookDeposit(book, added.value.principal, now) else book, flag, now)
  {
    var book' := if added.Some? then BookDeposit(book, added.value.principal, now) else book;
    var middle := if added.Some? then WithDeposit(jar, added.value) else jar;
    if added.Some? {
      PushFollows(terms, jar, book, flag, added.value.principal, now);
      FollowsTracks(pending, a, p, terms, jar, book, flag, middle, book', flag, now);
    }
    SameFollows(terms, middle, book', flag, jar', now);
    FollowsTracks(pending, a, p, terms, middle, book', flag, jar', book', flag, now);
  }

  /** The parts of a fixed-term jar that a restake takes have run out. */
  lemma PartHasRunOut(w: World, a: AccountId, source: Source, p: ProductId)
    requires Inv(w) && a in w.contract.accounts
    requires Parts(w.contract.accounts[a], w.contract.products, source, w.now).Ok?
    requires p in w.contract.products && w.contract.products[p].terms.Fixed?
    requires p in Parts(w.contract.accounts[a], w.contract.products, source, w.now).value
    ensures HeldRunOut(w.contract.products[p].terms, JarOf(w.contract.accounts[a], p),
                       Parts(w.contract.accounts[a], w.contract.products, source, w.now).value[p].index, w.now)
    ensures forall id :: id in w.pending ==> !Owns(w.pending[id], a, p)
  {
    PartsAreFrozen(w.contract.accounts[a], w.contract.products, source, w.now);
    var parts := Parts(w.contract.accounts[a], w.contract.products, source, w.now).value;
    assert Holds(w.contract.accounts[a].jars[p], parts[p]);
    UnlockedIsUnowned(w, a, p);
  }

  /** A restake that moves everything at once. */
  lemma MoveTracks(w: World, parts: map<ProductId, Part>, product: Product, timezone: Option<Timezone>, into: ProductId, amount: TokenAmount,
                   a: AccountId, p: ProductId, book: Book)
    requires Inv(w) && Tracks(w, a, p, book) && a in w.contract.accounts
    requires p in w.contract.products && Fits(w.contract.products[p])
    requires into in w.contract.products && w.contract.products[into].AcceptsAmount(amount)
    requires p in parts ==>
               && HeldRunOut(w.contract.products[p].terms, JarOf(w.contract.accounts[a], p), parts[p].index, w.now)
               && forall id :: id in w.pending ==> !Owns(w.pending[id], a, p)
    requires RefreshJars(w.contract.accounts[a], w.contract.products, parts.Keys, w.now).Ok?
    requires var refreshed := RefreshJars(w.contract.accounts[a], w.contract.products, parts.Keys, w.now).value;
             && WithTimezoneFor(refreshed, product, timezone).Ok?
             && CleanUpAndDeposit(WithTimezoneFor(refreshed, product, timezone).value, parts, into, amount, w.now).Ok?
    ensures var zoned := WithTimezoneFor(RefreshJars(w.contract.accounts[a], w.contract.products, parts.Keys, w.now).value, product, timezone).value;
            var after := CleanUpAndDeposit(zoned, parts, into, amount, w.now).value;
            TracksJar(w.pending, a, p, w.contract.products[p].terms, JarOf(after, p), BookMoved(book, p, parts, into, amount, true, w.now),
                      after.features.increasedApy, w.now)
  {
    var account, products := w.contract.accounts[a], w.contract.products;
    MoveIsMovedJar(account, products, parts, product, timezone, into, amount, w.now, p);
    if p == into {
      SmallerIsUnsaturated(products[p].terms, amount, products[p].capMax);
    }
    var zoned := WithTimezoneFor(RefreshJars(account, products, parts.Keys, w.now).value, product, timezone).value;
    var after := CleanUpAndDeposit(zoned, parts, into, amount, w.now).value;
    MovedJarTracks(w.pending, a, p, products[p].terms, JarOf(account, p), PartOf(parts, p), AddedTo(p, into, amount, w.now),
                   JarOf(after, p), book, account.features.increasedApy, w.now);
  }

  lemma LockedIsRefreshed(account: Account, refreshed: Account, after: Account, parts: map<ProductId, Part>, p: ProductId, terms: Terms, now: Timestamp)
    requires terms.Fixed?
    requires if p in parts then Fresh(account, refreshed, p, terms, now) else Same(account, refreshed, p)
    requires after.jars == AllWithLock(refreshed, parts.Keys, true).jars && after.features == account.features
    ensures if p in parts then Fresh(account, after, p, terms, now) else Same(account, after, p)
  {
  }

  /** A restake with a remainder only refreshes and locks for now. */
  lemma RemainderTracks(w: World, after: Account, parts: map<ProductId, Part>, into: ProductId, a: AccountId, p: ProductId, book: Book)
    requires Inv(w) && Tracks(w, a, p, book) && a in w.contract.accounts
    requires p in w.contract.products && Fits(w.contract.products[p])
    requires RefreshJars(w.contract.accounts[a], w.contract.products, parts.Keys, w.now).Ok?
    requires after.jars == AllWithLock(RefreshJars(w.contract.accounts[a], w.contract.products, parts.Keys, w.now).value, parts.Keys, true).jars
    requires after.features == w.contract.accounts[a].features
    ensures Followed(w, w.contract.accounts[a], after, p, book, BookMoved(book, p, parts, into, 0, false, w.now))
  {
    var account, products := w.contract.accounts[a], w.contract.products;
    RefreshJarsIsFresh(account, products, parts.Keys, w.now, p);
    LockedIsRefreshed(account, RefreshJars(account, products, parts.Keys, w.now).value, after, parts, p, products[p].terms, w.now);
    if p in parts {
      FreshAccountFollows(account, after, p, products[p].terms, book, w.now);
    } else {
      SameAccountFollows(account, after, p, products[p].terms, book, w.now);
    }
  }

  /** A restake of this account, whatever it takes and moves. */
  lemma OwnRestakeTracks(w: World, source: Source, parts: map<ProductId, Part>, ticket: Ticket, amount: TokenAmount, total: TokenAmount,
                         fee: TokenAmount, isSigned: bool, a: AccountId, p: ProductId, book: Book)
    requires Inv(w) && Tracks(w, a, p, book) && a in w.contract.accounts
    requires p in w.contract.products && Fits(w.contract.products[p]) && ticket.productId in w.contract.products
    requires Parts(w.contract.accounts[a], w.contract.products, source, w.now) == Ok(parts)
    requires RestakeParts(a, w.contract.accounts[a], w.contract.products, parts, ticket, amount, total, fee, isSigned, w.now).Ok?
    requires Opened(w.contract.accounts[a],
                    RestakeParts(a, w.contract.accounts[a], w.contract.products, parts, ticket, amount, total, fee, isSigned, w.now).value,
                    w.contract.products, w.now)
    ensures Tracks(AfterOpening(w, a, RestakeParts(a, w.contract.accounts[a], w.contract.products, parts, ticket, amount, total, fee, isSigned, w.now).value),
                   a, p, BookMoved(book, p, parts, ticket.productId, amount, amount == total, w.now))
  {
    var account, products := w.contract.accounts[a], w.contract.products;
    var outcome := RestakeParts(a, account, products, parts, ticket, amount, total, fee, isSigned, w.now).value;
    if p in parts {
      PartHasRunOut(w, a, source, p);
    }
    if amount == total {
      RestakePartsMove(a, account, products, parts, ticket, amount, total, fee, isSigned, w.now);
      MoveTracks(w, parts, products[ticket.productId], ticket.timezone, ticket.productId, amount, a, p, book);
    } else {
      RestakePartsLock(a, account, products, parts, ticket, amount, total, fee, isSigned, w.now);
      RemainderTracks(w, outcome.account, parts, ticket.productId, a, p, book);
      HoldingCallTracks(w, a, outcome, a, p, book, BookMoved(book, p, parts, ticket.productId, amount, false, w.now));
    }
  }

  /** Another account, or a product that keeps no book. */
  lemma OutsideTracks(w: World, b: AccountId, outcome: Outcome, parts: map<ProductId, Part>, into: ProductId, amount: TokenAmount, isMoved: bool,
                      a: AccountId, p: ProductId, book: Book)
    requires Inv(w) && Tracks(w, a, p, book) && b in w.contract.accounts
    requires Opened(w.contract.accounts[b], outcome, w.contract.products, w.now)
    requires outcome.promise.Some? ==> outcome.promise.value.AfterRemainder? && outcome.promise.value.account == b
    requires HeldBy(outcome.promise).Keys <= parts.Keys
    requires outcome.account.features == w.contract.accounts[b].features
    requires parts.Keys <= w.contract.products.Keys && into in w.contract.products
    requires !(b == a && p in w.contract.products && Fits(w.contract.products[p]))
    ensures Tracks(AfterOpening(w, b, outcome), a, p, if b != a then book else BookMoved(book, p, parts, into, amount, isMoved, w.now))
  {
    HoldingCallTracks(w, b, outcome, a, p, book, if b != a then book else BookMoved(book, p, parts, into, amount, isMoved, w.now));
  }

  lemma RestakeTracks(env: Env, w: World, b: AccountId, source: Source, ticket: Ticket, signature: Option<string>,
                      target: Option<TokenAmount>, a: AccountId, p: ProductId, book: Book)
    requires Inv(w) && Tracks(w, a, p, book)
    requires CallRestake(env, w.contract, b, source, ticket, signature, target, w.now).Ok?
    ensures Tracks(WithPromise(w, CallRestake(env, w.contract, b, source, ticket, signature, target, w.now).value), a, p,
                   BookRestaked(book, w, source, ticket, target, b, a, p))
  {
    var account, products := w.contract.accounts[b], w.contract.products;
    var parts, total, amount, fee, isSigned := RestakeIs(env, b, account, products, source, ticket, signature, target, w.now);
    RestakeOpens(env, b, account, products, source, ticket, signature, target, w.now);
    if b == a && p in products && Fits(products[p]) {
      OwnRestakeTracks(w, source, parts, ticket, amount, total, fee, isSigned, a, p, book);
    } else {
      RestakeFits(env, b, account, products, source, ticket, signature, target, w.now);
      var outcome := Restake(env, b, account, products, source, ticket, signature, target, w.now).value;
      PartsAreFrozen(account, products, source, w.now);
      OutsideTracks(w, b, outcome, parts, ticket.productId, amount, amount == total, a, p, book);
    }
  }

  // --- Settings ---------------------------------------------------------------

  lemma BlankUpdated(book: Book, flag: bool, update: Update, now: Timestamp)
    requires Blank(book, flag, now)
    ensures Blank(BookUpdated(book, update, now),
                  if update.SetFeature? && update.feature.IncreasedApy? then update.isEnabled else flag, now)
  {
    if update.SetFeature? && update.feature.IncreasedApy? {
      ToggledFlags(book.toggles, now, update.isEnabled);
    }
  }

  lemma UpdateTracks(w: World, b: AccountId, update: Update, a: AccountId, p: ProductId, book: Book)
    requires Inv(w) && Tracks(w, a, p, book)
    requires UpdateAccount(w.contract, b, update, w.now).Ok?
    ensures Tracks(w.(contract := UpdateAccount(w.contract, b, update, w.now).value), a, p,
                   if b == a then BookUpdated(book, update, w.now) else book)
  {
    var account, products := w.contract.accounts[b], w.contract.products;
    if b == a {
      if p in products && Fits(products[p]) {
        UpdatedAccountFollows(account, products, update, p, book, w.now);
      } else if p !in products {
        BlankUpdated(book, account.features.increasedApy, update, w.now);
      }
    }
    CallTracks(w, b, Outcome(Updated(account, products, update, w.now).value, None), a, p, book,
               if b == a then BookUpdated(book, update, w.now) else book);
  }

  lemma {:induction false} UpdateAllTracks(w: World, batch: seq<(AccountId, Update)>, a: AccountId, p: ProductId, book: Book)
    requires Inv(w) && Tracks(w, a, p, book)
    requires UpdateAll(w.contract, batch, w.now).Ok?
    ensures Tracks(w.(contract := UpdateAll(w.contract, batch, w.now).value), a, p, BookUpdatedAll(book, a, batch, w.now))
  {
    if batch != [] {
      var n := |batch| - 1;
      UpdateAllTracks(w, batch[..n], a, p, book);
      UpdateAllKeepsInv(w, batch[..n]);
      UpdateTracks(w.(contract := UpdateAll(w.contract, batch[..n], w.now).value), batch[n].0, batch[n].1, a, p,
                   BookUpdatedAll(book, a, batch[..n], w.now));
    }
  }

  lemma SettingTracks(w: World, b: AccountId, feature: Feature, isEnabled: bool, a: AccountId, p: ProductId, book: Book)
    requires Inv(w) && Tracks(w, a, p, book)
    requires SetFeatureEnabled(w.contract, b, feature, isEnabled, w.now).Ok?
    ensures Tracks(w.(contract := SetFeatureEnabled(w.contract, b, feature, isEnabled, w.now).value), a, p,
                   if b == a then BookUpdated(book, SetFeature(feature, isEnabled), w.now) else book)
  {
    if b in w.contract.accounts {
      UpdateTracks(w, b, SetFeature(feature, isEnabled), a, p, book);
    } else {
      NewSettingTracks(w, b, feature, isEnabled, a, p, book);
    }
  }

  lemma NewSettingTracks(w: World, b: AccountId, feature: Feature, isEnabled: bool, a: AccountId, p: ProductId, book: Book)
    requires Inv(w) && Tracks(w, a, p, book) && b !in w.contract.accounts
    ensures Tracks(w.(contract := SetFeatureEnabled(w.contract, b, feature, isEnabled, w.now).value), a, p,
                   if b == a then BookUpdated(book, SetFeature(feature, isEnabled), w.now) else book)
  {
    var before := NewAccount(w.now);
    var after := before.(features := WithFeature(before.features, feature, isEnabled));
    if b == a {
      NewSettingFollowed(w, a, feature, isEnabled, p, book);
    }
    CallTracks(w, b, Outcome(after, None), a, p, book, if b == a then BookUpdated(book, SetFeature(feature, isEnabled), w.now) else book);
  }

  lemma NewSettingFollowed(w: World, a: AccountId, feature: Feature, isEnabled: bool, p: ProductId, book: Book)
    requires Inv(w) && Tracks(w, a, p, book) && a !in w.contract.accounts
    ensures var before := NewAccount(w.now);
            var after := before.(features := WithFeature(before.features, feature, isEnabled));
            Followed(w, before, after, p, book, BookUpdated(book, SetFeature(feature, isEnabled), w.now))
  {
    var before := NewAccount(w.now);
    var after := before.(features := WithFeature(before.features, feature, isEnabled));
    if p in w.contract.products && Fits(w.contract.products[p]) {
      FeatureFollows(before, after, p, w.contract.products[p].terms, feature, isEnabled, book, w.now);
    } else if p !in w.contract.products {
      BlankUpdated(book, false, SetFeature(feature, isEnabled), w.now);
    }
  }

  lemma TimezoneTracks(w: World, b: AccountId, timezone: Timezone, a: AccountId, p: ProductId, book: Book)
    requires Inv(w) && Tracks(w, a, p, book)
    requires SetTimezone(w.contract, b, timezone, w.now).Ok?
    ensures Tracks(w.(contract := SetTimezone(w.contract, b, timezone, w.now).value), a, p, book)
  {
    var before := AccountOrNew(w.contract, b, w.now);
    var after := TrySetTimezone(before, Some(timezone)).value;
    if b == a && p in w.contract.products && Fits(w.contract.products[p]) {
      SameAccountFollows(before, after, p, w.contract.products[p].terms, book, w.now);
    }
    CallTracks(w, b, Outcome(after, None), a, p, book, book);
  }

  /** A newly registered product finds an empty book; the others keep their terms. */
  lemma ProductsTrack(w: World, w': World, a: AccountId, p: ProductId, book: Book)
    requires Inv(w) && Tracks(w, a, p, book)
    requires w' == w.(contract := w.contract.(products := w'.contract.products))
    requires SameTerms(w.contract.products, w'.contract.products)
    ensures Tracks(w', a, p, book)
  {
    var account := AccountOrNew(w.contract, a, w.now);
    if p !in w.contract.products && p in w'.contract.products && Fits(w'.contract.products[p]) {
      UnlockedIsUnowned(w, a, p);
      assert Gone(DEFAULT_JAR, book) == [];
      UnownedTracks(w.pending, a, p, w'.contract.products[p].terms, DEFAULT_JAR, book, account.features.increasedApy, w.now);
    }
  }

  /** A migrated account has no deposit in this jar whose term could saturate. */
  ghost predicate MigrantFits(w: World, action: Action, a: AccountId, p: ProductId) {
    action.DoMigrate? && action.a == a && p in w.contract.products && Fits(w.contract.products[p]) ==>
      forall i :: 0 <= i < |JarOf(action.account, p).deposits| ==>
        Unsaturated(w.contract.products[p].terms, JarOf(action.account, p).deposits[i].principal)
  }

  lemma BroughtBalanced(terms: Terms, jar: Jar, flag: bool, now: Timestamp)
    requires terms.Fixed? && InOrder(jar.deposits, now) && CacheIsPast(jar.cache, now)
    requires forall i :: 0 <= i < |jar.deposits| ==> Unsaturated(terms, jar.deposits[i].principal)
    ensures Balanced(terms, Core(jar), BookBrought(terms, jar, flag), flag, now)
  {
    assert Gone(jar, BookBrought(terms, jar, flag)) == [];
  }

  /** The book of a migrated account starts balanced; no promise is left of the
      account that was there before, since it had no jar. */
  lemma MigrateTracks(w: World, account: Account, amount: TokenAmount, a: AccountId, p: ProductId)
    requires Inv(w) && IsAdmissible(w, w.now, DoMigrate(a, account, amount))
    requires Migrate(w.contract, a, account, amount).Ok?
    requires MigrantFits(w, DoMigrate(a, account, amount), a, p)
    ensures Tracks(w.(contract := WithAccount(w.contract, a, account)), a, p, BookMigrated(w.contract.products, account, p))
  {
    if p in w.contract.products && Fits(w.contract.products[p]) {
      var terms, flag := w.contract.products[p].terms, account.features.increasedApy;
      assert p in account.jars ==> InOrder(account.jars[p].deposits, w.now);
      BroughtBalanced(terms, JarOf(account, p), flag, w.now);
      UnlockedIsUnowned(w, a, p);
      UnownedTracks(w.pending, a, p, terms, JarOf(account, p), BookBrought(terms, JarOf(account, p), flag), flag, w.now);
    }
  }

  lemma WithdrawFeeTracks(w: World, a: AccountId, p: ProductId, book: Book)
    requires Inv(w) && Tracks(w, a, p, book)
    ensures Tracks(WithPromise(w, CallWithdrawFee(w.contract)), a, p, book)
  {
    if p in w.contract.products && Fits(w.contract.products[p]) {
      var account := AccountOrNew(w.contract, a, w.now);
      assert w.nextId !in w.pending;
      NewHoldTracks(w.pending, w.nextId, AfterFee(w.contract.feeAmount), a, p, w.contract.products[p].terms, JarOf(account, p), book,
                    account.features.increasedApy, w.now);
    }
  }

  lemma LaterTracks(w: World, at: Timestamp, a: AccountId, p: ProductId, book: Book)
    requires Inv(w) && Tracks(w, a, p, book) && w.now <= at
    ensures Tracks(w.(now := at), a, p, book)
  {
    if p in w.contract.products && Fits(w.contract.products[p]) {
      var account, terms := AccountOrNew(w.contract, a, w.now), w.contract.products[p].terms;
      forall id | id in w.pending && Owns(w.pending[id], a, p)
        ensures Flight(w.pending[id], p, terms, JarOf(account, p), book, account.features.increasedApy, at)
      {
        LaterFlight(terms, JarOf(account, p), book, account.features.increasedApy, w.pending[id], p, w.now, at);
      }
      LaterBalanced(terms, Core(JarOf(account, p)), book, account.features.increasedApy, w.now, at);
    }
  }
}
