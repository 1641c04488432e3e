/** The book of a fixed-term jar over every run: the cache agrees with the integral
    whatever calls, callbacks and failures happen in between. */
module Ledgers {
  import opened Numbers
  import opened Types
  import opened Interest
  import opened Jars
  import opened Tickets
  import opened Accounts
  import opened Promises
  import opened Claims
  import opened Restakes
  import opened Contracts
  import opened Protocol
  import opened Accrual
  import opened Books

  // --- Jars under a pending promise -------------------------------------------

  /** While a claim is pending its interest is in flight and its snapshot is as
      balanced as the jar; while a withdrawal or restake is pending the deposits it
      will take have run out. */
  ghost predicate Flight(promise: Promise, p: ProductId, terms: Terms, jar: Jar, book: Book, flag: bool, now: Timestamp)
    requires terms.Fixed?
  {
    match promise
    case AfterFee(_) => true
    case AfterClaim(_, rollback, amounts, _, _) =>
      p in rollback ==>
        && p in amounts && amounts[p] == book.inFlight
        && rollback[p].deposits.None? && rollback[p].cache.Some? && rollback[p].claimRemainder.Some?
        && Balanced(terms, Core(Applied(jar, rollback[p])), Restored(book, flag), flag, now)
    case AfterWithdraw(_, _, _) => p in Held(promise) ==> HeldRunOut(terms, jar, Held(promise)[p].index, book.upTo)
    case AfterRemainder(_, _, _, _, _, _, _) => p in Held(promise) ==> HeldRunOut(terms, jar, Held(promise)[p].index, book.upTo)
  }

  predicate HeldRunOut(terms: Terms, jar: Jar, index: nat, upTo: Timestamp)
    requires terms.Fixed?
  {
    index <= |jar.deposits| && forall i :: 0 <= i < index ==> HasRunOut(terms, jar.deposits[i], upTo)
  }

  ghost predicate InClaimNow(pending: map<nat, Promise>, a: AccountId, p: ProductId) {
    exists id :: id in pending && pending[id].AfterClaim? && Owns(pending[id], a, p)
  }

  ghost predicate TracksJar(pending: map<nat, Promise>, a: AccountId, p: ProductId, terms: Terms, jar: Jar, book: Book, flag: bool, now: Timestamp)
    requires terms.Fixed?
  {
    && Balanced(terms, Core(jar), book, flag, now)
    && (forall id :: id in pending && Owns(pending[id], a, p) ==> Flight(pending[id], p, terms, jar, book, flag, now))
    && (!InClaimNow(pending, a, p) ==> book.inFlight == 0)
  }

  /** A step of one jar that keeps track under any pending promise. */
  ghost predicate Follows(terms: Terms, jar: Jar, book: Book, flag: bool, jar': Jar, book': Book, flag': bool, now: Timestamp)
    requires terms.Fixed?
  {
    && Balanced(terms, Core(jar'), book', flag', now)
    && book'.inFlight == book.inFlight
    && (forall promise, p {:trigger Flight(promise, p, terms, jar', book', flag', now)} ::
          Flight(promise, p, terms, jar, book, flag, now) ==> Flight(promise, p, terms, jar', book', flag', now))
  }

  lemma FollowsTracks(pending: map<nat, Promise>, a: AccountId, p: ProductId, terms: Terms, jar: Jar, book: Book, flag: bool,
                      jar': Jar, book': Book, flag': bool, now: Timestamp)
    requires terms.Fixed?
    requires TracksJar(pending, a, p, terms, jar, book, flag, now)
    requires Follows(terms, jar, book, flag, jar', book', flag', now)
    ensures TracksJar(pending, a, p, terms, jar', book', flag', now)
  {
  }

  lemma FollowsTwice(terms: Terms, jar: Jar, book: Book, flag: bool, jar1: Jar, book1: Book, flag1: bool,
                     jar2: Jar, book2: Book, flag2: bool, now: Timestamp)
    requires terms.Fixed?
    requires Follows(terms, jar, book, flag, jar1, book1, flag1, now)
    requires Follows(terms, jar1, book1, flag1, jar2, book2, flag2, now)
    ensures Follows(terms, jar, book, flag, jar2, book2, flag2, now)
  {
    forall promise, p | Flight(promise, p, terms, jar, book, flag, now) ensures Flight(promise, p, terms, jar2, book2, flag2, now) {
      assert Flight(promise, p, terms, jar1, book1, flag1, now);
    }
  }

  /** Same jar but for the lock. */
  lemma SameFollows(terms: Terms, jar: Jar, book: Book, flag: bool, jar': Jar, now: Timestamp)
    requires terms.Fixed? && Core(jar') == Core(jar)
    requires Balanced(terms, Core(jar), book, flag, now)
    ensures Follows(terms, jar, book, flag, jar', book, flag, now)
  {
    forall promise, p | Flight(promise, p, terms, jar, book, flag, now) ensures Flight(promise, p, terms, jar', book, flag, now) {
      if promise.AfterClaim? && p in promise.rollback {
        assert Core(Applied(jar', promise.rollback[p])) == Core(Applied(jar, promise.rollback[p]));
      }
    }
  }

  lemma RefreshKeepsBalance(terms: Terms, jar: Jar, book: Book, flag: bool, now: Timestamp)
    requires terms.Fixed?
    requires Balanced(terms, Core(jar), book, flag, now)
    ensures Balanced(terms, Core(PlainRefresh(terms, flag, jar, now)), book.(upTo := now), flag, now)
  {
    CoreRefreshes(terms, flag, jar, now);
    RefreshBalanced(terms, Core(jar), book, flag, PlainRate(terms, flag), now);
  }

  lemma RefreshFollows(terms: Terms, jar: Jar, book: Book, flag: bool, now: Timestamp)
    requires terms.Fixed?
    requires Balanced(terms, Core(jar), book, flag, now)
    ensures Follows(terms, jar, book, flag, PlainRefresh(terms, flag, jar, now), book.(upTo := now), flag, now)
  {
    var jar', book' := PlainRefresh(terms, flag, jar, now), book.(upTo := now);
    RefreshKeepsBalance(terms, jar, book, flag, now);
    assert jar'.deposits == jar.deposits;
    forall promise, p | Flight(promise, p, terms, jar, book, flag, now) ensures Flight(promise, p, terms, jar', book', flag, now) {
      RefreshKeepsFlight(terms, jar, jar', book, flag, promise, p, now);
    }
  }

  /** A newer cache makes no difference to a pending promise. */
  lemma RefreshKeepsFlight(terms: Terms, jar: Jar, jar': Jar, book: Book, flag: bool, promise: Promise, p: ProductId, now: Timestamp)
    requires terms.Fixed? && jar'.deposits == jar.deposits && book.upTo <= now
    requires Flight(promise, p, terms, jar, book, flag, now)
    ensures Flight(promise, p, terms, jar', book.(upTo := now), flag, now)
  {
    if promise.AfterClaim? && p in promise.rollback {
      assert Core(Applied(jar', promise.rollback[p])) == Core(Applied(jar, promise.rollback[p]));
      assert Restored(book.(upTo := now), flag) == Restored(book, flag);
    }
  }

  lemma PushSnapshot(terms: Terms, jar: Jar, book: Book, flag: bool, companion: JarCompanion, amount: TokenAmount, now: Timestamp)
    requires terms.Fixed? && Unsaturated(terms, amount)
    requires companion.deposits.None?
    requires Balanced(terms, Core(Applied(jar, companion)), Restored(book, flag), flag, now)
    ensures var deposit := Deposit(now, amount);
            Balanced(terms, Core(Applied(WithDeposit(jar, deposit), companion)),
                     Restored(book.(history := book.history + [deposit]), flag), flag, now)
  {
    var deposit := Deposit(now, amount);
    var snapshot := Core(Applied(jar, companion));
    PushBalanced(terms, snapshot, Restored(book, flag), flag, amount, now);
    assert Core(Applied(WithDeposit(jar, deposit), companion)) == WithDeposit(snapshot, deposit);
    assert Restored(book.(history := book.history + [deposit]), flag) == Restored(book, flag).(history := book.history + [deposit]);
  }

  lemma PushHeld(terms: Terms, jar: Jar, index: nat, upTo: Timestamp, deposit: Deposit)
    requires terms.Fixed? && HeldRunOut(terms, jar, index, upTo)
    ensures HeldRunOut(terms, WithDeposit(jar, deposit), index, upTo)
  {
  }

  lemma PushFollows(terms: Terms, jar: Jar, book: Book, flag: bool, amount: TokenAmount, now: Timestamp)
    requires terms.Fixed? && Unsaturated(terms, amount)
    requires Balanced(terms, Core(jar), book, flag, now)
    ensures Follows(terms, jar, book, flag, WithDeposit(jar, Deposit(now, amount)),
                    book.(history := book.history + [Deposit(now, amount)]), flag, now)
  {
    var deposit := Deposit(now, amount);
    var jar', book' := WithDeposit(jar, deposit), book.(history := book.history + [deposit]);
    assert Balanced(terms, Core(jar'), book', flag, now) by {
      PushBalanced(terms, Core(jar), book, flag, amount, now);
      assert Core(jar') == WithDeposit(Core(jar), deposit);
    }
    forall promise, p | Flight(promise, p, terms, jar, book, flag, now) ensures Flight(promise, p, terms, jar', book', flag, now) {
      match promise
      case AfterFee(_) =>
      case AfterClaim(_, rollback, _, _, _) =>
        if p in rollback {
          PushSnapshot(terms, jar, book, flag, rollback[p], amount, now);
        }
      case AfterWithdraw(_, _, _) =>
        if p in Held(promise) {
          PushHeld(terms, jar, Held(promise)[p].index, book.upTo, deposit);
        }
      case AfterRemainder(_, _, _, _, _, _, _) =>
        if p in Held(promise) {
          PushHeld(terms, jar, Held(promise)[p].index, book.upTo, deposit);
        }
    }
  }

  lemma CatchUpFollows(terms: Terms, jar: Jar, book: Book, flag: bool, now: Timestamp)
    requires terms.Fixed? && jar.cache.None? && jar.deposits == []
    requires Balanced(terms, Core(jar), book, flag, now)
    ensures Follows(terms, jar, book, flag, jar, book.(upTo := now), flag, now)
  {
    CatchUpBalanced(terms, Core(jar), book, flag, now);
    assert Restored(book.(upTo := now), flag) == Restored(book, flag);
  }

  lemma ToggleFollows(terms: Terms, jar: Jar, book: Book, flag: bool, flag': bool, now: Timestamp)
    requires terms.Fixed? && book.upTo == now
    requires Balanced(terms, Core(jar), book, flag, now)
    ensures Follows(terms, jar, book, flag, jar, book.(toggles := book.toggles + [Toggle(now, flag')]), flag', now)
  {
    var book' := book.(toggles := book.toggles + [Toggle(now, flag')]);
    ToggleBalanced(terms, Core(jar), book, flag, flag', now);
    forall promise, p | Flight(promise, p, terms, jar, book, flag, now) ensures Flight(promise, p, terms, jar, book', flag', now) {
      if promise.AfterClaim? && p in promise.rollback {
        ToggleSnapshot(terms, Core(Applied(jar, promise.rollback[p])), book, flag, flag', now);
      }
    }
  }

  lemma ToggleSnapshot(terms: Terms, snapshot: Jar, book: Book, flag: bool, flag': bool, now: Timestamp)
    requires terms.Fixed? && book.upTo == now
    requires Balanced(terms, snapshot, Restored(book, flag), flag, now)
    ensures Balanced(terms, snapshot, Restored(book.(toggles := book.toggles + [Toggle(now, flag')]), flag'), flag', now)
  {
    var book' := book.(toggles := book.toggles + [Toggle(now, flag')]);
    ToggledFlags(book.toggles, now, flag');
    RebasedFlags(book.toggles, book.savedUpTo, flag);
    RebasedFlags(book'.toggles, book.savedUpTo, flag');
    SnapshotBalanced(terms, snapshot, Restored(book, flag), flag, Restored(book', flag'), flag', now);
  }

  // --- Promises come and go ---------------------------------------------------

  lemma NewHoldTracks(pending: map<nat, Promise>, id: nat, promise: Promise, a: AccountId, p: ProductId, terms: Terms, jar: Jar,
                      book: Book, flag: bool, now: Timestamp)
    requires terms.Fixed? && id !in pending
    requires TracksJar(pending, a, p, terms, jar, book, flag, now)
    requires Owns(promise, a, p) ==> !promise.AfterClaim? && Flight(promise, p, terms, jar, book, flag, now)
    ensures TracksJar(pending[id := promise], a, p, terms, jar, book, flag, now)
  {
    var pending' := pending[id := promise];
    forall other | other in pending' && Owns(pending'[other], a, p)
      ensures Flight(pending'[other], p, terms, jar, book, flag, now)
    {
      assert other != id ==> other in pending && pending'[other] == pending[other];
    }
    ClaimStaysPending(pending, pending', a, p);
  }

  lemma ClaimStaysPending(pending: map<nat, Promise>, pending': map<nat, Promise>, a: AccountId, p: ProductId)
    requires forall id :: id in pending && Owns(pending[id], a, p) ==> id in pending' && pending'[id] == pending[id]
    ensures InClaimNow(pending, a, p) ==> InClaimNow(pending', a, p)
  {
    if InClaimNow(pending, a, p) {
      var id :| id in pending && pending[id].AfterClaim? && Owns(pending[id], a, p);
      assert id in pending' && pending'[id] == pending[id];
    }
  }

  /** The book when a claim takes the interest. */
  function BookClaimed(book: Book, interest: TokenAmount, now: Timestamp): Book {
    book.(savedUpTo := book.upTo, inFlight := interest, upTo := now)
  }

  lemma ClaimedIsBalanced(before: Account, after: Account, promise: Promise, p: ProductId, terms: Terms, book: Book, now: Timestamp)
    requires terms.Fixed? && book.inFlight == 0
    requires InClaim(before, after, Some(promise), p, terms, now)
    requires Balanced(terms, Core(JarOf(before, p)), book, before.features.increasedApy, now)
    ensures Balanced(terms, Core(JarOf(after, p)), BookClaimed(book, promise.amounts[p], now), before.features.increasedApy, now)
  {
    var flag, jar := before.features.increasedApy, JarOf(before, p);
    var (interest, remainder) := JarInterest(PlainRate(terms, flag), jar, now);
    assert JarInterest(PlainRate(terms, flag), Core(jar), now) == (interest, remainder);
    ClaimBalanced(terms, Core(jar), book, flag, PlainRate(terms, flag), now);
  }

  lemma ClaimedFlight(before: Account, after: Account, promise: Promise, p: ProductId, terms: Terms, book: Book, now: Timestamp)
    requires terms.Fixed? && book.inFlight == 0
    requires InClaim(before, after, Some(promise), p, terms, now)
    requires Balanced(terms, Core(JarOf(before, p)), book, before.features.increasedApy, now)
    ensures Flight(promise, p, terms, JarOf(after, p), BookClaimed(book, promise.amounts[p], now), before.features.increasedApy, now)
  {
    assert Core(Applied(JarOf(after, p), promise.rollback[p])) == Core(JarOf(before, p));
    LaterSavedBalanced(terms, Core(JarOf(before, p)), book, before.features.increasedApy, promise.amounts[p], now);
  }

  lemma NewClaimTracks(pending: map<nat, Promise>, id: nat, before: Account, after: Account, promise: Promise, a: AccountId, p: ProductId,
                       terms: Terms, book: Book, now: Timestamp)
    requires terms.Fixed? && id !in pending
    requires forall other :: other in pending ==> !Owns(pending[other], a, p)
    requires promise.AfterClaim? && Owns(promise, a, p)
    requires InClaim(before, after, Some(promise), p, terms, now)
    requires TracksJar(pending, a, p, terms, JarOf(before, p), book, before.features.increasedApy, now)
    ensures TracksJar(pending[id := promise], a, p, terms, JarOf(after, p), BookClaimed(book, promise.amounts[p], now),
                      before.features.increasedApy, now)
  {
    assert !InClaimNow(pending, a, p);
    ClaimedIsBalanced(before, after, promise, p, terms, book, now);
    ClaimedFlight(before, after, promise, p, terms, book, now);
    FirstOwnerTracks(pending, id, promise, a, p, terms, JarOf(after, p), BookClaimed(book, promise.amounts[p], now),
                     before.features.increasedApy, now);
  }

  lemma FirstOwnerTracks(pending: map<nat, Promise>, id: nat, promise: Promise, a: AccountId, p: ProductId, terms: Terms, jar: Jar,
                         book: Book, flag: bool, now: Timestamp)
    requires terms.Fixed? && id !in pending
    requires forall other :: other in pending ==> !Owns(pending[other], a, p)
    requires promise.AfterClaim? && Owns(promise, a, p)
    requires Balanced(terms, Core(jar), book, flag, now)
    requires Flight(promise, p, terms, jar, book, flag, now)
    ensures TracksJar(pending[id := promise], a, p, terms, jar, book, flag, now)
  {
    var pending' := pending[id := promise];
    assert forall other :: other in pending' && other != id ==> other in pending && pending'[other] == pending[other];
    assert pending'[id] == promise;
    SoleOwnerTracks(pending', id, a, p, terms, jar, book, flag, now);
  }

  lemma SoleOwnerTracks(pending: map<nat, Promise>, id: nat, a: AccountId, p: ProductId, terms: Terms, jar: Jar,
                        book: Book, flag: bool, now: Timestamp)
    requires terms.Fixed? && id in pending
    requires pending[id].AfterClaim? && Owns(pending[id], a, p)
    requires forall other :: other in pending && Owns(pending[other], a, p) ==> other == id
    requires Balanced(terms, Core(jar), book, flag, now)
    requires Flight(pending[id], p, terms, jar, book, flag, now)
    ensures TracksJar(pending, a, p, terms, jar, book, flag, now)
  {
    assert InClaimNow(pending, a, p);
    forall other | other in pending && Owns(pending[other], a, p) ensures Flight(pending[other], p, terms, jar, book, flag, now) {
      assert other == id;
    }
  }

  lemma LaterSavedBalanced(terms: Terms, jar: Jar, book: Book, flag: bool, interest: TokenAmount, now: Timestamp)
    requires terms.Fixed? && book.inFlight == 0
    requires Balanced(terms, jar, book, flag, now)
    ensures Balanced(terms, jar, Restored(BookClaimed(book, interest, now), flag), flag, now)
  {
    var restored := Restored(BookClaimed(book, interest, now), flag);
    RebasedFlags(book.toggles, book.upTo, flag);
    SnapshotBalanced(terms, jar, book, flag, book.(toggles := restored.toggles), flag, now);
    assert Gone(jar, restored) == Gone(jar, book);
  }

  /** Dropping a promise of other jars. */
  lemma OtherResolvedTracks(pending: map<nat, Promise>, id: nat, a: AccountId, p: ProductId, terms: Terms, jar: Jar, book: Book,
                            jar': Jar, book': Book, flag: bool, now: Timestamp)
    requires terms.Fixed? && id in pending && !Owns(pending[id], a, p)
    requires TracksJar(pending, a, p, terms, jar, book, flag, now)
    requires Follows(terms, jar, book, flag, jar', book', flag, now)
    ensures TracksJar(pending - {id}, a, p, terms, jar', book', flag, now)
  {
    var pending' := pending - {id};
    forall other | other in pending' && Owns(pending'[other], a, p)
      ensures Flight(pending'[other], p, terms, jar', book', flag, now)
    {
      assert Flight(pending[other], p, terms, jar, book, flag, now);
    }
    ClaimStaysPending(pending, pending', a, p);
  }

  /** Dropping the one promise that owned the jar. */
  lemma OwnResolvedTracks(pending: map<nat, Promise>, id: nat, a: AccountId, p: ProductId, terms: Terms, jar': Jar, book': Book,
                          flag: bool, now: Timestamp)
    requires terms.Fixed? && id in pending
    requires forall other :: other in pending && Owns(pending[other], a, p) ==> other == id
    requires Balanced(terms, Core(jar'), book', flag, now) && book'.inFlight == 0
    ensures TracksJar(pending - {id}, a, p, terms, jar', book', flag, now)
  {
    var pending' := pending - {id};
    forall other | other in pending' ensures !Owns(pending'[other], a, p) {
      assert other in pending && other != id;
    }
  }

  lemma LaterFlight(terms: Terms, jar: Jar, book: Book, flag: bool, promise: Promise, p: ProductId, now: Timestamp, later: Timestamp)
    requires terms.Fixed? && now <= later
    requires Flight(promise, p, terms, jar, book, flag, now)
    ensures Flight(promise, p, terms, jar, book, flag, later)
  {
  }

  // --- The book along the actions ---------------------------------------------

  function BookDeposit(book: Book, amount: TokenAmount, now: Timestamp): Book {
    book.(history := book.history + [Deposit(now, amount)])
  }

  function BookRefreshed(book: Book, now: Timestamp): Book {
    book.(upTo := now)
  }

  function BookAirdrop(book: Book, a: AccountId, amount: TokenAmount, receivers: seq<AccountId>, now: Timestamp): Book {
    if receivers == [] then book else
      var n := |receivers| - 1;
      var before := BookAirdrop(book, a, amount, receivers[..n], now);
      if receivers[n] == a then BookRefreshed(BookDeposit(before, amount, now), now) else before
  }

  function BookUpdated(book: Book, update: Update, now: Timestamp): Book {
    if !update.SetFeature? then book
    else if update.feature.IncreasedApy? then
      BookRefreshed(book, now).(toggles := book.toggles + [Toggle(now, update.isEnabled)])
    else BookRefreshed(book, now)
  }

  function BookUpdatedAll(book: Book, a: AccountId, batch: seq<(AccountId, Update)>, now: Timestamp): Book {
    if batch == [] then book else
      var n := |batch| - 1;
      var before := BookUpdatedAll(book, a, batch[..n], now);
      if batch[n].0 == a then BookUpdated(before, batch[n].1, now) else before
  }

  function BookMoved(book: Book, p: ProductId, parts: map<ProductId, Part>, into: ProductId, amount: TokenAmount, isMoved: bool, now: Timestamp): Book {
    var refreshed := if p in parts then BookRefreshed(book, now) else book;
    if isMoved && p == into then BookDeposit(refreshed, amount, now) else refreshed
  }

  function BookPaid(book: Book): Book {
    book.(claimed := book.claimed + book.inFlight, inFlight := 0)
  }

  function BookClosed(book: Book, jar: Jar, isClosed: bool): Book {
    if isClosed then book.(dropped := book.dropped + jar.claimRemainder) else book
  }

  /** A callback: the claimed interest is paid or restored, a closing jar drops its
      remainder, a finished restake makes a deposit. */
  function BookResolved(book: Book, promise: Promise, isSuccess: bool, a: AccountId, p: ProductId, jar: Jar, isClosed: bool, flag: bool, now: Timestamp): Book {
    if promise.AfterFee? || promise.account != a then book
    else
      match promise
      case AfterClaim(_, rollback, _, _, _) =>
        if p !in rollback then book
        else if isSuccess then BookClosed(BookPaid(book), jar, isClosed)
        else Restored(book, flag)
      case AfterWithdraw(_, _, _) => BookClosed(book, jar, isClosed)
      case AfterRemainder(_, _, _, _, into, restaked, _) =>
        if isSuccess && into == p then BookDeposit(book, restaked, now) else book
      case AfterFee(_) => book
  }

  function BookAfterCallback(w: World, w': World, id: nat, isSuccess: bool, a: AccountId, p: ProductId, book: Book): Book
    requires id in w.pending
  {
    var before, after := AccountOrNew(w.contract, a, w.now), AccountOrNew(w'.contract, a, w.now);
    BookResolved(book, w.pending[id], isSuccess, a, p, JarOf(before, p), p in before.jars && p !in after.jars,
                 before.features.increasedApy, w.now)
  }

  ghost function BookRestaked(book: Book, w: World, source: Source, ticket: Ticket, target: Option<TokenAmount>,
                              b: AccountId, a: AccountId, p: ProductId): Book
    requires Inv(w) && b in w.contract.accounts
    requires Parts(w.contract.accounts[b], w.contract.products, source, w.now).Ok?
  {
    if b != a then book else
      var parts := Parts(w.contract.accounts[a], w.contract.products, source, w.now).value;
      var total := TotalBalance(parts);
      var amount := target.GetOr(total);
      BookMoved(book, p, parts, ticket.productId, amount, amount == total, w.now)
  }

  /** A migrated jar brings what it owes; from its cached moment on its deposits
      count like all others. */
  function BookBrought(terms: Terms, jar: Jar, flag: bool): Book
    requires terms.Fixed?
  {
    var upTo, toggles := if jar.cache.Some? then jar.cache.value.updatedAt else 0, [Toggle(0, flag)];
    Book(jar.deposits, 0, 0, 0, upTo, 0, toggles, OwedUnits(jar), TotalEarned(terms, toggles, jar.deposits, upTo))
  }

  function BookMigrated(products: map<ProductId, Product>, account: Account, p: ProductId): Book {
    if p in products && products[p].terms.Fixed? then BookBrought(products[p].terms, JarOf(account, p), account.features.increasedApy)
    else EMPTY_BOOK.(toggles := [Toggle(0, account.features.increasedApy)])
  }

  ghost function BookAct(env: Env, w: World, action: Action, a: AccountId, p: ProductId, book: Book): Book
    requires Inv(w)
  {
    if Act(env, w, action).Err? then book else
      var c, now := w.contract, w.now;
      match action
      case DoStake(b, ticket, _, amount) =>
        if b == a && ticket.productId == p then BookRefreshed(BookDeposit(book, amount, now), now) else book
      case DoAirdrop(ticket, _, amount, receivers, _, _) =>
        if ticket.productId == p then BookAirdrop(book, a, amount / |receivers|, receivers, now) else book
      case DoWithdraw(b, q) => if b == a && q == p then BookRefreshed(book, now) else book
      case DoWithdrawAll(b, _) => if b == a then BookRefreshed(book, now) else book
      case DoClaim(b) =>
        var promise := ClaimTotal(b, c.accounts[b], c.products, now).value.promise;
        if b == a && p in OwnedBy(promise) && p in promise.value.amounts then BookClaimed(book, promise.value.amounts[p], now) else book
      case DoRestake(b, source, ticket, _, target) =>
        BookRestaked(book, w, source, ticket, target, b, a, p)
      case DoSetFeature(b, feature, isEnabled) => if b == a then BookUpdated(book, SetFeature(feature, isEnabled), now) else book
      case DoUpdateAll(batch) => BookUpdatedAll(book, a, batch, now)
      case DoMigrate(b, account, _) => if b == a then BookMigrated(c.products, account, p) else book
      case Resolve(id, isSuccess) =>
        BookAfterCallback(w, Act(env, w, action).value, id, isSuccess, a, p, book)
      case _ => book
  }

  // --- Worlds -----------------------------------------------------------------

  /** A fixed-term product whose largest deposit never saturates over one term. */
  ghost predicate Fits(product: Product) {
    product.terms.Fixed? && Unsaturated(product.terms, product.capMax)
  }

  ghost predicate Blank(book: Book, flag: bool, now: Timestamp) {
    && book.history == [] && book.claimed == 0 && book.inFlight == 0 && book.dropped == 0
    && book.brought == 0 && book.earnedBefore == 0
    && book.upTo <= now && ConstantFrom(book.toggles, book.upTo, flag)
  }

  ghost predicate TracksIn(w: World, a: AccountId, account: Account, p: ProductId, book: Book) {
    if p !in w.contract.products then Blank(book, account.features.increasedApy, w.now)
    else Fits(w.contract.products[p]) ==>
      TracksJar(w.pending, a, p, w.contract.products[p].terms, JarOf(account, p), book, account.features.increasedApy, w.now)
  }

  ghost predicate Tracks(w: World, a: AccountId, p: ProductId, book: Book) {
    TracksIn(w, a, AccountOrNew(w.contract, a, w.now), p, book)
  }
}
