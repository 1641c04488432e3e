/** Callbacks keep every book balanced, whatever the outcome of the transfer. */
module TrackedCallbacks {
  import opened Numbers
  import opened Types
  import opened Jars
  import opened Accounts
  import opened Promises
  import opened Contracts
  import opened Protocol
  import opened Accrual
  import opened Books
  import opened Ledgers
  import opened Tracking
  import opened TrackedCalls

  // --- The jar of a finished promise ------------------------------------------

  ghost predicate SoleOwner(pending: map<nat, Promise>, id: nat, a: AccountId, p: ProductId) {
    && id in pending && Owns(pending[id], a, p)
    && forall other :: other in pending && Owns(pending[other], a, p) ==> other == id
  }

  lemma HoldIsNoClaim(pending: map<nat, Promise>, id: nat, a: AccountId, p: ProductId)
    requires SoleOwner(pending, id, a, p) && !pending[id].AfterClaim?
    ensures !InClaimNow(pending, a, p)
  {
  }

  /** The jar is unlocked, and closed if it is empty. */
  predicate Released(jar: Jar, jar': Jar, isClosed: bool) {
    if isClosed then ShouldClose(jar) && jar' == DEFAULT_JAR else Core(jar') == Core(jar)
  }

  lemma ReleasedBalanced(terms: Terms, jar: Jar, jar': Jar, isClosed: bool, book: Book, flag: bool, now: Timestamp)
    requires terms.Fixed? && Released(jar, jar', isClosed)
    requires Balanced(terms, Core(jar), book, flag, now)
    ensures Balanced(terms, Core(jar'), BookClosed(book, jar, isClosed), flag, now)
  {
    if isClosed {
      CloseBalanced(terms, Core(jar), book, flag, now);
    }
  }

  /** A finished withdrawal or restake takes out deposits that have run out. */
  lemma TakenTracks(pending: map<nat, Promise>, id: nat, a: AccountId, p: ProductId, terms: Terms, jar: Jar, index: nat,
                    jar': Jar, isClosed: bool, book: Book, flag: bool, now: Timestamp)
    requires terms.Fixed? && SoleOwner(pending, id, a, p) && !pending[id].AfterClaim?
    requires TracksJar(pending, a, p, terms, jar, book, flag, now)
    requires HeldRunOut(terms, jar, index, book.upTo)
    requires Released(WithoutPrefix(jar, index), jar', isClosed)
    ensures TracksJar(pending - {id}, a, p, terms, jar', BookClosed(book, jar, isClosed), flag, now)
  {
    HoldIsNoClaim(pending, id, a, p);
    DropBalanced(terms, Core(jar), book, flag, index, now);
    assert Core(WithoutPrefix(jar, index)) == WithoutPrefix(Core(jar), index);
    ReleasedBalanced(terms, WithoutPrefix(jar, index), jar', isClosed, book, flag, now);
    OwnResolvedTracks(pending, id, a, p, terms, jar', BookClosed(book, jar, isClosed), flag, now);
  }

  lemma UnlockedTracks(pending: map<nat, Promise>, id: nat, a: AccountId, p: ProductId, terms: Terms, jar: Jar, jar': Jar,
                       book: Book, flag: bool, now: Timestamp)
    requires terms.Fixed? && SoleOwner(pending, id, a, p) && !pending[id].AfterClaim?
    requires TracksJar(pending, a, p, terms, jar, book, flag, now)
    requires Core(jar') == Core(jar)
    ensures TracksJar(pending - {id}, a, p, terms, jar', book, flag, now)
  {
    HoldIsNoClaim(pending, id, a, p);
    OwnResolvedTracks(pending, id, a, p, terms, jar', book, flag, now);
  }

  lemma PaidBalanced(terms: Terms, jar: Jar, book: Book, flag: bool, now: Timestamp)
    requires terms.Fixed? && Balanced(terms, jar, book, flag, now)
    ensures Balanced(terms, jar, BookPaid(book), flag, now)
  {
    assert Gone(jar, BookPaid(book)) == Gone(jar, book);
  }

  lemma PaidTracks(pending: map<nat, Promise>, id: nat, a: AccountId, p: ProductId, terms: Terms, jar: Jar,
                   jar': Jar, isClosed: bool, book: Book, flag: bool, now: Timestamp)
    requires terms.Fixed? && SoleOwner(pending, id, a, p)
    requires TracksJar(pending, a, p, terms, jar, book, flag, now)
    requires Released(jar, jar', isClosed)
    ensures TracksJar(pending - {id}, a, p, terms, jar', BookClosed(BookPaid(book), jar, isClosed), flag, now)
  {
    PaidBalanced(terms, Core(jar), book, flag, now);
    ReleasedBalanced(terms, jar, jar', isClosed, BookPaid(book), flag, now);
    OwnResolvedTracks(pending, id, a, p, terms, jar', BookClosed(BookPaid(book), jar, isClosed), flag, now);
  }

  lemma RestoredTracks(pending: map<nat, Promise>, id: nat, a: AccountId, p: ProductId, terms: Terms, jar: Jar,
                       jar': Jar, book: Book, flag: bool, now: Timestamp)
    requires terms.Fixed? && SoleOwner(pending, id, a, p) && pending[id].AfterClaim?
    requires TracksJar(pending, a, p, terms, jar, book, flag, now)
    requires jar' == Applied(jar, pending[id].rollback[p])
    ensures TracksJar(pending - {id}, a, p, terms, jar', Restored(book, flag), flag, now)
  {
    assert Flight(pending[id], p, terms, jar, book, flag, now);
    OwnResolvedTracks(pending, id, a, p, terms, jar', Restored(book, flag), flag, now);
  }

  // --- The account after a callback -------------------------------------------

  /** What a callback on the account does to one jar. */
  predicate IsFinish(promise: Promise, isSuccess: bool, before: Account, after: Account, p: ProductId, now: Timestamp) {
    var jar, jar' := JarOf(before, p), JarOf(after, p);
    var isClosed := p in before.jars && p !in after.jars;
    match promise
    case AfterFee(_) => false
    case AfterWithdraw(_, requests, _) =>
      if p in requests && isSuccess then
        requests[p].index <= |jar.deposits| && Released(WithoutPrefix(jar, requests[p].index), jar', isClosed)
      else !isClosed && Core(jar') == Core(jar)
    case AfterRemainder(_, parts, _, _, into, restaked, _) =>
      && !isClosed
      && if isSuccess then
           && (p in parts ==> parts[p].index <= |jar.deposits|)
           && Core(jar') == Core(RestakedJar(jar, PartOf(parts, p), AddedTo(p, into, restaked, now)))
         else Core(jar') == Core(jar)
    case AfterClaim(_, rollback, _, _, _) =>
      if p in rollback then
        if isSuccess then Released(jar, jar', isClosed) else !isClosed && jar' == Applied(jar, rollback[p])
      else !isClosed && jar' == jar
  }

  function RestakedJar(jar: Jar, part: Option<Part>, added: Option<Deposit>): Jar
    requires part.Some? ==> part.value.index <= |jar.deposits|
  {
    var kept := if part.Some? then WithoutPrefix(jar, part.value.index) else jar;
    if added.Some? then WithDeposit(kept, added.value) else kept
  }

  lemma FinishIsFinish(c: State, promise: Promise, isSuccess: bool, p: ProductId, now: Timestamp)
    requires !promise.AfterFee? && Finish(c, promise, isSuccess, now).Ok?
    ensures promise.account in c.accounts
    ensures var after := Finish(c, promise, isSuccess, now).value.accounts[promise.account];
            && IsFinish(promise, isSuccess, c.accounts[promise.account], after, p, now)
            && after.features == c.accounts[promise.account].features
  {
  }

  // --- The book after a callback ----------------------------------------------

  lemma RestakedTracks(pending: map<nat, Promise>, id: nat, a: AccountId, p: ProductId, terms: Terms, jar: Jar, jar': Jar, added: Option<Deposit>,
                       book: Book, flag: bool, now: Timestamp)
    requires terms.Fixed? && id in pending && pending[id].AfterRemainder?
    requires Owns(pending[id], a, p) ==> SoleOwner(pending, id, a, p)
    requires pending[id].account == a
    requires TracksJar(pending, a, p, terms, jar, book, flag, now)
    requires p in pending[id].parts ==> pending[id].parts[p].index <= |jar.deposits|
    requires added.Some? ==> added.value.createdAt == now && Unsaturated(terms, added.value.principal)
    requires Core(jar') == Core(RestakedJar(jar, PartOf(pending[id].parts, p), added))
    ensures TracksJar(pending - {id}, a, p, terms, jar', if added.Some? then BookDeposit(book, added.value.principal, now) else book, flag, now)
  {
    var kept := RestakedJar(jar, PartOf(pending[id].parts, p), None);
    if Owns(pending[id], a, p) {
      assert Flight(pending[id], p, terms, jar, book, flag, now);
      TakenTracks(pending, id, a, p, terms, jar, pending[id].parts[p].index, kept, false, book, flag, now);
    } else {
      SameFollows(terms, jar, book, flag, kept, now);
      OtherResolvedTracks(pending, id, a, p, terms, jar, book, kept, book, flag, now);
    }
    AddedTracks(pending - {id}, a, p, terms, kept, added, jar', book, flag, now);
  }

  lemma UntouchedTracks(pending: map<nat, Promise>, id: nat, a: AccountId, p: ProductId, terms: Terms, jar: Jar, jar': Jar, book: Book,
                        flag: bool, now: Timestamp)
    requires terms.Fixed? && id in pending
    requires Owns(pending[id], a, p) ==> SoleOwner(pending, id, a, p) && !pending[id].AfterClaim?
    requires TracksJar(pending, a, p, terms, jar, book, flag, now)
    requires Core(jar') == Core(jar)
    ensures TracksJar(pending - {id}, a, p, terms, jar', book, flag, now)
  {
    if Owns(pending[id], a, p) {
      UnlockedTracks(pending, id, a, p, terms, jar, jar', book, flag, now);
    } else {
      SameFollows(terms, jar, book, flag, jar', now);
      OtherResolvedTracks(pending, id, a, p, terms, jar, book, jar', book, flag, now);
    }
  }

  lemma FinishTracks(pending: map<nat, Promise>, id: nat, isSuccess: bool, before: Account, after: Account, a: AccountId, p: ProductId,
                     terms: Terms, book: Book, flag: bool, now: Timestamp)
    requires terms.Fixed? && id in pending && !pending[id].AfterFee? && pending[id].account == a
    requires Owns(pending[id], a, p) ==> SoleOwner(pending, id, a, p)
    requires TracksJar(pending, a, p, terms, JarOf(before, p), book, flag, now)
    requires IsFinish(pending[id], isSuccess, before, after, p, now)
    requires pending[id].AfterRemainder? && pending[id].into == p ==> Unsaturated(terms, pending[id].restaked)
    ensures TracksJar(pending - {id}, a, p, terms, JarOf(after, p),
                      BookResolved(book, pending[id], isSuccess, a, p, JarOf(before, p), p in before.jars && p !in after.jars, flag, now), flag, now)
  {
    var promise, jar, jar' := pending[id], JarOf(before, p), JarOf(after, p);
    var isClosed := p in before.jars && p !in after.jars;
    match promise
    case AfterWithdraw(_, requests, _) =>
      if p in requests && isSuccess {
        assert Flight(promise, p, terms, jar, book, flag, now);
        TakenTracks(pending, id, a, p, terms, jar, requests[p].index, jar', isClosed, book, flag, now);
      } else {
        UntouchedTracks(pending, id, a, p, terms, jar, jar', book, flag, now);
      }
    case AfterRemainder(_, parts, _, _, into, restaked, _) =>
      if isSuccess {
        RestakedTracks(pending, id, a, p, terms, jar, jar', AddedTo(p, into, restaked, now), book, flag, now);
      } else {
        UntouchedTracks(pending, id, a, p, terms, jar, jar', book, flag, now);
      }
    case AfterClaim(_, rollback, _, _, _) =>
      if p !in rollback {
        UntouchedTracks(pending, id, a, p, terms, jar, jar', book, flag, now);
      } else if isSuccess {
        PaidTracks(pending, id, a, p, terms, jar, jar', isClosed, book, flag, now);
      } else {
        RestoredTracks(pending, id, a, p, terms, jar, jar', book, flag, now);
      }
  }

  lemma OwnerIsSole(w: World, id: nat, a: AccountId, p: ProductId)
    requires Inv(w) && id in w.pending && Owns(w.pending[id], a, p)
    ensures SoleOwner(w.pending, id, a, p)
  {
  }

  /** The callback's effect on one jar of any account. */
  lemma ForeignFinishTracks(w: World, id: nat, w': World, a: AccountId, p: ProductId, book: Book)
    requires Inv(w) && Tracks(w, a, p, book) && id in w.pending
    requires w.pending[id].AfterFee? || w.pending[id].account != a
    requires AccountOrNew(w'.contract, a, w.now) == AccountOrNew(w.contract, a, w.now)
    requires w'.pending == w.pending - {id} && w'.now == w.now && w'.contract.products == w.contract.products
    ensures Tracks(w', a, p, book)
  {
    var account, products := AccountOrNew(w.contract, a, w.now), w.contract.products;
    if p in products && Fits(products[p]) {
      UntouchedTracks(w.pending, id, a, p, products[p].terms, JarOf(account, p), JarOf(account, p), book, account.features.increasedApy, w.now);
    }
  }

  lemma OwnFinishTracks(w: World, id: nat, isSuccess: bool, before: Account, after: Account, a: AccountId, p: ProductId, book: Book)
    requires Inv(w) && id in w.pending && !w.pending[id].AfterFee? && w.pending[id].account == a
    requires a in w.contract.accounts && before == w.contract.accounts[a]
    requires p in w.contract.products && Fits(w.contract.products[p])
    requires TracksJar(w.pending, a, p, w.contract.products[p].terms, JarOf(before, p), book, before.features.increasedApy, w.now)
    requires IsFinish(w.pending[id], isSuccess, before, after, p, w.now)
    ensures TracksJar(w.pending - {id}, a, p, w.contract.products[p].terms, JarOf(after, p),
                      BookResolved(book, w.pending[id], isSuccess, a, p, JarOf(before, p), p in before.jars && p !in after.jars,
                                   before.features.increasedApy, w.now),
                      before.features.increasedApy, w.now)
  {
    var promise, product := w.pending[id], w.contract.products[p];
    if Owns(promise, a, p) {
      OwnerIsSole(w, id, a, p);
    }
    assert WellFormed(w.contract, promise);
    if promise.AfterRemainder? && promise.into == p {
      SmallerIsUnsaturated(product.terms, promise.restaked, product.capMax);
    }
    FinishTracks(w.pending, id, isSuccess, before, after, a, p, product.terms, book, before.features.increasedApy, w.now);
  }

  /** No callback touches the jar of a product that is not registered. */
  lemma UnregisteredStays(w: World, id: nat, isSuccess: bool, a: AccountId, p: ProductId, jar: Jar, book: Book, flag: bool)
    requires Inv(w) && id in w.pending && p !in w.contract.products
    ensures BookResolved(book, w.pending[id], isSuccess, a, p, jar, false, flag, w.now) == book
  {
    assert Grounded(w.contract, w.pending[id]) && WellFormed(w.contract, w.pending[id]);
  }

  lemma ResolvedTracks(w: World, id: nat, isSuccess: bool, a: AccountId, p: ProductId, book: Book)
    requires Inv(w) && Tracks(w, a, p, book) && id in w.pending
    requires Resolved(w, id, isSuccess).Ok?
    ensures var w' := Resolved(w, id, isSuccess).value;
            Tracks(w', a, p, BookAfterCallback(w, w', id, isSuccess, a, p, book))
  {
    var promise, w' := w.pending[id], Resolved(w, id, isSuccess).value;
    var before, after := AccountOrNew(w.contract, a, w.now), AccountOrNew(w'.contract, a, w.now);
    if promise.AfterFee? || promise.account != a {
      ForeignFinishTracks(w, id, w', a, p, book);
    } else {
      FinishIsFinish(w.contract, promise, isSuccess, p, w.now);
      if p !in w.contract.products {
        UnregisteredStays(w, id, isSuccess, a, p, JarOf(before, p), book, before.features.increasedApy);
      } else if Fits(w.contract.products[p]) {
        OwnFinishTracks(w, id, isSuccess, before, after, a, p, book);
      }
    }
  }
}
