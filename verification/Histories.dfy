/** The book of every fixed-term jar over every run: what the contract caches,
    pays and carries over is the integral of the rate, whatever happens in
    between and in whatever order. */
module Histories {
  import opened Numbers
  import opened Types
  import opened Interest
  import opened Jars
  import opened Accounts
  import opened Promises
  import opened Tickets
  import opened Contracts
  import opened Protocol
  import opened Safety
  import opened Accrual
  import opened Books
  import opened Ledgers
  import opened Tracking
  import opened TrackedCalls
  import opened TrackedCallbacks

  // --- One step ---------------------------------------------------------------

  predicate Migrates(action: Action, a: AccountId) {
    action.DoMigrate? && action.a == a
  }

  lemma ActTracks(env: Env, w: World, action: Action, a: AccountId, p: ProductId, book: Book)
    requires Inv(w) && Tracks(w, a, p, book)
    requires Act(env, w, action).Ok? && IsAdmissible(w, w.now, action) && MigrantFits(w, action, a, p)
    ensures Tracks(Act(env, w, action).value, a, p, BookAct(env, w, action, a, p, book))
  {
    if action.DoStake? {
      DoStakeTracks(env, w, action, a, p, book);
    } else if action.DoAirdrop? {
      DoAirdropTracks(env, w, action, a, p, book);
    } else if IsOwnersCall(action) {
      OwnersCallTracks(env, w, action, a, p, book);
    } else if action.Resolve? {
      ResolvedTracks(w, action.id, action.isSuccess, a, p, book);
    } else if action.DoSetFeature? || action.DoUpdateAll? {
      SettingsTrack(env, w, action, a, p, book);
    } else if IsProductCall(action) {
      ProductCallTracks(env, w, action, a, p, book);
    } else {
      OperatorTracks(env, w, action, a, p, book);
    }
  }

  lemma SettingsTrack(env: Env, w: World, action: Action, a: AccountId, p: ProductId, book: Book)
    requires Inv(w) && Tracks(w, a, p, book)
    requires action.DoSetFeature? || action.DoUpdateAll?
    requires Act(env, w, action).Ok?
    ensures Tracks(Act(env, w, action).value, a, p, BookAct(env, w, action, a, p, book))
  {
    match action
    case DoSetFeature(b, feature, isEnabled) => SettingTracks(w, b, feature, isEnabled, a, p, book);
    case DoUpdateAll(batch) => UpdateAllTracks(w, batch, a, p, book);
  }

  predicate IsOwnersCall(action: Action) {
    action.DoWithdraw? || action.DoWithdrawAll? || action.DoRestake? || action.DoClaim?
  }

  predicate IsProductCall(action: Action) {
    action.DoRegister? || action.DoSetEnabled? || action.DoSetPublicKey?
  }

  lemma OwnersCallTracks(env: Env, w: World, action: Action, a: AccountId, p: ProductId, book: Book)
    requires Inv(w) && Tracks(w, a, p, book)
    requires Act(env, w, action).Ok? && IsOwnersCall(action)
    ensures Tracks(Act(env, w, action).value, a, p, BookAct(env, w, action, a, p, book))
  {
    match action
    case DoWithdraw(b, q) => WithdrawTracks(w, b, q, a, p, book);
    case DoWithdrawAll(b, ps) => WithdrawAllTracks(w, b, ps, a, p, book);
    case DoRestake(b, source, ticket, signature, target) => RestakeTracks(env, w, b, source, ticket, signature, target, a, p, book);
    case DoClaim(b) => ClaimTracks(w, b, a, p, book);
  }

  lemma OperatorTracks(env: Env, w: World, action: Action, a: AccountId, p: ProductId, book: Book)
    requires Inv(w) && Tracks(w, a, p, book)
    requires Act(env, w, action).Ok? && IsAdmissible(w, w.now, action) && MigrantFits(w, action, a, p)
    requires !action.DoStake? && !action.DoAirdrop? && !IsOwnersCall(action) && !action.Resolve?
    requires !action.DoSetFeature? && !action.DoUpdateAll? && !IsProductCall(action)
    ensures Tracks(Act(env, w, action).value, a, p, BookAct(env, w, action, a, p, book))
  {
    match action
    case DoMigrate(b, account, amount) =>
      if b == a {
        MigrateTracks(w.(accepted := w.accepted + amount), account, amount, a, p);
      }
    case DoWithdrawFee => WithdrawFeeTracks(w, a, p, book);
    case DoSetTimezone(b, timezone) => TimezoneTracks(w, b, timezone, a, p, book);
  }

  lemma ProductCallTracks(env: Env, w: World, action: Action, a: AccountId, p: ProductId, book: Book)
    requires Inv(w) && Tracks(w, a, p, book)
    requires IsProductCall(action)
    requires Act(env, w, action).Ok?
    ensures Tracks(Act(env, w, action).value, a, p, BookAct(env, w, action, a, p, book))
  {
    ProductsTrack(w, Act(env, w, action).value, a, p, book);
  }

  lemma DoStakeTracks(env: Env, w: World, action: Action, a: AccountId, p: ProductId, book: Book)
    requires Inv(w) && Tracks(w, a, p, book)
    requires action.DoStake? && Act(env, w, action).Ok?
    ensures Tracks(Act(env, w, action).value, a, p, BookAct(env, w, action, a, p, book))
  {
    StakeTracks(env, w.(accepted := w.accepted + action.amount), action.receiver, action.ticket, action.signature, action.amount, a, p, book);
  }

  lemma DoAirdropTracks(env: Env, w: World, action: Action, a: AccountId, p: ProductId, book: Book)
    requires Inv(w) && Tracks(w, a, p, book)
    requires action.DoAirdrop? && Act(env, w, action).Ok?
    ensures Tracks(Act(env, w, action).value, a, p, BookAct(env, w, action, a, p, book))
  {
    AcceptedAirdropTracks(env, w.(accepted := w.accepted + action.amount), action.ticket, action.signature, action.amount, action.receivers,
                          action.booster, action.earnedAt, a, p, book);
  }

  lemma AcceptedAirdropTracks(env: Env, w: World, ticket: Ticket, signature: Option<string>, amount: TokenAmount, receivers: seq<AccountId>,
                              booster: Score, earnedAt: Option<Timestamp>, a: AccountId, p: ProductId, book: Book)
    requires Inv(w) && Tracks(w, a, p, book)
    requires Airdrop(env, w.contract, ticket, signature, amount, receivers, booster, earnedAt, w.now).Ok?
    ensures Tracks(w.(contract := Airdrop(env, w.contract, ticket, signature, amount, receivers, booster, earnedAt, w.now).value), a, p,
                   if ticket.productId == p then BookAirdrop(book, a, amount / |receivers|, receivers, w.now) else book)
  {
    AirdropTracks(w, ticket, amount / |receivers|, receivers, booster, earnedAt, a, p, book);
  }

  ghost function BookStep(env: Env, w: World, entry: Entry, a: AccountId, p: ProductId, book: Book): Book
    requires Inv(w)
  {
    if !IsAdmissible(w, entry.at, entry.action) then book else
      LaterKeepsInv(w, entry.at);
      BookAct(env, w.(now := entry.at), entry.action, a, p, book)
  }

  lemma StepTracks(env: Env, w: World, entry: Entry, a: AccountId, p: ProductId, book: Book)
    requires Inv(w) && Tracks(w, a, p, book) && MigrantFits(w, entry.action, a, p)
    ensures Tracks(Next(env, w, entry), a, p, BookStep(env, w, entry, a, p, book))
  {
    if IsAdmissible(w, entry.at, entry.action) {
      StepIsAct(env, w, entry);
      LaterTracks(w, entry.at, a, p, book);
      if Act(env, w.(now := entry.at), entry.action).Ok? {
        ActTracks(env, w.(now := entry.at), entry.action, a, p, book);
      }
    }
  }

  // --- Runs -------------------------------------------------------------------

  ghost function BookAfter(env: Env, w: World, entries: seq<Entry>, a: AccountId, p: ProductId): Book
    requires Inv(w)
  {
    if entries == [] then EMPTY_BOOK else
      var n := |entries| - 1;
      BookStep(env, Run(env, w, entries[..n]), entries[n], a, p, BookAfter(env, w, entries[..n], a, p))
  }

  /** Whenever the account is migrated, its deposits fit. */
  ghost predicate MigrantsFit(env: Env, w: World, entries: seq<Entry>, a: AccountId, p: ProductId)
    requires Inv(w)
  {
    entries == [] || (
      && MigrantsFit(env, w, entries[..|entries| - 1], a, p)
      && MigrantFits(Run(env, w, entries[..|entries| - 1]), entries[|entries| - 1].action, a, p))
  }

  lemma {:induction false} NeverMigratedFits(env: Env, w: World, entries: seq<Entry>, a: AccountId, p: ProductId)
    requires Inv(w)
    requires forall i :: 0 <= i < |entries| ==> !Migrates(entries[i].action, a)
    ensures MigrantsFit(env, w, entries, a, p)
  {
    if entries != [] {
      NeverMigratedFits(env, w, entries[..|entries| - 1], a, p);
    }
  }

  lemma {:induction false} RunTracks(env: Env, start: Timestamp, entries: seq<Entry>, a: AccountId, p: ProductId)
    requires Inv(NewWorld(start)) && MigrantsFit(env, NewWorld(start), entries, a, p)
    ensures Tracks(Run(env, NewWorld(start), entries), a, p, BookAfter(env, NewWorld(start), entries, a, p))
  {
    if entries != [] {
      var n := |entries| - 1;
      RunTracks(env, start, entries[..n], a, p);
      StepTracks(env, Run(env, NewWorld(start), entries[..n]), entries[n], a, p, BookAfter(env, NewWorld(start), entries[..n], a, p));
    }
  }

  /** What the jar owes at a moment, besides what has been claimed: tokens and
      remainder as the contract computes them, in units. */
  function OwedAt(terms: Terms, flag: bool, jar: Jar, moment: Timestamp): nat
    requires terms.Fixed?
  {
    var (interest, remainder) := JarInterest(PlainRate(terms, flag), jar, moment);
    Units(interest, remainder)
  }

  /** Everything the jar will ever have been good for by a moment, in units: owed,
      claimed, in flight, and dropped by closing. */
  function Credited(terms: Terms, flag: bool, jar: Jar, book: Book, moment: Timestamp): nat
    requires terms.Fixed?
  {
    OwedAt(terms, flag, jar, moment) + (book.claimed + book.inFlight) * MS_IN_YEAR + book.dropped
  }

  lemma OwedIsEarned(terms: Terms, jar: Jar, book: Book, flag: bool, now: Timestamp, later: Timestamp)
    requires terms.Fixed? && now <= later
    requires Balanced(terms, Core(jar), book, flag, now)
    ensures Credited(terms, flag, jar, book, later) + book.earnedBefore
         == book.brought + TotalEarned(terms, book.toggles, book.history, later)
  {
    AdvanceEarned(terms, Core(jar), book, flag, PlainRate(terms, flag), now, later);
    JarInterestIsExact(PlainRate(terms, flag), jar, later);
  }

  /** The central law. After any run of deposits, claims, withdrawals, restakes,
      toggles and callbacks with any outcomes, in any order: everything ever
      credited to a fixed-term jar is exactly the integral of its rate over every
      deposit ever put into it, up to the cached moment and at any later one; a
      migrated jar counts on from what it brought. */
  lemma CacheIsTheIntegral(env: Env, start: Timestamp, entries: seq<Entry>, a: AccountId, p: ProductId, later: Timestamp)
    requires Inv(NewWorld(start)) && MigrantsFit(env, NewWorld(start), entries, a, p)
    ensures var w := Run(env, NewWorld(start), entries);
            var book := BookAfter(env, NewWorld(start), entries, a, p);
            var account := AccountOrNew(w.contract, a, w.now);
            var jar, flag := JarOf(account, p), account.features.increasedApy;
            p in w.contract.products && Fits(w.contract.products[p]) && w.now <= later ==>
              var terms := w.contract.products[p].terms;
              && Accounted(jar, book) + book.earnedBefore == book.brought + TotalEarned(terms, book.toggles, book.history, book.upTo)
              && (jar.cache.Some? ==> jar.cache.value.updatedAt == book.upTo)
              && |jar.deposits| <= |book.history|
              && book.history[|book.history| - |jar.deposits|..] == jar.deposits
              && Credited(terms, flag, jar, book, later) + book.earnedBefore
                 == book.brought + TotalEarned(terms, book.toggles, book.history, later)
  {
    RunTracks(env, start, entries, a, p);
    var w := Run(env, NewWorld(start), entries);
    var book := BookAfter(env, NewWorld(start), entries, a, p);
    var account := AccountOrNew(w.contract, a, w.now);
    if p in w.contract.products && Fits(w.contract.products[p]) && w.now <= later {
      OwedIsEarned(w.contract.products[p].terms, JarOf(account, p), book, account.features.increasedApy, w.now, later);
    }
  }

  // --- The rate over time, as it really was -----------------------------------

  function TogglesOf(update: Update, now: Timestamp): seq<Toggle> {
    if update.SetFeature? && update.feature.IncreasedApy? then [Toggle(now, update.isEnabled)] else []
  }

  function TogglesIn(batch: seq<(AccountId, Update)>, a: AccountId, now: Timestamp): seq<Toggle> {
    if batch == [] then [] else
      var n := |batch| - 1;
      TogglesIn(batch[..n], a, now) + if batch[n].0 == a then TogglesOf(batch[n].1, now) else []
  }

  /** The toggles an entry makes for one account. */
  ghost function TogglesBy(env: Env, w: World, entry: Entry, a: AccountId): seq<Toggle>
    requires Inv(w)
  {
    if !IsAdmissible(w, entry.at, entry.action) || Act(env, w.(now := entry.at), entry.action).Err? then [] else
      match entry.action
      case DoSetFeature(b, feature, isEnabled) => if b == a then TogglesOf(SetFeature(feature, isEnabled), entry.at) else []
      case DoUpdateAll(batch) => TogglesIn(batch, a, entry.at)
      case _ => []
  }

  /** The entry takes over an account from the previous contract. */
  ghost predicate TakesOver(env: Env, w: World, entry: Entry, a: AccountId)
    requires Inv(w)
  {
    IsAdmissible(w, entry.at, entry.action) && Migrates(entry.action, a) && Act(env, w.(now := entry.at), entry.action).Ok?
  }

  /** The toggles made for the account; a migrated one comes with its setting. */
  ghost function TogglesAfter(env: Env, w: World, entries: seq<Entry>, a: AccountId): seq<Toggle>
    requires Inv(w)
  {
    if entries == [] then [] else
      var n := |entries| - 1;
      var before := Run(env, w, entries[..n]);
      if TakesOver(env, before, entries[n], a) then [Toggle(0, entries[n].action.account.features.increasedApy)]
      else TogglesAfter(env, w, entries[..n], a) + TogglesBy(env, before, entries[n], a)
  }

  /** The entry is the failing callback of a claim on this jar. */
  predicate FailsClaim(w: World, entry: Entry, a: AccountId, p: ProductId) {
    && w.now <= entry.at
    && entry.action.Resolve? && !entry.action.isSuccess && entry.action.id in w.pending
    && w.pending[entry.action.id].AfterClaim? && Owns(w.pending[entry.action.id], a, p)
  }

  /** Whenever a claim on this jar fails, the setting has been the same since the
      cached moment that comes back. */
  ghost predicate Undisturbed(env: Env, w: World, entries: seq<Entry>, a: AccountId, p: ProductId)
    requires Inv(w)
  {
    entries == [] || (
      var n := |entries| - 1;
      var before := Run(env, w, entries[..n]);
      && Undisturbed(env, w, entries[..n], a, p)
      && (FailsClaim(before, entries[n], a, p) ==>
            ConstantFrom(TogglesAfter(env, w, entries[..n], a), BookAfter(env, w, entries[..n], a, p).savedUpTo,
                         AccountOrNew(before.contract, a, before.now).features.increasedApy)))
  }

  ghost predicate SameFlags(toggles: seq<Toggle>, toggles': seq<Toggle>) {
    forall t: nat :: FlagAt(toggles, t) == FlagAt(toggles', t)
  }

  lemma {:induction false} SameFlagsAppend(toggles: seq<Toggle>, toggles': seq<Toggle>, more: seq<Toggle>)
    requires SameFlags(toggles, toggles')
    ensures SameFlags(toggles + more, toggles' + more)
  {
    if more == [] {
      assert toggles + [] == toggles && toggles' + [] == toggles';
    } else {
      var n := |more| - 1;
      SameFlagsAppend(toggles, toggles', more[..n]);
      assert (toggles + more)[..|toggles + more| - 1] == toggles + more[..n];
      assert (toggles' + more)[..|toggles' + more| - 1] == toggles' + more[..n];
    }
  }

  /** Coming back to the cached moment of before with the setting of today keeps
      the rate over time exactly when the setting has not changed since. */
  lemma RestoredKeepsTheRateIff(toggles: seq<Toggle>, saved: Timestamp, flag: bool)
    ensures SameFlags(Rebased(toggles, saved, flag), toggles) <==> ConstantFrom(toggles, saved, flag)
  {
    RebasedFlags(toggles, saved, flag);
    if ConstantFrom(toggles, saved, flag) {
      forall t: nat ensures FlagAt(Rebased(toggles, saved, flag), t) == FlagAt(toggles, t) {
        if t < saved {
          assert FlagAt(Rebased(toggles, saved, flag), t) == FlagAt(toggles, t);
        }
      }
    }
  }

  lemma {:induction false} AirdropKeepsToggles(book: Book, a: AccountId, amount: TokenAmount, receivers: seq<AccountId>, now: Timestamp)
    ensures BookAirdrop(book, a, amount, receivers, now).toggles == book.toggles
  {
    if receivers != [] {
      AirdropKeepsToggles(book, a, amount, receivers[..|receivers| - 1], now);
    }
  }

  lemma {:induction false} UpdatesMakeToggles(book: Book, a: AccountId, batch: seq<(AccountId, Update)>, now: Timestamp)
    ensures BookUpdatedAll(book, a, batch, now).toggles == book.toggles + TogglesIn(batch, a, now)
  {
    if batch != [] {
      UpdatesMakeToggles(book, a, batch[..|batch| - 1], now);
    }
  }

  /** Besides failing claims, only toggles change the rate in the book. */
  lemma StepToggles(env: Env, w: World, entry: Entry, a: AccountId, p: ProductId, book: Book)
    requires Inv(w)
    requires !FailsClaim(w, entry, a, p)
    ensures BookStep(env, w, entry, a, p, book).toggles
         == if TakesOver(env, w, entry, a) then [Toggle(0, entry.action.account.features.increasedApy)]
            else book.toggles + TogglesBy(env, w, entry, a)
  {
    if IsAdmissible(w, entry.at, entry.action) {
      match entry.action
      case DoAirdrop(_, _, amount, receivers, _, _) =>
        if receivers != [] {
          AirdropKeepsToggles(book, a, amount / |receivers|, receivers, entry.at);
        }
      case DoUpdateAll(batch) => UpdatesMakeToggles(book, a, batch, entry.at);
      case _ =>
    }
  }

  lemma FailedCallbackRebases(env: Env, w: World, id: nat, a: AccountId, p: ProductId, book: Book)
    requires Inv(w) && id in w.pending
    requires w.pending[id].AfterClaim? && Owns(w.pending[id], a, p)
    ensures BookAct(env, w, Resolve(id, false), a, p, book) == Restored(book, AccountOrNew(w.contract, a, w.now).features.increasedApy)
  {
    CallbackSucceeds(w, id, false);
  }

  lemma FailedClaimRebases(env: Env, w: World, entry: Entry, a: AccountId, p: ProductId, book: Book)
    requires Inv(w)
    requires FailsClaim(w, entry, a, p)
    ensures BookStep(env, w, entry, a, p, book) == Restored(book, AccountOrNew(w.contract, a, w.now).features.increasedApy)
  {
    LaterKeepsInv(w, entry.at);
    FailedCallbackRebases(env, w.(now := entry.at), entry.action.id, a, p, book);
  }

  /** In an undisturbed run the book has the rate as it really was. */
  lemma {:induction false} UndisturbedRate(env: Env, w: World, entries: seq<Entry>, a: AccountId, p: ProductId)
    requires Inv(w) && Undisturbed(env, w, entries, a, p)
    ensures SameFlags(BookAfter(env, w, entries, a, p).toggles, TogglesAfter(env, w, entries, a))
  {
    if entries != [] {
      var n := |entries| - 1;
      UndisturbedRate(env, w, entries[..n], a, p);
      var before, book := Run(env, w, entries[..n]), BookAfter(env, w, entries[..n], a, p);
      var actual := TogglesAfter(env, w, entries[..n], a);
      if FailsClaim(before, entries[n], a, p) {
        assert TogglesBy(env, before, entries[n], a) == [];
        FailedClaimRebases(env, before, entries[n], a, p, book);
        RestoredKeepsTheRateIff(book.toggles, book.savedUpTo, AccountOrNew(before.contract, a, before.now).features.increasedApy);
        assert actual + [] == actual;
      } else {
        StepToggles(env, before, entries[n], a, p, book);
        if !TakesOver(env, before, entries[n], a) {
          SameFlagsAppend(book.toggles, actual, TogglesBy(env, before, entries[n], a));
        }
      }
    }
  }

  /** A run without a failing callback is undisturbed. */
  lemma {:induction false} SuccessIsUndisturbed(env: Env, w: World, entries: seq<Entry>, a: AccountId, p: ProductId)
    requires Inv(w)
    requires forall i :: 0 <= i < |entries| && entries[i].action.Resolve? ==> entries[i].action.isSuccess
    ensures Undisturbed(env, w, entries, a, p)
  {
    if entries != [] {
      SuccessIsUndisturbed(env, w, entries[..|entries| - 1], a, p);
    }
  }
}
