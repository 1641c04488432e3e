/** What a failing claim costs or gains. It puts the cached moment of before back,
    and the interest since then is computed anew at the rate of today. Over every
    run, what an account is credited with differs from the integral of the rate as
    it really was by exactly the sum of these differences. */
module Drifts {
  import opened Numbers
  import opened Types
  import opened Interest
  import opened Tickets
  import opened Accounts
  import opened Promises
  import opened Contracts
  import opened Protocol
  import opened Safety
  import opened Accrual
  import opened Ledgers
  import opened Histories

  // --- Stretches of the integral ----------------------------------------------

  /** What a deposit earns from one moment to a later one. */
  function EarnedDuring(terms: Terms, toggles: seq<Toggle>, deposit: Deposit, from: Timestamp, to: Timestamp): nat
    requires terms.Fixed? && from <= to
  {
    var before := EarningLength(terms, deposit, from);
    Integral(deposit.principal, terms.apy, toggles, deposit.createdAt + before, EarningLength(terms, deposit, to) - before)
  }

  function TotalDuring(terms: Terms, toggles: seq<Toggle>, deposits: seq<Deposit>, from: Timestamp, to: Timestamp): nat
    requires terms.Fixed? && from <= to
  {
    if deposits == [] then 0 else
      TotalDuring(terms, toggles, deposits[..|deposits| - 1], from, to)
      + EarnedDuring(terms, toggles, deposits[|deposits| - 1], from, to)
  }

  lemma {:induction false} DuringIsTheRest(terms: Terms, toggles: seq<Toggle>, deposits: seq<Deposit>, from: Timestamp, to: Timestamp)
    requires terms.Fixed? && from <= to
    ensures TotalEarned(terms, toggles, deposits, to)
         == TotalEarned(terms, toggles, deposits, from) + TotalDuring(terms, toggles, deposits, from, to)
  {
    if deposits != [] {
      var n := |deposits| - 1;
      DuringIsTheRest(terms, toggles, deposits[..n], from, to);
      var before, after := EarningLength(terms, deposits[n], from), EarningLength(terms, deposits[n], to);
      IntegralSplit(deposits[n].principal, terms.apy, toggles, deposits[n].createdAt, before, after - before);
    }
  }

  ghost predicate AgreeDuring(toggles: seq<Toggle>, toggles': seq<Toggle>, from: Timestamp, to: Timestamp) {
    forall t: nat :: from <= t < to ==> FlagAt(toggles, t) == FlagAt(toggles', t)
  }

  lemma {:induction false} DuringAgrees(terms: Terms, toggles: seq<Toggle>, toggles': seq<Toggle>, deposits: seq<Deposit>, from: Timestamp, to: Timestamp)
    requires terms.Fixed? && from <= to
    requires AgreeDuring(toggles, toggles', from, to)
    ensures TotalDuring(terms, toggles, deposits, from, to) == TotalDuring(terms, toggles', deposits, from, to)
  {
    if deposits != [] {
      var n := |deposits| - 1;
      DuringAgrees(terms, toggles, toggles', deposits[..n], from, to);
      var before, after := EarningLength(terms, deposits[n], from), EarningLength(terms, deposits[n], to);
      IntegralAgrees(deposits[n].principal, terms.apy, toggles, toggles', deposits[n].createdAt + before, after - before);
    }
  }

  // --- What an entry adds to the book -----------------------------------------

  /** Only deposits of one moment were appended. */
  predicate Extends(before: seq<Deposit>, after: seq<Deposit>, now: Timestamp) {
    before <= after && forall i :: |before| <= i < |after| ==> after[i].createdAt == now
  }

  lemma {:induction false} AirdropExtends(book: Book, a: AccountId, amount: TokenAmount, receivers: seq<AccountId>, now: Timestamp)
    ensures Extends(book.history, BookAirdrop(book, a, amount, receivers, now).history, now)
  {
    if receivers != [] {
      AirdropExtends(book, a, amount, receivers[..|receivers| - 1], now);
    }
  }

  lemma {:induction false} UpdatesKeepHistory(book: Book, a: AccountId, batch: seq<(AccountId, Update)>, now: Timestamp)
    ensures BookUpdatedAll(book, a, batch, now).history == book.history
  {
    if batch != [] {
      UpdatesKeepHistory(book, a, batch[..|batch| - 1], now);
    }
  }

  /** An entry appends only deposits of its own moment. */
  lemma ActExtends(env: Env, w: World, action: Action, a: AccountId, p: ProductId, book: Book)
    requires Inv(w)
    requires !(Migrates(action, a) && Act(env, w, action).Ok?)
    ensures Extends(book.history, BookAct(env, w, action, a, p, book).history, w.now)
  {
    if action.DoAirdrop? || action.DoUpdateAll? {
      BatchExtends(env, w, action, a, p, book);
    } else if action.Resolve? {
      CallbackExtends(env, w, action, a, p, book);
    } else {
      CallExtends(env, w, action, a, p, book);
    }
  }

  lemma BatchExtends(env: Env, w: World, action: Action, a: AccountId, p: ProductId, book: Book)
    requires Inv(w) && (action.DoAirdrop? || action.DoUpdateAll?)
    ensures Extends(book.history, BookAct(env, w, action, a, p, book).history, w.now)
  {
    match action
    case DoAirdrop(_, _, amount, receivers, _, _) =>
      if receivers != [] {
        AirdropExtends(book, a, amount / |receivers|, receivers, w.now);
      }
    case DoUpdateAll(batch) => UpdatesKeepHistory(book, a, batch, w.now);
  }

  lemma CallbackExtends(env: Env, w: World, action: Action, a: AccountId, p: ProductId, book: Book)
    requires Inv(w) && action.Resolve?
    ensures Extends(book.history, BookAct(env, w, action, a, p, book).history, w.now)
  {
  }

  lemma CallExtends(env: Env, w: World, action: Action, a: AccountId, p: ProductId, book: Book)
    requires Inv(w) && !action.DoAirdrop? && !action.DoUpdateAll? && !action.Resolve?
    requires !(Migrates(action, a) && Act(env, w, action).Ok?)
    ensures Extends(book.history, BookAct(env, w, action, a, p, book).history, w.now)
  {
  }

  lemma StepExtends(env: Env, w: World, entry: Entry, a: AccountId, p: ProductId, book: Book)
    requires Inv(w) && !TakesOver(env, w, entry, a)
    ensures Extends(book.history, BookStep(env, w, entry, a, p, book).history, entry.at)
  {
    if IsAdmissible(w, entry.at, entry.action) {
      LaterKeepsInv(w, entry.at);
      ActExtends(env, w.(now := entry.at), entry.action, a, p, book);
    }
  }

  // --- The drift of a run -----------------------------------------------------

  /** The rate of one setting at all times. */
  function Always(flag: bool): seq<Toggle> {
    [Toggle(0, flag)]
  }

  /** What one failing claim adds: since the cached moment that comes back, every
      deposit counts at the rate of today instead of the rate counted so far. */
  ghost function DriftBy(w: World, entry: Entry, a: AccountId, p: ProductId, terms: Terms, book: Book): int
    requires terms.Fixed?
  {
    if !FailsClaim(w, entry, a, p) || entry.at < book.savedUpTo then 0 else
      TotalDuring(terms, Always(AccountOrNew(w.contract, a, w.now).features.increasedApy), book.history, book.savedUpTo, entry.at)
      - TotalDuring(terms, book.toggles, book.history, book.savedUpTo, entry.at)
  }

  ghost function Drift(env: Env, w: World, entries: seq<Entry>, a: AccountId, p: ProductId, terms: Terms): int
    requires Inv(w) && terms.Fixed?
  {
    if entries == [] then 0 else
      var n := |entries| - 1;
      var before := Run(env, w, entries[..n]);
      if TakesOver(env, before, entries[n], a) then 0
      else Drift(env, w, entries[..n], a, p, terms) + DriftBy(before, entries[n], a, p, terms, BookAfter(env, w, entries[..n], a, p))
  }

  ghost predicate AgreeFrom(toggles: seq<Toggle>, toggles': seq<Toggle>, from: Timestamp) {
    forall t: nat :: t >= from ==> FlagAt(toggles, t) == FlagAt(toggles', t)
  }

  /** The two rates agree from `now` on, and until then they differ by the drift. */
  ghost predicate Drifted(terms: Terms, toggles: seq<Toggle>, actual: seq<Toggle>, deposits: seq<Deposit>, drift: int, now: Timestamp)
    requires terms.Fixed?
  {
    && AgreeFrom(toggles, actual, now)
    && TotalEarned(terms, toggles, deposits, now) == TotalEarned(terms, actual, deposits, now) + drift
  }

  lemma LaterDrifted(terms: Terms, toggles: seq<Toggle>, actual: seq<Toggle>, deposits: seq<Deposit>, drift: int, now: Timestamp, later: Timestamp)
    requires terms.Fixed? && now <= later
    requires Drifted(terms, toggles, actual, deposits, drift, now)
    ensures Drifted(terms, toggles, actual, deposits, drift, later)
  {
    DuringIsTheRest(terms, toggles, deposits, now, later);
    DuringIsTheRest(terms, actual, deposits, now, later);
    DuringAgrees(terms, toggles, actual, deposits, now, later);
  }

  lemma {:induction false} NewEarnNothing(terms: Terms, toggles: seq<Toggle>, deposits: seq<Deposit>, now: Timestamp)
    requires terms.Fixed?
    requires forall i :: 0 <= i < |deposits| ==> deposits[i].createdAt == now
    ensures TotalEarned(terms, toggles, deposits, now) == 0
  {
    if deposits != [] {
      NewEarnNothing(terms, toggles, deposits[..|deposits| - 1], now);
    }
  }

  lemma ExtendedDrifted(terms: Terms, toggles: seq<Toggle>, actual: seq<Toggle>, deposits: seq<Deposit>, deposits': seq<Deposit>, drift: int, now: Timestamp)
    requires terms.Fixed? && Extends(deposits, deposits', now)
    requires Drifted(terms, toggles, actual, deposits, drift, now)
    ensures Drifted(terms, toggles, actual, deposits', drift, now)
  {
    var more := deposits'[|deposits|..];
    assert deposits' == deposits + more;
    TotalEarnedAppend(terms, toggles, deposits, more, now);
    TotalEarnedAppend(terms, actual, deposits, more, now);
    NewEarnNothing(terms, toggles, more, now);
    NewEarnNothing(terms, actual, more, now);
  }

  predicate ToggledAt(more: seq<Toggle>, now: Timestamp) {
    forall i :: 0 <= i < |more| ==> more[i].at == now
  }

  lemma {:induction false} LaterToggles(toggles: seq<Toggle>, more: seq<Toggle>, now: Timestamp, t: Timestamp)
    requires ToggledAt(more, now) && t < now
    ensures FlagAt(toggles + more, t) == FlagAt(toggles, t)
  {
    if more == [] {
      assert toggles + [] == toggles;
    } else {
      assert (toggles + more)[..|toggles + more| - 1] == toggles + more[..|more| - 1];
      LaterToggles(toggles, more[..|more| - 1], now, t);
    }
  }

  lemma {:induction false} AgreeAppend(toggles: seq<Toggle>, toggles': seq<Toggle>, more: seq<Toggle>, t: Timestamp)
    requires FlagAt(toggles, t) == FlagAt(toggles', t)
    ensures FlagAt(toggles + more, t) == FlagAt(toggles' + more, t)
  {
    if more == [] {
      assert toggles + [] == toggles && toggles' + [] == toggles';
    } else {
      assert (toggles + more)[..|toggles + more| - 1] == toggles + more[..|more| - 1];
      assert (toggles' + more)[..|toggles' + more| - 1] == toggles' + more[..|more| - 1];
      AgreeAppend(toggles, toggles', more[..|more| - 1], t);
    }
  }

  lemma ToggledDrifted(terms: Terms, toggles: seq<Toggle>, actual: seq<Toggle>, more: seq<Toggle>, deposits: seq<Deposit>, drift: int, now: Timestamp)
    requires terms.Fixed? && ToggledAt(more, now)
    requires Drifted(terms, toggles, actual, deposits, drift, now)
    ensures Drifted(terms, toggles + more, actual + more, deposits, drift, now)
  {
    forall t: nat | t < now
      ensures FlagAt(toggles + more, t) == FlagAt(toggles, t) && FlagAt(actual + more, t) == FlagAt(actual, t)
    {
      LaterToggles(toggles, more, now, t);
      LaterToggles(actual, more, now, t);
    }
    TotalEarnedAgrees(terms, toggles + more, toggles, deposits, now);
    TotalEarnedAgrees(terms, actual + more, actual, deposits, now);
    forall t: nat | t >= now ensures FlagAt(toggles + more, t) == FlagAt(actual + more, t) {
      AgreeAppend(toggles, actual, more, t);
    }
  }

  /** A failing claim: the difference since the cached moment is the drift. */
  lemma RestoredDrifted(terms: Terms, toggles: seq<Toggle>, actual: seq<Toggle>, deposits: seq<Deposit>, drift: int,
                        saved: Timestamp, flag: bool, now: Timestamp)
    requires terms.Fixed? && saved <= now
    requires Drifted(terms, toggles, actual, deposits, drift, now)
    requires ConstantFrom(toggles, now, flag)
    ensures Drifted(terms, Rebased(toggles, saved, flag), actual, deposits,
                    drift + TotalDuring(terms, Always(flag), deposits, saved, now) - TotalDuring(terms, toggles, deposits, saved, now), now)
  {
    var rebased := Rebased(toggles, saved, flag);
    RebasedFlags(toggles, saved, flag);
    TotalEarnedAgrees(terms, rebased, toggles, deposits, saved);
    DuringIsTheRest(terms, rebased, deposits, saved, now);
    DuringIsTheRest(terms, toggles, deposits, saved, now);
    assert AgreeDuring(rebased, Always(flag), saved, now) by {
      assert Always(flag)[..0] == [];
    }
    DuringAgrees(terms, rebased, Always(flag), deposits, saved, now);
  }

  // --- Runs -------------------------------------------------------------------

  lemma {:induction false} BatchTogglesNow(batch: seq<(AccountId, Update)>, a: AccountId, now: Timestamp)
    ensures ToggledAt(TogglesIn(batch, a, now), now)
  {
    if batch != [] {
      BatchTogglesNow(batch[..|batch| - 1], a, now);
    }
  }

  lemma EntryTogglesNow(env: Env, w: World, entry: Entry, a: AccountId)
    requires Inv(w)
    ensures ToggledAt(TogglesBy(env, w, entry, a), entry.at)
  {
    if entry.action.DoUpdateAll? {
      BatchTogglesNow(entry.action.batch, a, entry.at);
    }
  }

  /** The cache that a failing claim puts back. */
  function Snapshot(promise: Promise, p: ProductId): Option<JarCache>
    requires promise.AfterClaim?
  {
    if p in promise.rollback && promise.rollback[p].cache.Some? then promise.rollback[p].cache.value else None
  }

  /** While a claim is pending, the moment that would come back is past, and the
      present setting is the one counted with. */
  lemma SavedIsPast(w: World, id: nat, a: AccountId, p: ProductId, book: Book)
    requires Inv(w) && Tracks(w, a, p, book)
    requires id in w.pending && w.pending[id].AfterClaim? && Owns(w.pending[id], a, p)
    requires p in w.contract.products ==> Fits(w.contract.products[p])
    ensures book.savedUpTo <= w.now
    ensures ConstantFrom(book.toggles, w.now, AccountOrNew(w.contract, a, w.now).features.increasedApy)
    ensures Snapshot(w.pending[id], p).Some? ==> Snapshot(w.pending[id], p).value.updatedAt == book.savedUpTo
  {
    assert Grounded(w.contract, w.pending[id]);
    var account := w.contract.accounts[a];
    assert Flight(w.pending[id], p, w.contract.products[p].terms, JarOf(account, p), book, account.features.increasedApy, w.now);
  }

  lemma FailingStepDrifts(env: Env, w: World, entry: Entry, a: AccountId, p: ProductId, terms: Terms, book: Book, actual: seq<Toggle>, drift: int)
    requires Inv(w) && Tracks(w, a, p, book) && terms.Fixed?
    requires p in w.contract.products ==> Fits(w.contract.products[p])
    requires FailsClaim(w, entry, a, p)
    requires Drifted(terms, book.toggles, actual, book.history, drift, w.now)
    ensures var book' := BookStep(env, w, entry, a, p, book);
            Drifted(terms, book'.toggles, actual, book'.history, drift + DriftBy(w, entry, a, p, terms, book), entry.at)
    ensures book.savedUpTo <= entry.at
    ensures BookStep(env, w, entry, a, p, book).history == book.history
  {
    var flag := AccountOrNew(w.contract, a, w.now).features.increasedApy;
    SavedIsPast(w, entry.action.id, a, p, book);
    FailedClaimRebases(env, w, entry, a, p, book);
    RestoredBookDrifts(terms, book, actual, drift, flag, w.now, entry.at);
  }

  lemma RestoredBookDrifts(terms: Terms, book: Book, actual: seq<Toggle>, drift: int, flag: bool, now: Timestamp, at: Timestamp)
    requires terms.Fixed? && book.savedUpTo <= now <= at
    requires Drifted(terms, book.toggles, actual, book.history, drift, now) && ConstantFrom(book.toggles, now, flag)
    ensures Restored(book, flag).history == book.history
    ensures Drifted(terms, Restored(book, flag).toggles, actual, book.history,
                    drift + TotalDuring(terms, Always(flag), book.history, book.savedUpTo, at)
                    - TotalDuring(terms, book.toggles, book.history, book.savedUpTo, at), at)
  {
    LaterDrifted(terms, book.toggles, actual, book.history, drift, now, at);
    RestoredDrifted(terms, book.toggles, actual, book.history, drift, book.savedUpTo, flag, at);
  }

  lemma OtherStepDrifts(env: Env, w: World, entry: Entry, a: AccountId, p: ProductId, terms: Terms, book: Book, actual: seq<Toggle>, drift: int)
    requires Inv(w) && terms.Fixed?
    requires IsAdmissible(w, entry.at, entry.action) && !FailsClaim(w, entry, a, p) && !TakesOver(env, w, entry, a)
    requires Drifted(terms, book.toggles, actual, book.history, drift, w.now)
    ensures var book' := BookStep(env, w, entry, a, p, book);
            Drifted(terms, book'.toggles, actual + TogglesBy(env, w, entry, a), book'.history, drift, entry.at)
  {
    var more, book' := TogglesBy(env, w, entry, a), BookStep(env, w, entry, a, p, book);
    LaterDrifted(terms, book.toggles, actual, book.history, drift, w.now, entry.at);
    StepToggles(env, w, entry, a, p, book);
    EntryTogglesNow(env, w, entry, a);
    ToggledDrifted(terms, book.toggles, actual, more, book.history, drift, entry.at);
    StepExtends(env, w, entry, a, p, book);
    ExtendedDrifted(terms, book.toggles + more, actual + more, book.history, book'.history, drift, entry.at);
  }

  lemma PassedOverDrifts(env: Env, w: World, entry: Entry, a: AccountId, p: ProductId, book: Book, actual: seq<Toggle>)
    requires Inv(w) && !IsAdmissible(w, entry.at, entry.action)
    ensures BookStep(env, w, entry, a, p, book) == book && actual + TogglesBy(env, w, entry, a) == actual
    ensures !FailsClaim(w, entry, a, p) && !TakesOver(env, w, entry, a)
  {
  }

  lemma FailureMakesNoToggle(env: Env, w: World, entry: Entry, a: AccountId, p: ProductId, actual: seq<Toggle>)
    requires Inv(w) && FailsClaim(w, entry, a, p)
    ensures actual + TogglesBy(env, w, entry, a) == actual
  {
  }

  lemma StepDrifts(env: Env, w: World, entry: Entry, a: AccountId, p: ProductId, terms: Terms, book: Book, actual: seq<Toggle>, drift: int)
    requires Inv(w) && Tracks(w, a, p, book) && terms.Fixed?
    requires p in w.contract.products ==> Fits(w.contract.products[p])
    requires Drifted(terms, book.toggles, actual, book.history, drift, w.now)
    ensures var book' := BookStep(env, w, entry, a, p, book);
            if TakesOver(env, w, entry, a) then
              Drifted(terms, book'.toggles, Always(entry.action.account.features.increasedApy), book'.history, 0, Next(env, w, entry).now)
            else
              Drifted(terms, book'.toggles, actual + TogglesBy(env, w, entry, a), book'.history,
                      drift + DriftBy(w, entry, a, p, terms, book), Next(env, w, entry).now)
  {
    StepKeepsTerms(env, w, entry);
    if !IsAdmissible(w, entry.at, entry.action) {
      PassedOverDrifts(env, w, entry, a, p, book, actual);
    } else if TakesOver(env, w, entry, a) {
      StepToggles(env, w, entry, a, p, book);
    } else if FailsClaim(w, entry, a, p) {
      FailureMakesNoToggle(env, w, entry, a, p, actual);
      FailingStepDrifts(env, w, entry, a, p, terms, book, actual, drift);
    } else {
      OtherStepDrifts(env, w, entry, a, p, terms, book, actual, drift);
    }
  }

  /** Over every run the rate counted with differs from the rate as it actually was
      by exactly the drift of the failing claims. */
  lemma {:induction false} RunDrifts(env: Env, w: World, entries: seq<Entry>, a: AccountId, p: ProductId, terms: Terms)
    requires Inv(w) && w == NewWorld(w.now) && terms.Fixed?
    requires MigrantsFit(env, w, entries, a, p)
    requires p in Run(env, w, entries).contract.products ==> Fits(Run(env, w, entries).contract.products[p])
    ensures var book := BookAfter(env, w, entries, a, p);
            Drifted(terms, book.toggles, TogglesAfter(env, w, entries, a), book.history, Drift(env, w, entries, a, p, terms), Run(env, w, entries).now)
  {
    if entries != [] {
      var n := |entries| - 1;
      var before, book, actual := Run(env, w, entries[..n]), BookAfter(env, w, entries[..n], a, p), TogglesAfter(env, w, entries[..n], a);
      StepKeepsTerms(env, before, entries[n]);
      RunDrifts(env, w, entries[..n], a, p, terms);
      RunTracks(env, w.now, entries[..n], a, p);
      StepDrifts(env, before, entries[n], a, p, terms, book, actual, Drift(env, w, entries[..n], a, p, terms));
    }
  }

  /** The law against the rate as it actually was, for all runs: what the account
      has been credited with, paid or owes is the integral of that rate plus the
      drift of its failing claims. */
  lemma CreditedIsIntegralPlusDrift(env: Env, start: Timestamp, entries: seq<Entry>, a: AccountId, p: ProductId, later: Timestamp)
    requires Inv(NewWorld(start)) && MigrantsFit(env, NewWorld(start), entries, a, p)
    ensures var w := Run(env, NewWorld(start), entries);
            var book := BookAfter(env, NewWorld(start), entries, a, p);
            var account := AccountOrNew(w.contract, a, w.now);
            p in w.contract.products && Fits(w.contract.products[p]) && w.now <= later ==>
              var terms := w.contract.products[p].terms;
              Credited(terms, account.features.increasedApy, JarOf(account, p), book, later) + book.earnedBefore
              == book.brought + TotalEarned(terms, TogglesAfter(env, NewWorld(start), entries, a), book.history, later)
                 + Drift(env, NewWorld(start), entries, a, p, terms)
  {
    var w, book := Run(env, NewWorld(start), entries), BookAfter(env, NewWorld(start), entries, a, p);
    CacheIsTheIntegral(env, start, entries, a, p, later);
    if p in w.contract.products && Fits(w.contract.products[p]) && w.now <= later {
      var terms := w.contract.products[p].terms;
      RunDrifts(env, NewWorld(start), entries, a, p, terms);
      LaterDrifted(terms, book.toggles, TogglesAfter(env, NewWorld(start), entries, a), book.history,
                   Drift(env, NewWorld(start), entries, a, p, terms), w.now, later);
    }
  }

  // --- When a failing claim is harmless ---------------------------------------

  predicate IsEarning(terms: Terms, deposit: Deposit, t: Timestamp)
    requires terms.Fixed?
  {
    deposit.createdAt <= t < deposit.createdAt + terms.lockupTerm
  }

  function YearlyAt(terms: Terms, deposit: Deposit, flag: bool): TokenAmount
    requires terms.Fixed?
  {
    YearlyInterest(deposit.principal, terms.apy.Resolve(flag))
  }

  /** Whatever was earning over a stretch earned what it would at one setting. */
  ghost predicate EarnedAlike(terms: Terms, toggles: seq<Toggle>, flag: bool, deposits: seq<Deposit>, from: Timestamp, to: Timestamp)
    requires terms.Fixed?
  {
    forall i, t: nat :: 0 <= i < |deposits| && from <= t < to && IsEarning(terms, deposits[i], t) ==>
      YearlyAt(terms, deposits[i], FlagAt(toggles, t)) == YearlyAt(terms, deposits[i], flag)
  }

  /** One of the two rates is nowhere below the other. */
  predicate IsBetter(terms: Terms, deposits: seq<Deposit>, flag: bool)
    requires terms.Fixed?
  {
    forall i :: 0 <= i < |deposits| ==> YearlyAt(terms, deposits[i], !flag) <= YearlyAt(terms, deposits[i], flag)
  }

  predicate RatesCompare(terms: Terms, deposits: seq<Deposit>)
    requires terms.Fixed?
  {
    IsBetter(terms, deposits, true) || IsBetter(terms, deposits, false)
  }

  function SumOver(f: nat -> nat, from: nat, length: nat): nat {
    if length == 0 then 0 else SumOver(f, from, length - 1) + f(from + length - 1)
  }

  lemma {:induction false} SumOrder(less: nat -> nat, more: nat -> nat, from: nat, length: nat)
    requires forall t: nat :: from <= t < from + length ==> less(t) <= more(t)
    ensures SumOver(less, from, length) <= SumOver(more, from, length)
    ensures SumOver(less, from, length) == SumOver(more, from, length) <==> forall t: nat :: from <= t < from + length ==> less(t) == more(t)
  {
    if length > 0 {
      SumOrder(less, more, from, length - 1);
      assert from <= from + length - 1 < from + length;
    }
  }

  function YieldOf(terms: Terms, deposit: Deposit, toggles: seq<Toggle>): nat -> nat
    requires terms.Fixed?
  {
    (t: nat) => YearlyAt(terms, deposit, FlagAt(toggles, t))
  }

  lemma {:induction false} IntegralIsSum(terms: Terms, deposit: Deposit, toggles: seq<Toggle>, from: Timestamp, length: nat)
    requires terms.Fixed?
    ensures Integral(deposit.principal, terms.apy, toggles, from, length) == SumOver(YieldOf(terms, deposit, toggles), from, length)
  {
    if length > 0 {
      IntegralIsSum(terms, deposit, toggles, from, length - 1);
    }
  }

  ghost predicate NowhereBelow(terms: Terms, less: seq<Toggle>, more: seq<Toggle>, deposit: Deposit, from: Timestamp, to: Timestamp)
    requires terms.Fixed?
  {
    forall t: nat :: from <= t < to && IsEarning(terms, deposit, t) ==>
      YearlyAt(terms, deposit, FlagAt(less, t)) <= YearlyAt(terms, deposit, FlagAt(more, t))
  }

  ghost predicate EverywhereSame(terms: Terms, less: seq<Toggle>, more: seq<Toggle>, deposit: Deposit, from: Timestamp, to: Timestamp)
    requires terms.Fixed?
  {
    forall t: nat :: from <= t < to && IsEarning(terms, deposit, t) ==>
      YearlyAt(terms, deposit, FlagAt(less, t)) == YearlyAt(terms, deposit, FlagAt(more, t))
  }

  lemma EarningStretch(terms: Terms, deposit: Deposit, from: Timestamp, to: Timestamp)
    requires terms.Fixed? && from <= to
    ensures var first, last := deposit.createdAt + EarningLength(terms, deposit, from), deposit.createdAt + EarningLength(terms, deposit, to);
            first <= last && forall t: nat :: first <= t < last <==> from <= t < to && IsEarning(terms, deposit, t)
  {
  }

  lemma DuringOrder(terms: Terms, less: seq<Toggle>, more: seq<Toggle>, deposit: Deposit, from: Timestamp, to: Timestamp)
    requires terms.Fixed? && from <= to
    requires NowhereBelow(terms, less, more, deposit, from, to)
    ensures EarnedDuring(terms, less, deposit, from, to) <= EarnedDuring(terms, more, deposit, from, to)
    ensures EarnedDuring(terms, less, deposit, from, to) == EarnedDuring(terms, more, deposit, from, to)
            <==> EverywhereSame(terms, less, more, deposit, from, to)
  {
    var first, length := deposit.createdAt + EarningLength(terms, deposit, from),
                         EarningLength(terms, deposit, to) - EarningLength(terms, deposit, from);
    var low, high := YieldOf(terms, deposit, less), YieldOf(terms, deposit, more);
    EarningStretch(terms, deposit, from, to);
    IntegralIsSum(terms, deposit, less, first, length);
    IntegralIsSum(terms, deposit, more, first, length);
    assert forall t: nat :: low(t) == YearlyAt(terms, deposit, FlagAt(less, t)) && high(t) == YearlyAt(terms, deposit, FlagAt(more, t));
    SumOrder(low, high, first, length);
  }

  lemma {:induction false} TotalOrder(terms: Terms, less: seq<Toggle>, more: seq<Toggle>, deposits: seq<Deposit>, from: Timestamp, to: Timestamp)
    requires terms.Fixed? && from <= to
    requires forall i :: 0 <= i < |deposits| ==> NowhereBelow(terms, less, more, deposits[i], from, to)
    ensures TotalDuring(terms, less, deposits, from, to) <= TotalDuring(terms, more, deposits, from, to)
    ensures TotalDuring(terms, less, deposits, from, to) == TotalDuring(terms, more, deposits, from, to)
            <==> forall i :: 0 <= i < |deposits| ==> EverywhereSame(terms, less, more, deposits[i], from, to)
  {
    if deposits != [] {
      var n := |deposits| - 1;
      TotalOrder(terms, less, more, deposits[..n], from, to);
      DuringOrder(terms, less, more, deposits[n], from, to);
      assert forall i :: 0 <= i < n ==> deposits[..n][i] == deposits[i];
    }
  }

  lemma AlwaysIs(flag: bool, t: Timestamp)
    ensures FlagAt(Always(flag), t) == flag
  {
    assert Always(flag)[..0] == [];
  }

  /** With two comparable rates, gains and losses cannot cancel. */
  lemma SameTotalIff(terms: Terms, toggles: seq<Toggle>, flag: bool, deposits: seq<Deposit>, from: Timestamp, to: Timestamp)
    requires terms.Fixed? && from <= to && RatesCompare(terms, deposits)
    ensures TotalDuring(terms, Always(flag), deposits, from, to) == TotalDuring(terms, toggles, deposits, from, to)
            <==> EarnedAlike(terms, toggles, flag, deposits, from, to)
  {
    forall t: nat ensures FlagAt(Always(flag), t) == flag {
      AlwaysIs(flag, t);
    }
    if IsBetter(terms, deposits, flag) {
      TotalOrder(terms, toggles, Always(flag), deposits, from, to);
    } else {
      TotalOrder(terms, Always(flag), toggles, deposits, from, to);
    }
    assert (forall i :: 0 <= i < |deposits| ==> EverywhereSame(terms, toggles, Always(flag), deposits[i], from, to))
      <==> EarnedAlike(terms, toggles, flag, deposits, from, to);
    assert (forall i :: 0 <= i < |deposits| ==> EverywhereSame(terms, Always(flag), toggles, deposits[i], from, to))
      <==> EarnedAlike(terms, toggles, flag, deposits, from, to);
  }

  /** Rates compare if they are written alike, or if neither saturates. */
  lemma RatesUsuallyCompare(terms: Terms, deposits: seq<Deposit>)
    requires terms.Fixed?
    requires || terms.apy.Resolve(true).exponent == terms.apy.Resolve(false).exponent
             || forall i, flag :: 0 <= i < |deposits| ==> deposits[i].principal * terms.apy.Resolve(flag).significand <= U128_MAX
    ensures RatesCompare(terms, deposits)
  {
    var high, low := terms.apy.Resolve(true), terms.apy.Resolve(false);
    var isBetter := low.significand * Pow10(high.exponent) <= high.significand * Pow10(low.exponent);
    forall i | 0 <= i < |deposits| ensures YearlyAt(terms, deposits[i], !isBetter) <= YearlyAt(terms, deposits[i], isBetter) {
      OrderedRates(terms.apy.Resolve(!isBetter), terms.apy.Resolve(isBetter), deposits[i].principal);
    }
    assert IsBetter(terms, deposits, isBetter);
  }

  lemma OrderedRates(low: UDecimal, high: UDecimal, principal: TokenAmount)
    requires low.significand * Pow10(high.exponent) <= high.significand * Pow10(low.exponent)
    requires || low.exponent == high.exponent
             || (principal * low.significand <= U128_MAX && principal * high.significand <= U128_MAX)
    ensures YearlyInterest(principal, low) <= YearlyInterest(principal, high)
  {
    var x, y := Pow10(low.exponent), Pow10(high.exponent);
    if low.exponent == high.exponent {
      FactorCancels(low.significand, high.significand, x);
      TimesAtMost(principal, low.significand, high.significand);
      QuotientMonotone(SaturatedProduct(principal, low.significand), SaturatedProduct(principal, high.significand), x);
    } else {
      FactorInserts(principal, low.significand, y, high.significand, x);
      QuotientsOrdered(principal * low.significand, x, principal * high.significand, y);
    }
  }

  lemma FactorCancels(a: nat, b: nat, x: nat)
    requires x > 0 && a * x <= b * x
    ensures a <= b
  {
  }

  lemma FactorInserts(p: nat, a: nat, y: nat, b: nat, x: nat)
    requires a * y <= b * x
    ensures (p * a) * y <= (p * b) * x
  {
    TimesAtMost(p, a * y, b * x);
    assert p * (a * y) == (p * a) * y && p * (b * x) == (p * b) * x;
  }

  /** A smaller fraction has a smaller whole part. */
  lemma QuotientsOrdered(a: nat, x: nat, b: nat, y: nat)
    requires x > 0 && y > 0 && a * y <= b * x
    ensures Quotient(a, x) <= Quotient(b, y)
  {
    SmallerFraction(a, x, Quotient(a, x), b, y, Quotient(b, y));
  }

  lemma SmallerFraction(a: nat, x: nat, q: nat, b: nat, y: nat, r: nat)
    requires x > 0 && y > 0 && a * y <= b * x
    requires q * x <= a && b < r * y + y
    ensures q <= r
  {
    if q > r {
      FractionAbove(a, x, b, y, r + 1, q);
    }
  }

  lemma FractionAbove(a: nat, x: nat, b: nat, y: nat, k: nat, q: nat)
    requires x > 0 && y > 0 && b < k * y && k <= q && q * x <= a
    ensures b * x < a * y
  {
    assert b * x < (k * y) * x;
    assert (k * y) * x <= (q * y) * x;
    assert (q * y) * x == (q * x) * y;
    assert (q * x) * y <= a * y;
  }

  lemma UndisturbedDoesNotDrift(env: Env, start: Timestamp, entries: seq<Entry>, a: AccountId, p: ProductId, terms: Terms)
    requires Inv(NewWorld(start)) && MigrantsFit(env, NewWorld(start), entries, a, p) && terms.Fixed?
    requires Undisturbed(env, NewWorld(start), entries, a, p)
    requires p in Run(env, NewWorld(start), entries).contract.products ==> Fits(Run(env, NewWorld(start), entries).contract.products[p])
    ensures Drift(env, NewWorld(start), entries, a, p, terms) == 0
  {
    RunDrifts(env, NewWorld(start), entries, a, p, terms);
    UndisturbedRate(env, NewWorld(start), entries, a, p);
    var book := BookAfter(env, NewWorld(start), entries, a, p);
    TotalEarnedAgrees(terms, book.toggles, TogglesAfter(env, NewWorld(start), entries, a), book.history, Run(env, NewWorld(start), entries).now);
  }

  /** A claim that fails after an undisturbed run. The account is credited at the
      rate of today for the stretch since the cached moment that comes back, in
      place of what it earned then: that is the exact gain or loss. It is neither
      exactly if every deposit that was still earning earned alike; a constant rate,
      equal tiers, deposits that had run out, and an unchanged setting all qualify. */
  lemma FailedClaimIsHarmlessIff(env: Env, start: Timestamp, entries: seq<Entry>, last: Entry, a: AccountId, p: ProductId, later: Timestamp)
    requires Inv(NewWorld(start)) && MigrantsFit(env, NewWorld(start), entries, a, p)
    requires Undisturbed(env, NewWorld(start), entries, a, p)
    requires FailsClaim(Run(env, NewWorld(start), entries), last, a, p) && last.at <= later
    ensures var before, book := Run(env, NewWorld(start), entries), BookAfter(env, NewWorld(start), entries, a, p);
            p in before.contract.products && Fits(before.contract.products[p]) ==>
              var terms, saved := before.contract.products[p].terms, book.savedUpTo;
              var flag := AccountOrNew(before.contract, a, before.now).features.increasedApy;
              var w := Run(env, NewWorld(start), entries + [last]);
              var account, book' := AccountOrNew(w.contract, a, w.now), BookAfter(env, NewWorld(start), entries + [last], a, p);
              var toggles := TogglesAfter(env, NewWorld(start), entries, a);
              var credited := Credited(terms, account.features.increasedApy, JarOf(account, p), book', later) + book.earnedBefore;
              var earned := book.brought + TotalEarned(terms, toggles, book.history, later);
              && saved <= last.at
              && (Snapshot(before.pending[last.action.id], p).Some? ==> Snapshot(before.pending[last.action.id], p).value.updatedAt == saved)
              && credited + TotalDuring(terms, toggles, book.history, saved, last.at)
                 == earned + TotalDuring(terms, Always(flag), book.history, saved, last.at)
              && (RatesCompare(terms, book.history) ==>
                    (credited == earned <==> EarnedAlike(terms, toggles, flag, book.history, saved, last.at)))
  {
    var before, book := Run(env, NewWorld(start), entries), BookAfter(env, NewWorld(start), entries, a, p);
    if p in before.contract.products && Fits(before.contract.products[p]) {
      var terms, saved := before.contract.products[p].terms, book.savedUpTo;
      var flag, toggles := AccountOrNew(before.contract, a, before.now).features.increasedApy, TogglesAfter(env, NewWorld(start), entries, a);
      AfterTheFailure(env, start, entries, last, a, p, terms);
      DriftOfTheFailure(env, start, entries, last, a, p, terms);
      CreditedIsIntegralPlusDrift(env, start, entries + [last], a, p, later);
      if RatesCompare(terms, book.history) {
        SameTotalIff(terms, toggles, flag, book.history, saved, last.at);
      }
    }
  }

  lemma DriftOfTheFailure(env: Env, start: Timestamp, entries: seq<Entry>, last: Entry, a: AccountId, p: ProductId, terms: Terms)
    requires Inv(NewWorld(start)) && MigrantsFit(env, NewWorld(start), entries, a, p) && terms.Fixed?
    requires Undisturbed(env, NewWorld(start), entries, a, p)
    requires FailsClaim(Run(env, NewWorld(start), entries), last, a, p)
    requires p in Run(env, NewWorld(start), entries).contract.products ==> Fits(Run(env, NewWorld(start), entries).contract.products[p])
    ensures var before, book := Run(env, NewWorld(start), entries), BookAfter(env, NewWorld(start), entries, a, p);
            var flag := AccountOrNew(before.contract, a, before.now).features.increasedApy;
            && book.savedUpTo <= last.at
            && (Snapshot(before.pending[last.action.id], p).Some? ==>
                  Snapshot(before.pending[last.action.id], p).value.updatedAt == book.savedUpTo)
            && Drift(env, NewWorld(start), entries, a, p, terms) + DriftBy(before, last, a, p, terms, book)
               == TotalDuring(terms, Always(flag), book.history, book.savedUpTo, last.at)
                  - TotalDuring(terms, TogglesAfter(env, NewWorld(start), entries, a), book.history, book.savedUpTo, last.at)
  {
    var before, book := Run(env, NewWorld(start), entries), BookAfter(env, NewWorld(start), entries, a, p);
    RunTracks(env, start, entries, a, p);
    SavedIsPast(before, last.action.id, a, p, book);
    UndisturbedDoesNotDrift(env, start, entries, a, p, terms);
    UndisturbedRate(env, NewWorld(start), entries, a, p);
    DuringAgrees(terms, book.toggles, TogglesAfter(env, NewWorld(start), entries, a), book.history, book.savedUpTo, last.at);
  }

  /** A failing callback at the end of a run: the book goes back, no toggle is made. */
  lemma AfterTheFailure(env: Env, start: Timestamp, entries: seq<Entry>, last: Entry, a: AccountId, p: ProductId, terms: Terms)
    requires Inv(NewWorld(start)) && MigrantsFit(env, NewWorld(start), entries, a, p) && terms.Fixed?
    requires FailsClaim(Run(env, NewWorld(start), entries), last, a, p)
    ensures var before, book, all := Run(env, NewWorld(start), entries), BookAfter(env, NewWorld(start), entries, a, p), entries + [last];
            && MigrantsFit(env, NewWorld(start), all, a, p)
            && SameTerms(before.contract.products, Run(env, NewWorld(start), all).contract.products)
            && Run(env, NewWorld(start), all).now == last.at
            && BookAfter(env, NewWorld(start), all, a, p) == Restored(book, AccountOrNew(before.contract, a, before.now).features.increasedApy)
            && TogglesAfter(env, NewWorld(start), all, a) == TogglesAfter(env, NewWorld(start), entries, a)
            && Drift(env, NewWorld(start), all, a, p, terms)
               == Drift(env, NewWorld(start), entries, a, p, terms) + DriftBy(before, last, a, p, terms, book)
  {
    var all, before := entries + [last], Run(env, NewWorld(start), entries);
    var toggles := TogglesAfter(env, NewWorld(start), entries, a);
    assert all[..|all| - 1] == entries;
    StepKeepsTerms(env, before, last);
    FailedClaimRebases(env, before, last, a, p, BookAfter(env, NewWorld(start), entries, a, p));
    FailureMakesNoToggle(env, before, last, a, p, toggles);
  }
}
