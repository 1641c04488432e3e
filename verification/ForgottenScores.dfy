/** What a failing claim does to the score window: everything recorded since the
    claim is forgotten. */
module ForgottenScores {
  import opened Numbers
  import opened Types
  import opened Interest
  import opened Jars
  import opened Settlement
  import opened Scores
  import opened Tickets
  import opened Accounts
  import opened Promises
  import opened Claims
  import opened Restakes
  import opened Contracts
  import opened Protocol
  import opened Safety
  import opened ClaimOutcomes

  // --- What a run records -----------------------------------------------------

  function EventOf(update: Update, now: Timestamp): seq<ScoreEvent> {
    match update
    case SetFeature(_, _) => []
    case RecordScore(increments) => [RecordEvent(now, increments)]
    case ApplyBooster(value, earnedAt) => [BoostEvent(now, value, earnedAt)]
  }

  function RecordedIn(batch: seq<(AccountId, Update)>, a: AccountId, now: Timestamp): seq<ScoreEvent> {
    if batch == [] then [] else
      var n := |batch| - 1;
      RecordedIn(batch[..n], a, now) + if batch[n].0 == a then EventOf(batch[n].1, now) else []
  }

  ghost function RecordedBy(env: Env, w: World, entry: Entry, a: AccountId): seq<ScoreEvent>
    requires Inv(w)
  {
    if !IsAdmissible(w, entry.at, entry.action) then [] else
      LaterKeepsInv(w, entry.at);
      if entry.action.DoUpdateAll? && Act(env, w.(now := entry.at), entry.action).Ok?
      then RecordedIn(entry.action.batch, a, entry.at) else []
  }

  /** What the oracle records for the account over a run. */
  ghost function RecordedOver(env: Env, w: World, entries: seq<Entry>, a: AccountId): seq<ScoreEvent>
    requires Inv(w)
  {
    if entries == [] then [] else
      var n := |entries| - 1;
      RecordedOver(env, w, entries[..n], a) + RecordedBy(env, Run(env, w, entries[..n]), entries[n], a)
  }

  /** The account's window moves by recorded scores alone: no call of its owner and
      no feature switch settles it, and no claim of it fails. */
  predicate OnlyRecords(w: World, action: Action, a: AccountId) {
    match action
    case DoAirdrop(_, _, _, receivers, booster, _) => a in receivers ==> booster == 0
    case DoWithdraw(b, _) => b != a
    case DoWithdrawAll(b, _) => b != a
    case DoRestake(b, _, _, _, _) => b != a
    case DoClaim(b) => b != a
    case DoSetFeature(b, _, _) => b != a
    case DoUpdateAll(batch) => forall i :: 0 <= i < |batch| && batch[i].0 == a ==> !batch[i].1.SetFeature?
    case Resolve(id, isSuccess) => id in w.pending && w.pending[id].AfterClaim? && w.pending[id].account == a ==> isSuccess
    case _ => true
  }

  ghost predicate RunOnlyRecords(env: Env, w: World, entries: seq<Entry>, a: AccountId)
    requires Inv(w)
  {
    entries == [] || (
      var n := |entries| - 1;
      && RunOnlyRecords(env, w, entries[..n], a)
      && OnlyRecords(Run(env, w, entries[..n]), entries[n].action, a))
  }

  // --- Lists of events --------------------------------------------------------

  lemma {:induction false} EventsSplit(window: ScoreWindow, tz: Timezone, first: seq<ScoreEvent>, second: seq<ScoreEvent>)
    requires RunsThrough(window, tz, first + second)
    ensures RunsThrough(window, tz, first) && RunsThrough(WindowAfter(window, tz, first), tz, second)
    ensures WindowAfter(window, tz, first + second) == WindowAfter(WindowAfter(window, tz, first), tz, second)
    decreases |first|
  {
    if first == [] {
      assert first + second == second;
    } else {
      assert (first + second)[1..] == first[1..] + second;
      EventsSplit(Scores.AfterEvent(window, tz, first[0]), tz, first[1..], second);
    }
  }

  lemma OneEvent(window: ScoreWindow, tz: Timezone, event: ScoreEvent)
    requires RunsThrough(window, tz, [event])
    ensures Accepts(window, tz, event) && WindowAfter(window, tz, [event]) == Scores.AfterEvent(window, tz, event)
  {
    assert [event][1..] == [];
  }

  predicate AllRecordedAt(events: seq<ScoreEvent>, now: Timestamp) {
    forall i :: 0 <= i < |events| ==> events[i].at == now
  }

  predicate NotBefore(events: seq<ScoreEvent>, now: Timestamp) {
    forall i :: 0 <= i < |events| ==> now <= events[i].at
  }

  lemma {:induction false} RecordedNow(batch: seq<(AccountId, Update)>, a: AccountId, now: Timestamp)
    ensures AllRecordedAt(RecordedIn(batch, a, now), now)
  {
    if batch != [] {
      RecordedNow(batch[..|batch| - 1], a, now);
    }
  }

  lemma {:induction false} RecordedLater(env: Env, w: World, entries: seq<Entry>, a: AccountId)
    requires Inv(w)
    ensures w.now <= Run(env, w, entries).now
    ensures NotBefore(RecordedOver(env, w, entries, a), w.now)
  {
    if entries != [] {
      var n := |entries| - 1;
      RecordedLater(env, w, entries[..n], a);
      StepKeepsTerms(env, Run(env, w, entries[..n]), entries[n]);
      if entries[n].action.DoUpdateAll? {
        RecordedNow(entries[n].action.batch, a, entries[n].at);
      }
    }
  }

  // --- The window over a run --------------------------------------------------

  /** The account has this window and this timezone. */
  predicate HasWindow(c: State, a: AccountId, tz: Timezone, window: ScoreWindow) {
    a in c.accounts && c.accounts[a].timezone == tz && c.accounts[a].score == window
  }

  lemma UpdateRecords(c: State, b: AccountId, update: Update, now: Timestamp, a: AccountId, tz: Timezone, window: ScoreWindow)
    requires KnownState(c) && HasWindow(c, a, tz, window)
    requires b == a ==> !update.SetFeature? && RunsThrough(window, tz, EventOf(update, now))
    requires UpdateAccount(c, b, update, now).Ok?
    ensures HasWindow(UpdateAccount(c, b, update, now).value, a, tz,
                      if b == a then WindowAfter(window, tz, EventOf(update, now)) else window)
  {
    if b == a {
      OneEvent(window, tz, EventOf(update, now)[0]);
      UpdatesAreScoreEvents(c.accounts[a], c.products, update, now);
    }
  }

  lemma {:induction false} BatchRecords(c: State, batch: seq<(AccountId, Update)>, now: Timestamp, a: AccountId, tz: Timezone, window: ScoreWindow)
    requires KnownState(c) && HasWindow(c, a, tz, window)
    requires forall i :: 0 <= i < |batch| && batch[i].0 == a ==> !batch[i].1.SetFeature?
    requires RunsThrough(window, tz, RecordedIn(batch, a, now))
    requires UpdateAll(c, batch, now).Ok?
    ensures HasWindow(UpdateAll(c, batch, now).value, a, tz, WindowAfter(window, tz, RecordedIn(batch, a, now)))
  {
    if batch != [] {
      var n := |batch| - 1;
      var events := if batch[n].0 == a then EventOf(batch[n].1, now) else [];
      EventsSplit(window, tz, RecordedIn(batch[..n], a, now), events);
      BatchRecords(c, batch[..n], now, a, tz, window);
      UpdateRecords(UpdateAll(c, batch[..n], now).value, batch[n].0, batch[n].1, now, a, tz,
                    WindowAfter(window, tz, RecordedIn(batch[..n], a, now)));
    }
  }

  lemma {:induction false} AirdropKeepsWindow(c: State, ticket: Ticket, amount: TokenAmount, receivers: seq<AccountId>, booster: Score,
                                              earnedAt: Option<Timestamp>, now: Timestamp, a: AccountId, tz: Timezone, window: ScoreWindow)
    requires KnownState(c) && HasWindow(c, a, tz, window) && tz.IsValid() && ticket.productId in c.products
    requires a in receivers ==> booster == 0
    requires AirdropAll(c, ticket, amount, receivers, booster, earnedAt, now).Ok?
    ensures HasWindow(AirdropAll(c, ticket, amount, receivers, booster, earnedAt, now).value, a, tz, window)
  {
    if receivers != [] {
      AirdropKeepsWindow(c, ticket, amount, receivers[..|receivers| - 1], booster, earnedAt, now, a, tz, window);
    }
  }

  lemma IncomingKeepsWindow(env: Env, w: World, action: Action, a: AccountId, tz: Timezone, window: ScoreWindow)
    requires KnownState(w.contract) && HasWindow(w.contract, a, tz, window) && tz.IsValid()
    requires BringsTokens(action) && OnlyRecords(w, action, a) && Act(env, w, action).Ok?
    ensures HasWindow(Act(env, w, action).value.contract, a, tz, window)
  {
    match action
    case DoStake(_, _, _, _) =>
    case DoAirdrop(ticket, _, amount, receivers, booster, earnedAt) =>
      AirdropKeepsWindow(w.contract, ticket, amount / |receivers|, receivers, booster, earnedAt, w.now, a, tz, window);
    case DoMigrate(_, _, _) =>
  }

  lemma OthersKeepWindow(env: Env, w: World, action: Action, a: AccountId, tz: Timezone, window: ScoreWindow)
    requires KnownState(w.contract) && HasWindow(w.contract, a, tz, window) && tz.IsValid()
    requires !BringsTokens(action) && !action.DoUpdateAll? && OnlyRecords(w, action, a) && Act(env, w, action).Ok?
    ensures HasWindow(Act(env, w, action).value.contract, a, tz, window)
  {
  }

  lemma ActRecords(env: Env, w: World, action: Action, a: AccountId, tz: Timezone, window: ScoreWindow, events: seq<ScoreEvent>)
    requires KnownState(w.contract) && HasWindow(w.contract, a, tz, window) && tz.IsValid()
    requires OnlyRecords(w, action, a) && Act(env, w, action).Ok?
    requires events == if action.DoUpdateAll? then RecordedIn(action.batch, a, w.now) else []
    requires RunsThrough(window, tz, events)
    ensures HasWindow(Act(env, w, action).value.contract, a, tz, WindowAfter(window, tz, events))
  {
    if action.DoUpdateAll? {
      BatchRecords(w.contract, action.batch, w.now, a, tz, window);
    } else if BringsTokens(action) {
      IncomingKeepsWindow(env, w, action, a, tz, window);
    } else {
      OthersKeepWindow(env, w, action, a, tz, window);
    }
  }

  lemma StepRecords(env: Env, w: World, entry: Entry, a: AccountId, tz: Timezone, window: ScoreWindow)
    requires Inv(w) && HasWindow(w.contract, a, tz, window) && tz.IsValid()
    requires OnlyRecords(w, entry.action, a) && RunsThrough(window, tz, RecordedBy(env, w, entry, a))
    ensures HasWindow(Next(env, w, entry).contract, a, tz, WindowAfter(window, tz, RecordedBy(env, w, entry, a)))
  {
    if IsAdmissible(w, entry.at, entry.action) {
      StepIsAct(env, w, entry);
      if Act(env, w.(now := entry.at), entry.action).Ok? {
        ActRecords(env, w.(now := entry.at), entry.action, a, tz, window, RecordedBy(env, w, entry, a));
      }
    }
  }

  /** Over a run the window is the one after the recorded scores. */
  lemma {:induction false} RunRecords(env: Env, w: World, entries: seq<Entry>, a: AccountId, tz: Timezone, window: ScoreWindow)
    requires Inv(w) && HasWindow(w.contract, a, tz, window) && tz.IsValid()
    requires RunOnlyRecords(env, w, entries, a) && RunsThrough(window, tz, RecordedOver(env, w, entries, a))
    ensures HasWindow(Run(env, w, entries).contract, a, tz, WindowAfter(window, tz, RecordedOver(env, w, entries, a)))
  {
    if entries != [] {
      var n := |entries| - 1;
      var middle, first := Run(env, w, entries[..n]), RecordedOver(env, w, entries[..n], a);
      EventsSplit(window, tz, first, RecordedBy(env, middle, entries[n], a));
      RunRecords(env, w, entries[..n], a, tz, window);
      StepRecords(env, middle, entries[n], a, tz, WindowAfter(window, tz, first));
    }
  }

  // --- The claim that fails ---------------------------------------------------

  lemma {:induction false} LastUpdate(window: ScoreWindow, tz: Timezone, events: seq<ScoreEvent>)
    requires RunsThrough(window, tz, events) && events != []
    ensures WindowAfter(window, tz, events).updatedAt == events[|events| - 1].at
    decreases |events|
  {
    var next := Scores.AfterEvent(window, tz, events[0]);
    if |events| == 1 {
      assert WindowAfter(next, tz, events[1..]) == next;
    } else {
      LastUpdate(next, tz, events[1..]);
    }
  }

  predicate NothingToMove(window: ScoreWindow, days: nat) {
    days == 0 || (window.today == NO_SCORE && window.yesterday == NO_SCORE)
  }

  lemma MovedOnIsUnclaimedIff(window: ScoreWindow, tz: Timezone, events: seq<ScoreEvent>, now: Timestamp)
    requires RunsThrough(window, tz, events) && DaysKnown(tz, window.updatedAt, now)
    requires window.updatedAt < now && NotBefore(events, now)
    ensures var days := DaysSince(tz, window.updatedAt, now);
            MovedOn(window, days) == WindowAfter(window, tz, events) <==> events == [] && NothingToMove(window, days)
  {
    if events != [] {
      LastUpdate(window, tz, events);
    }
  }

  lemma ClaimKeepsWindow(a: AccountId, account: Account, products: map<ProductId, Product>, now: Timestamp)
    requires Known(account, products)
    requires ClaimTotal(a, account, products, now).Ok?
    requires ClaimTotal(a, account, products, now).value.promise.Some? && ClaimTotal(a, account, products, now).value.promise.value.AfterClaim?
    ensures var promise := ClaimTotal(a, account, products, now).value.promise.value;
            && promise.timezone == account.timezone
            && (account.timezone.IsValid() ==>
                  && DaysKnown(account.timezone, account.score.updatedAt, now)
                  && promise.score == MovedOn(account.score, DaysSince(account.timezone, account.score.updatedAt, now)))
  {
  }

  /** Whatever happened since the claim, its failure puts back the window as the
      claim had moved it on, and the timezone. */
  lemma FailedClaimRestoresWindow(env: Env, w: World, a: AccountId, p: ProductId, before: World, at: Timestamp)
    requires Inv(w) && TakesClaim(env, w, a, p)
    requires Inv(before) && IsClaimed(before, w.nextId, a, p) && before.pending[w.nextId] == Claiming(env, w, a, p).pending[w.nextId]
    requires before.now <= at
    ensures a in w.contract.accounts
    ensures var window, tz := w.contract.accounts[a].score, w.contract.accounts[a].timezone;
            var failed := Next(env, before, Entry(at, Resolve(w.nextId, false)));
            && a in failed.contract.accounts
            && failed.contract.accounts[a].timezone == tz
            && (tz.IsValid() ==>
                  && DaysKnown(tz, window.updatedAt, w.now)
                  && failed.contract.accounts[a].score == MovedOn(window, DaysSince(tz, window.updatedAt, w.now)))
  {
    ClaimKeepsWindow(a, w.contract.accounts[a], w.contract.products, w.now);
    FailureAppliesSnapshot(env, before, w.nextId, a, p, at);
  }

  /** Beside it, any run from the same world without the claim, in which the window
      moves by recorded scores: the two windows are the same exactly if nothing was
      recorded and the claim itself had nothing to move on. */
  lemma FailedClaimForgetsScoresUnless(env: Env, w: World, a: AccountId, p: ProductId, before: World, at: Timestamp, entries: seq<Entry>)
    requires Inv(w) && TakesClaim(env, w, a, p)
    requires Inv(before) && IsClaimed(before, w.nextId, a, p) && before.pending[w.nextId] == Claiming(env, w, a, p).pending[w.nextId]
    requires before.now <= at
    requires a in w.contract.accounts && w.contract.accounts[a].timezone.IsValid() && w.contract.accounts[a].score.updatedAt < w.now
    requires RunOnlyRecords(env, w, entries, a)
    requires RunsThrough(w.contract.accounts[a].score, w.contract.accounts[a].timezone, RecordedOver(env, w, entries, a))
    ensures var window, tz := w.contract.accounts[a].score, w.contract.accounts[a].timezone;
            var failed, other := Next(env, before, Entry(at, Resolve(w.nextId, false))), Run(env, w, entries);
            && DaysKnown(tz, window.updatedAt, w.now)
            && a in failed.contract.accounts && a in other.contract.accounts
            && (failed.contract.accounts[a].score == other.contract.accounts[a].score
                <==> RecordedOver(env, w, entries, a) == [] && NothingToMove(window, DaysSince(tz, window.updatedAt, w.now)))
  {
    var window, tz := w.contract.accounts[a].score, w.contract.accounts[a].timezone;
    FailedClaimRestoresWindow(env, w, a, p, before, at);
    RunRecords(env, w, entries, a, tz, window);
    RecordedLater(env, w, entries, a);
    MovedOnIsUnclaimedIff(window, tz, RecordedOver(env, w, entries, a), w.now);
  }
}
