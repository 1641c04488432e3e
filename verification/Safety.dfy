/** What holds over every run of the contract, for every order of calls and
    callbacks and every outcome of the transfers. */
module Safety {
  import opened Numbers
  import opened Types
  import opened Interest
  import opened Jars
  import opened Promises
  import opened Tickets
  import opened Protocol

  /** A call or callback at a moment. */
  datatype Entry = Entry(at: Timestamp, action: Action)

  /** Entries that cannot happen (the clock runs back, or a migrated account is not
      well formed) are passed over. */
  ghost function Next(env: Env, w: World, entry: Entry): (w': World)
    requires Inv(w)
    ensures Inv(w')
  {
    if IsAdmissible(w, entry.at, entry.action) then
      StepKeepsInv(env, w, entry.at, entry.action);
      Step(env, w, entry.at, entry.action)
    else w
  }

  ghost function Run(env: Env, w: World, entries: seq<Entry>): (w': World)
    requires Inv(w)
    ensures Inv(w')
  {
    if entries == [] then w else
      Next(env, Run(env, w, entries[..|entries| - 1]), entries[|entries| - 1])
  }

  /** A step is its call, or nothing but the clock. */
  lemma StepIsAct(env: Env, w: World, entry: Entry)
    requires Inv(w) && IsAdmissible(w, entry.at, entry.action)
    ensures Inv(w.(now := entry.at))
    ensures var act := Act(env, w.(now := entry.at), entry.action);
            Next(env, w, entry) == if act.Ok? then act.value else w.(now := entry.at)
  {
    LaterKeepsInv(w, entry.at);
    var w0 := w.(now := entry.at);
    if entry.action.Resolve? {
      if entry.action.id in w.pending {
        CallbackSucceeds(w0, entry.action.id, entry.action.isSuccess);
      } else {
        assert w0.pending - {entry.action.id} == w0.pending;
      }
    }
  }

  lemma StepKeepsTerms(env: Env, w: World, entry: Entry)
    requires Inv(w)
    ensures SameTerms(w.contract.products, Next(env, w, entry).contract.products)
    ensures Next(env, w, entry).now == if IsAdmissible(w, entry.at, entry.action) then entry.at else w.now
  {
    if IsAdmissible(w, entry.at, entry.action) {
      StepIsAct(env, w, entry);
      if Act(env, w.(now := entry.at), entry.action).Ok? {
        ActKeepsTerms(env, w.(now := entry.at), entry.action);
      }
    }
  }

  lemma NewWorldIsSound(now: Timestamp)
    ensures Inv(NewWorld(now))
  {
  }

  ghost predicate Reachable(env: Env, w: World) {
    exists start, entries :: Reaches(env, start, entries, w)
  }

  ghost predicate Reaches(env: Env, start: Timestamp, entries: seq<Entry>, w: World) {
    && Inv(NewWorld(start))
    && w == Run(env, NewWorld(start), entries)
  }

  lemma ReachableIsSound(env: Env, w: World)
    requires Reachable(env, w)
    ensures Inv(w)
  {
  }

  // --- Locks ------------------------------------------------------------------

  /** A jar is locked exactly when a pending call owns it, and then only one does. */
  lemma LockedIffOwnedByOne(env: Env, w: World, a: AccountId, p: ProductId)
    requires Reachable(env, w)
    ensures IsLocked(w.contract, a, p) <==> exists id :: id in w.pending && Owns(w.pending[id], a, p)
    ensures forall i, j :: i in w.pending && j in w.pending && Owns(w.pending[i], a, p) && Owns(w.pending[j], a, p) ==> i == j
  {
    ReachableIsSound(env, w);
    forall id | id in w.pending && Owns(w.pending[id], a, p) ensures IsLocked(w.contract, a, p) {
      assert Grounded(w.contract, w.pending[id]);
    }
  }

  // --- Frozen deposits --------------------------------------------------------

  /** Whatever ran since the request, the deposits a pending withdrawal or restake
      will take out still exist, are worth what was computed then, and had matured
      then. */
  lemma HeldDepositsAreFrozen(env: Env, w: World, id: nat, p: ProductId)
    requires Reachable(env, w)
    requires id in w.pending && p in Held(w.pending[id])
    ensures var promise := w.pending[id];
            var part := Held(promise)[p];
            && promise.account in w.contract.accounts
            && p in w.contract.accounts[promise.account].jars
            && p in w.contract.products
            && var deposits := w.contract.accounts[promise.account].jars[p].deposits;
               && part.index <= |deposits|
               && Principal(deposits[..part.index]) == part.balance
               && forall i :: 0 <= i < part.index ==> w.contract.products[p].terms.IsLiquid(deposits[i], promise.requestedAt)
  {
    ReachableIsSound(env, w);
    var promise := w.pending[id];
    assert Grounded(w.contract, promise);
    var account := w.contract.accounts[promise.account];
    assert Holds(account.jars[p], Held(promise)[p]);
    assert HeldWereLiquid(account, w.contract.products, Held(promise), promise.requestedAt);
  }

  /** Deposits stand in order of creation in every jar, so that the binary search
      cuts off exactly the liquid ones. */
  lemma CutIsExact(env: Env, w: World, a: AccountId, p: ProductId)
    requires Reachable(env, w)
    requires a in w.contract.accounts && p in w.contract.accounts[a].jars
    ensures p in w.contract.products
    ensures var deposits := w.contract.accounts[a].jars[p].deposits;
            var terms := w.contract.products[p].terms;
            && Sorted(deposits)
            && LiquidBalance(terms, w.now, deposits)
               == (Principal(LiquidDeposits(terms, w.now, deposits)), |LiquidDeposits(terms, w.now, deposits)|)
            && deposits[..LiquidBalance(terms, w.now, deposits).1] == LiquidDeposits(terms, w.now, deposits)
  {
    ReachableIsSound(env, w);
    var account := w.contract.accounts[a];
    assert Ordered(account, w.now) && InOrder(account.jars[p].deposits, w.now);
    LiquidBalanceIsComplete(w.contract.products[p].terms, w.now, account.jars[p].deposits);
  }

  // --- The clock --------------------------------------------------------------

  /** In every reachable state no deposit and no cache is from the future, so the
      time since the moment interest counts from is never negative, and flexible
      deposits earn for exactly that time. */
  lemma NothingIsFromTheFuture(env: Env, w: World, a: AccountId, p: ProductId, i: nat)
    requires Reachable(env, w)
    requires a in w.contract.accounts && p in w.contract.accounts[a].jars && i < |w.contract.accounts[a].jars[p].deposits|
    ensures p in w.contract.products
    ensures var jar, terms := w.contract.accounts[a].jars[p], w.contract.products[p].terms;
            && EarningSince(jar.cache, jar.deposits[i]) <= w.now
            && (terms.Flexible? ==>
                  EarningTerm(RateFor(terms, w.contract.accounts[a], w.now), jar.cache, w.now, jar.deposits[i])
                  == w.now - EarningSince(jar.cache, jar.deposits[i]))
  {
    ReachableIsSound(env, w);
    assert Ordered(w.contract.accounts[a], w.now) && InOrder(w.contract.accounts[a].jars[p].deposits, w.now);
  }

  // --- Callbacks --------------------------------------------------------------

  /** Every pending callback can run, at any later moment and for either outcome. */
  lemma CallbacksNeverAbort(env: Env, w: World, id: nat, isSuccess: bool, at: Timestamp)
    requires Reachable(env, w)
    requires id in w.pending && w.now <= at
    ensures Inv(w)
    ensures Act(env, w.(now := at), Resolve(id, isSuccess)).Ok?
    ensures Step(env, w, at, Resolve(id, isSuccess)).pending == w.pending - {id}
  {
    ReachableIsSound(env, w);
    LaterKeepsInv(w, at);
    CallbackSucceeds(w.(now := at), id, isSuccess);
  }

  /** The callbacks of these promises, each with its outcome. */
  predicate AreCallbacks(entries: seq<Entry>, ids: set<nat>, isSuccess: nat -> bool) {
    forall i :: 0 <= i < |entries| ==>
      && entries[i].action.Resolve? && entries[i].action.id in ids
      && entries[i].action.isSuccess == isSuccess(entries[i].action.id)
  }

  /** From every reachable world the pending calls can be finished one by one,
      whatever the outcome of each, and then no jar is locked. */
  lemma {:induction false} EveryRunCanDrain(env: Env, w: World, isSuccess: nat -> bool) returns (entries: seq<Entry>)
    requires Inv(w)
    ensures |entries| == |w.pending| && AreCallbacks(entries, w.pending.Keys, isSuccess)
    ensures var end := Run(env, w, entries);
            end.pending == map[] && forall a, p :: !IsLocked(end.contract, a, p)
    decreases w.pending.Keys
  {
    if w.pending == map[] {
      entries := [];
    } else {
      var id :| id in w.pending;
      var entry := Entry(w.now, Resolve(id, isSuccess(id)));
      var next := Next(env, w, entry);
      ResolvedIsGone(env, w, id, isSuccess(id));
      var rest := EveryRunCanDrain(env, next, isSuccess);
      entries := [entry] + rest;
      RunConcat(env, w, [entry], rest);
      assert [entry][..0] == [];
      assert Run(env, w, [entry]) == next;
    }
  }

  lemma ResolvedIsGone(env: Env, w: World, id: nat, isSuccess: bool)
    requires Inv(w) && id in w.pending
    ensures Next(env, w, Entry(w.now, Resolve(id, isSuccess))).pending == w.pending - {id}
    ensures |w.pending - {id}| == |w.pending| - 1
  {
    assert w.(now := w.now) == w;
    CallbackSucceeds(w, id, isSuccess);
    assert (w.pending - {id}).Keys == w.pending.Keys - {id};
    assert |w.pending| == |w.pending.Keys| && |w.pending - {id}| == |(w.pending - {id}).Keys|;
  }

  lemma {:induction false} RunConcat(env: Env, w: World, first: seq<Entry>, second: seq<Entry>)
    requires Inv(w)
    ensures Run(env, w, first + second) == Run(env, Run(env, w, first), second)
  {
    if second == [] {
      assert first + second == first;
    } else {
      var n := |second| - 1;
      assert (first + second)[..|first + second| - 1] == first + second[..n];
      RunConcat(env, w, first, second[..n]);
    }
  }
}
