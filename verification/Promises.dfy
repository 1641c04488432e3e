/** Calls that finish later. A call locks jars, sends a token transfer and leaves
    a promise; its callback runs once the outcome of the transfer is known, with
    any number of other calls in between. */
module Promises {
  import opened Numbers
  import opened Types
  import opened Jars
  import opened Accounts

  /** A withdrawal from one jar: the deposits before `index`, worth `amount`. */
  datatype Withdrawal = Withdrawal(amount: TokenAmount, fee: TokenAmount, index: nat)

  /** The deposits before `index` of one jar, worth `balance`. */
  datatype Part = Part(balance: TokenAmount, index: nat)

  /** What a callback receives. `requestedAt` and the balance of a part are not
      sent along; they are kept to state what is frozen. */
  datatype Promise =
    | AfterWithdraw(account: AccountId, requests: map<ProductId, Withdrawal>, requestedAt: Timestamp)
    | AfterRemainder(account: AccountId, parts: map<ProductId, Part>, remainder: TokenAmount, fee: TokenAmount,
                     into: ProductId, restaked: TokenAmount, requestedAt: Timestamp)
    | AfterClaim(account: AccountId, rollback: map<ProductId, JarCompanion>, amounts: map<ProductId, TokenAmount>,
                 score: ScoreWindow, timezone: Timezone)
    | AfterFee(amount: TokenAmount)

  /** The jars a promise has locked. */
  function Owned(promise: Promise): set<ProductId> {
    match promise
    case AfterWithdraw(_, requests, _) => requests.Keys
    case AfterRemainder(_, parts, _, _, _, _, _) => parts.Keys
    case AfterClaim(_, rollback, _, _, _) => rollback.Keys
    case AfterFee(_) => {}
  }

  function PartsOf(requests: map<ProductId, Withdrawal>): map<ProductId, Part> {
    map p | p in requests :: Part(requests[p].amount, requests[p].index)
  }

  /** The deposits a promise will take out. */
  function Held(promise: Promise): map<ProductId, Part> {
    match promise
    case AfterWithdraw(_, requests, _) => PartsOf(requests)
    case AfterRemainder(_, parts, _, _, _, _, _) => parts
    case AfterClaim(_, _, _, _, _) => map[]
    case AfterFee(_) => map[]
  }

  /** What a failing claim would put back is not from the future either. */
  predicate SnapshotsArePast(promise: Promise, now: Timestamp) {
    promise.AfterClaim? ==>
      forall p :: p in promise.rollback && promise.rollback[p].cache.Some? ==> CacheIsPast(promise.rollback[p].cache.value, now)
  }

  datatype Outcome = Outcome(account: Account, promise: Option<Promise>)

  function AllWithLock(account: Account, ps: set<ProductId>, isLocked: bool): Account {
    account.(jars := map p | p in account.jars ::
      if p in ps then WithLock(account.jars[p], isLocked) else account.jars[p])
  }

  // --- What is frozen ---------------------------------------------------------

  /** The held prefix exists and is worth what was computed. */
  predicate Holds(jar: Jar, part: Part) {
    part.index <= |jar.deposits| && Principal(jar.deposits[..part.index]) == part.balance
  }

  predicate AllHold(account: Account, parts: map<ProductId, Part>) {
    forall p :: p in parts ==> p in account.jars && Holds(account.jars[p], parts[p])
  }

  /** Everything in the held prefix was liquid when it was requested. */
  predicate HeldWereLiquid(account: Account, products: map<ProductId, Product>, parts: map<ProductId, Part>, at: Timestamp) {
    forall p, i :: p in parts && p in account.jars && p in products && 0 <= i < parts[p].index <= |account.jars[p].deposits| ==>
      products[p].terms.IsLiquid(account.jars[p].deposits[i], at)
  }

  /** Deposits stand in order of creation; neither a deposit nor a cache is from the
      future. */
  predicate Ordered(account: Account, now: Timestamp) {
    forall p :: p in account.jars ==> InOrder(account.jars[p].deposits, now) && CacheIsPast(account.jars[p].cache, now)
  }

  predicate InOrder(deposits: seq<Deposit>, now: Timestamp) {
    Sorted(deposits) && forall i :: 0 <= i < |deposits| ==> deposits[i].createdAt <= now
  }

  /** What a call may do to the jars of an account: it removes none, touches no
      lock but those it takes on unlocked jars, takes nothing out of a locked
      jar, and whatever it holds is frozen and was liquid. */
  ghost predicate Opens(before: Account, after: Account, owned: set<ProductId>, held: map<ProductId, Part>,
                        products: map<ProductId, Product>, now: Timestamp)
  {
    && before.jars.Keys <= after.jars.Keys
    && Known(after, products)
    && (forall p :: p in before.jars && before.jars[p].isLocked ==> before.jars[p].deposits <= after.jars[p].deposits)
    && (forall p :: p in after.jars ==> (after.jars[p].isLocked <==> JarOf(before, p).isLocked || p in owned))
    && held.Keys <= owned <= before.jars.Keys
    && (forall p :: p in owned ==> !before.jars[p].isLocked)
    && AllHold(after, held)
    && HeldWereLiquid(after, products, held, now)
    && (Ordered(before, now) ==> Ordered(after, now))
  }

  function OwnedBy(promise: Option<Promise>): set<ProductId> {
    if promise.Some? then Owned(promise.value) else {}
  }

  function HeldBy(promise: Option<Promise>): map<ProductId, Part> {
    if promise.Some? then Held(promise.value) else map[]
  }

  ghost predicate Opened(before: Account, outcome: Outcome, products: map<ProductId, Product>, now: Timestamp) {
    && Opens(before, outcome.account, OwnedBy(outcome.promise), HeldBy(outcome.promise), products, now)
    && (Ordered(before, now) && outcome.promise.Some? ==> SnapshotsArePast(outcome.promise.value, now))
  }

  /** What a callback may do: its own jars end up unlocked or removed, every other
      jar keeps its lock and all its deposits. */
  ghost predicate Closes(before: Account, after: Account, owned: set<ProductId>, products: map<ProductId, Product>, now: Timestamp) {
    && Known(after, products)
    && (forall p :: p in before.jars && p !in owned ==>
          && p in after.jars
          && after.jars[p].isLocked == before.jars[p].isLocked
          && before.jars[p].deposits <= after.jars[p].deposits)
    && (forall p :: p in after.jars && (p in owned || p !in before.jars) ==> !after.jars[p].isLocked)
    && (Ordered(before, now) ==> Ordered(after, now))
  }

  /** A longer jar still holds what a shorter one held. */
  lemma HoldsInExtension(jar: Jar, jar': Jar, part: Part)
    requires Holds(jar, part)
    requires jar.deposits <= jar'.deposits
    ensures Holds(jar', part)
  {
    assert jar'.deposits[..part.index] == jar.deposits[..part.index];
  }

  // --- Calls that leave the deposits alone, and calls that lock ----------------

  lemma SameHoldingsOpen(before: Account, after: Account, products: map<ProductId, Product>, now: Timestamp)
    requires Known(before, products)
    requires SameHoldings(before, after, now)
    ensures Opens(before, after, {}, map[], products, now)
  {
  }

  /** Taking locks on unlocked jars whose held deposits are frozen. */
  lemma LockingOpens(before: Account, ready: Account, owned: set<ProductId>, held: map<ProductId, Part>,
                     products: map<ProductId, Product>, now: Timestamp)
    requires Known(before, products)
    requires SameHoldings(before, ready, now)
    requires held.Keys <= owned <= ready.jars.Keys
    requires forall p :: p in owned ==> !ready.jars[p].isLocked
    requires AllHold(ready, held)
    requires HeldWereLiquid(ready, products, held, now)
    ensures Opens(before, AllWithLock(ready, owned, true), owned, held, products, now)
  {
    var after := AllWithLock(ready, owned, true);
    assert AllHold(after, held) by {
      forall p | p in held ensures p in after.jars && Holds(after.jars[p], held[p]) {
        assert Holds(ready.jars[p], held[p]);
      }
    }
  }
}
