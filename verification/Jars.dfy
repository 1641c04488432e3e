/** A jar: an ordered list of deposits, a cached interest, a lock and a carried
    remainder. The functions say what every operation computes; the class does it
    in place. */
module Jars {
  import opened Numbers
  import opened Types
  import opened Interest

  /** The cache counts up to a moment that has come. */
  predicate CacheIsPast(cache: Option<JarCache>, now: Timestamp) {
    cache.Some? ==> cache.value.updatedAt <= now
  }

  // --- Balances ---------------------------------------------------------------

  function Principal(deposits: seq<Deposit>): TokenAmount {
    if deposits == [] then 0
    else Principal(deposits[..|deposits| - 1]) + deposits[|deposits| - 1].principal
  }

  lemma {:induction false} PrincipalAppend(a: seq<Deposit>, b: seq<Deposit>)
    ensures Principal(a + b) == Principal(a) + Principal(b)
  {
    if b == [] {
      assert a + b == a;
    } else {
      var n := |b| - 1;
      assert (a + b)[..|a + b| - 1] == a + b[..n];
      PrincipalAppend(a, b[..n]);
    }
  }

  lemma PrincipalSplit(deposits: seq<Deposit>, k: nat)
    requires k <= |deposits|
    ensures Principal(deposits) == Principal(deposits[..k]) + Principal(deposits[k..])
  {
    assert deposits == deposits[..k] + deposits[k..];
    PrincipalAppend(deposits[..k], deposits[k..]);
  }

  // --- Maturity ---------------------------------------------------------------

  predicate Sorted(deposits: seq<Deposit>) {
    forall i, j :: 0 <= i < j < |deposits| ==> deposits[i].createdAt <= deposits[j].createdAt
  }

  /** How many deposits from the front are liquid without a gap. */
  function LiquidPrefix(terms: Terms, now: Timestamp, deposits: seq<Deposit>): (k: nat)
    ensures k <= |deposits|
    ensures forall i :: 0 <= i < k ==> terms.IsLiquid(deposits[i], now)
    ensures k < |deposits| ==> !terms.IsLiquid(deposits[k], now)
  {
    if deposits == [] || !terms.IsLiquid(deposits[0], now) then 0
    else 1 + LiquidPrefix(terms, now, deposits[1..])
  }

  function LiquidIndex(terms: Terms, now: Timestamp, deposits: seq<Deposit>): (k: nat)
    ensures k <= |deposits|
  {
    if terms.AllowsEarlyWithdrawal() then |deposits| else LiquidPrefix(terms, now, deposits)
  }

  function LiquidBalance(terms: Terms, now: Timestamp, deposits: seq<Deposit>): (TokenAmount, nat) {
    var k := LiquidIndex(terms, now, deposits);
    (Principal(deposits[..k]), k)
  }

  /** Reference: every liquid deposit counts, wherever it stands. */
  function LiquidDeposits(terms: Terms, now: Timestamp, deposits: seq<Deposit>): seq<Deposit> {
    if deposits == [] then [] else
      var deposit := deposits[|deposits| - 1];
      LiquidDeposits(terms, now, deposits[..|deposits| - 1]) + if terms.IsLiquid(deposit, now) then [deposit] else []
  }

  /** On a jar ordered by creation time the cut leaves out no liquid deposit and
      takes in no other: the prefix is the list of all liquid deposits. */
  lemma LiquidBalanceIsComplete(terms: Terms, now: Timestamp, deposits: seq<Deposit>)
    requires Sorted(deposits)
    ensures deposits[..LiquidIndex(terms, now, deposits)] == LiquidDeposits(terms, now, deposits)
    ensures LiquidBalance(terms, now, deposits)
         == (Principal(LiquidDeposits(terms, now, deposits)), |LiquidDeposits(terms, now, deposits)|)
  {
    LiquidDepositsUpTo(terms, now, deposits, LiquidIndex(terms, now, deposits));
  }

  lemma {:induction false} LiquidDepositsUpTo(terms: Terms, now: Timestamp, deposits: seq<Deposit>, k: nat)
    requires k <= |deposits|
    requires forall i :: 0 <= i < |deposits| ==> (terms.IsLiquid(deposits[i], now) <==> i < k)
    ensures LiquidDeposits(terms, now, deposits) == deposits[..k]
  {
    if deposits != [] {
      var rest := deposits[..|deposits| - 1];
      if k == |deposits| {
        LiquidDepositsUpTo(terms, now, rest, k - 1);
        assert deposits == rest + [deposits[k - 1]];
      } else {
        LiquidDepositsUpTo(terms, now, rest, k);
        assert rest[..k] == deposits[..k];
      }
    }
  }

  lemma {:induction false} LiquidPrefixIs(terms: Terms, now: Timestamp, deposits: seq<Deposit>, k: nat)
    requires k <= |deposits|
    requires forall i :: 0 <= i < k ==> terms.IsLiquid(deposits[i], now)
    requires k < |deposits| ==> !terms.IsLiquid(deposits[k], now)
    ensures LiquidPrefix(terms, now, deposits) == k
  {
    if k > 0 {
      LiquidPrefixIs(terms, now, deposits[1..], k - 1);
    }
  }

  /** The binary search behind the cut. */
  method PartitionPoint(terms: Terms, now: Timestamp, deposits: seq<Deposit>) returns (k: nat)
    requires Sorted(deposits)
    ensures k == LiquidPrefix(terms, now, deposits)
  {
    var lo, hi := 0, |deposits|;
    while lo < hi
      invariant 0 <= lo <= hi <= |deposits|
      invariant forall i :: 0 <= i < lo ==> terms.IsLiquid(deposits[i], now)
      invariant forall i :: hi <= i < |deposits| ==> !terms.IsLiquid(deposits[i], now)
    {
      var mid := lo + (hi - lo) / 2;
      if terms.IsLiquid(deposits[mid], now) {
        lo := mid + 1;
      } else {
        hi := mid;
      }
    }
    k := lo;
    LiquidPrefixIs(terms, now, deposits, k);
  }

  method GetLiquidBalance(jar: Jar, terms: Terms, now: Timestamp) returns (amount: TokenAmount, index: nat)
    requires Sorted(jar.deposits)
    ensures (amount, index) == LiquidBalance(terms, now, jar.deposits)
  {
    if terms.AllowsEarlyWithdrawal() {
      index := |jar.deposits|;
    } else {
      index := PartitionPoint(terms, now, jar.deposits);
    }
    amount := Principal(jar.deposits[..index]);
  }

  // --- What the operations compute --------------------------------------------

  function WithLock(jar: Jar, isLocked: bool): Jar {
    jar.(isLocked := isLocked)
  }

  function WithDeposit(jar: Jar, deposit: Deposit): Jar {
    jar.(deposits := jar.deposits + [deposit])
  }

  function WithCache(jar: Jar, interest: TokenAmount, remainder: nat, now: Timestamp): Jar {
    jar.(cache := Some(JarCache(now, interest)), claimRemainder := remainder)
  }

  /** Interest computed up to now and put into the cache. */
  function Refreshed(rate: Rate, jar: Jar, now: Timestamp): Jar
    requires TermsInRange(rate, jar, now)
  {
    var (interest, remainder) := JarInterest(rate, jar, now);
    WithCache(jar, interest, remainder, now)
  }

  function Claimed(jar: Jar, remainder: nat, now: Timestamp): Jar {
    WithCache(jar, 0, remainder, now)
  }

  function WithoutPrefix(jar: Jar, k: nat): Jar
    requires k <= |jar.deposits|
  {
    jar.(deposits := jar.deposits[k..])
  }

  predicate ShouldClose(jar: Jar) {
    jar.deposits == [] && CachedInterest(jar) == 0
  }

  /** The part of a jar that a call may put back later. */
  datatype JarCompanion = JarCompanion(
    deposits: Option<seq<Deposit>>,
    cache: Option<Option<JarCache>>,
    isLocked: Option<bool>,
    claimRemainder: Option<nat>)

  function Rollback(jar: Jar): JarCompanion {
    JarCompanion(None, Some(jar.cache), Some(false), Some(jar.claimRemainder))
  }

  function Applied(jar: Jar, companion: JarCompanion): Jar {
    Jar(companion.deposits.GetOr(jar.deposits),
        companion.cache.GetOr(jar.cache),
        companion.isLocked.GetOr(jar.isLocked),
        companion.claimRemainder.GetOr(jar.claimRemainder))
  }

  // --- The jar in place -------------------------------------------------------

  class StoredJar {
    var deposits: seq<Deposit>
    var cache: Option<JarCache>
    var isLocked: bool
    var claimRemainder: nat

    function Value(): Jar
      reads this
    {
      Jar(deposits, cache, isLocked, claimRemainder)
    }

    constructor ()
      ensures Value() == DEFAULT_JAR
    {
      deposits, cache, isLocked, claimRemainder := [], None, false, 0;
    }

    method Lock()
      modifies this`isLocked
      ensures Value() == WithLock(old(Value()), true)
    {
      isLocked := true;
    }

    method TryLock() returns (result: Result<()>)
      modifies this`isLocked
      ensures result == if old(isLocked) then Err(JarIsLocked) else Ok(())
      ensures Value() == WithLock(old(Value()), true)
    {
      if isLocked {
        return Err(JarIsLocked);
      }
      Lock();
      return Ok(());
    }

    method Unlock()
      modifies this`isLocked
      ensures Value() == WithLock(old(Value()), false)
    {
      isLocked := false;
    }

    method Push(deposit: Deposit)
      modifies this`deposits
      ensures Value() == WithDeposit(old(Value()), deposit)
    {
      deposits := deposits + [deposit];
    }

    method UpdateCache(interest: TokenAmount, remainder: nat, now: Timestamp)
      modifies this`cache, this`claimRemainder
      ensures Value() == WithCache(old(Value()), interest, remainder, now)
    {
      cache := Some(JarCache(now, interest));
      claimRemainder := remainder;
    }

    method Claim(remainder: nat, now: Timestamp)
      modifies this`cache, this`claimRemainder
      ensures Value() == Claimed(old(Value()), remainder, now)
    {
      claimRemainder := remainder;
      cache := Some(JarCache(now, 0));
    }

    method CleanUpDeposits(k: nat)
      requires k <= |deposits|
      modifies this`deposits
      ensures Value() == WithoutPrefix(old(Value()), k)
    {
      if k == |deposits| {
        deposits := [];
      } else {
        deposits := deposits[k..];
      }
    }

    /** Applied to the jar, whatever has happened to it since, the companion puts back
        cache and remainder, opens the lock, and keeps the deposits of then. */
    method ToRollback() returns (companion: JarCompanion)
      ensures forall jar: Jar :: Applied(jar, companion) == WithLock(Value().(deposits := jar.deposits), false)
    {
      companion := JarCompanion(None, Some(cache), Some(false), Some(claimRemainder));
    }

    method Apply(companion: JarCompanion)
      modifies this
      ensures Value() == Applied(old(Value()), companion)
    {
      if companion.claimRemainder.Some? {
        claimRemainder := companion.claimRemainder.value;
      }
      if companion.cache.Some? {
        cache := companion.cache.value;
      }
      if companion.deposits.Some? {
        deposits := companion.deposits.value;
      }
      if companion.isLocked.Some? {
        isLocked := companion.isLocked.value;
      }
    }
  }
}
