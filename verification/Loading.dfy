/** Loading stored accounts. Old versions kept their deposits in any order and
    several of one moment; on loading they are merged by creation time and sorted,
    through a hash map whose order is arbitrary. */
module Loading {
  import opened Numbers
  import opened Types
  import opened Interest
  import opened Jars
  import opened Scores
  import opened Payments

  // --- Deposits by creation time ----------------------------------------------

  /** Everything deposited at one moment. */
  function TotalAt(deposits: seq<Deposit>, t: Timestamp): TokenAmount {
    if deposits == [] then 0 else
      var last := deposits[|deposits| - 1];
      TotalAt(deposits[..|deposits| - 1], t) + if last.createdAt == t then last.principal else 0
  }

  predicate OccursIn(t: Timestamp, deposits: seq<Deposit>) {
    exists i :: 0 <= i < |deposits| && deposits[i].createdAt == t
  }

  predicate StrictlySorted(deposits: seq<Deposit>) {
    forall i, j :: 0 <= i < j < |deposits| ==> deposits[i].createdAt < deposits[j].createdAt
  }

  /** The same moments with the same totals. */
  ghost predicate SameTotals(a: seq<Deposit>, b: seq<Deposit>) {
    forall t: nat :: (OccursIn(t, a) <==> OccursIn(t, b)) && TotalAt(a, t) == TotalAt(b, t)
  }

  /** One more deposit enters a strictly sorted list. */
  function Entered(sorted: seq<Deposit>, deposit: Deposit): seq<Deposit> {
    if sorted == [] then [deposit] else
      var n := |sorted| - 1;
      if deposit.createdAt > sorted[n].createdAt then sorted + [deposit]
      else if deposit.createdAt == sorted[n].createdAt then
        sorted[..n] + [Deposit(deposit.createdAt, sorted[n].principal + deposit.principal)]
      else Entered(sorted[..n], deposit) + [sorted[n]]
  }

  /** Reference: merged and sorted, one deposit after the other. */
  function MergedDeposits(deposits: seq<Deposit>): seq<Deposit> {
    if deposits == [] then [] else
      Entered(MergedDeposits(deposits[..|deposits| - 1]), deposits[|deposits| - 1])
  }

  lemma {:induction false} TotalAtAppend(a: seq<Deposit>, b: seq<Deposit>, t: Timestamp)
    ensures TotalAt(a + b, t) == TotalAt(a, t) + TotalAt(b, t)
  {
    if b == [] {
      assert a + b == a;
    } else {
      assert (a + b)[..|a + b| - 1] == a + b[..|b| - 1];
      TotalAtAppend(a, b[..|b| - 1], t);
    }
  }

  lemma TotalAtOne(deposit: Deposit, t: Timestamp)
    ensures TotalAt([deposit], t) == if deposit.createdAt == t then deposit.principal else 0
  {
    assert [deposit][..0] == [];
  }

  lemma {:induction false} AbsentIsZero(deposits: seq<Deposit>, t: Timestamp)
    requires !OccursIn(t, deposits)
    ensures TotalAt(deposits, t) == 0
  {
    if deposits != [] {
      assert !OccursIn(t, deposits[..|deposits| - 1]);
      AbsentIsZero(deposits[..|deposits| - 1], t);
    }
  }

  lemma {:induction false} EnteredTotals(sorted: seq<Deposit>, deposit: Deposit, t: Timestamp)
    ensures TotalAt(Entered(sorted, deposit), t) == TotalAt(sorted, t) + if deposit.createdAt == t then deposit.principal else 0
    ensures OccursIn(t, Entered(sorted, deposit)) <==> OccursIn(t, sorted) || deposit.createdAt == t
  {
    TotalAtOne(deposit, t);
    if sorted != [] {
      var n := |sorted| - 1;
      assert sorted == sorted[..n] + [sorted[n]];
      OccursAppend(t, sorted[..n], sorted[n]);
      if deposit.createdAt > sorted[n].createdAt {
        TotalAtAppend(sorted, [deposit], t);
        OccursAppend(t, sorted, deposit);
      } else if deposit.createdAt == sorted[n].createdAt {
        var joined := Deposit(deposit.createdAt, sorted[n].principal + deposit.principal);
        TotalAtAppend(sorted[..n], [joined], t);
        TotalAtOne(joined, t);
        OccursAppend(t, sorted[..n], joined);
      } else {
        EnteredTotals(sorted[..n], deposit, t);
        TotalAtAppend(Entered(sorted[..n], deposit), [sorted[n]], t);
        TotalAtOne(sorted[n], t);
        OccursAppend(t, Entered(sorted[..n], deposit), sorted[n]);
      }
    } else {
      assert OccursIn(deposit.createdAt, [deposit]) by {
        assert [deposit][0].createdAt == deposit.createdAt;
      }
    }
  }

  lemma OccursAppend(t: Timestamp, deposits: seq<Deposit>, last: Deposit)
    ensures OccursIn(t, deposits + [last]) <==> OccursIn(t, deposits) || last.createdAt == t
  {
    var all := deposits + [last];
    if OccursIn(t, deposits) {
      var i :| 0 <= i < |deposits| && deposits[i].createdAt == t;
      assert all[i].createdAt == t;
    }
    assert all[|deposits|] == last;
    if OccursIn(t, all) {
      var i :| 0 <= i < |all| && all[i].createdAt == t;
      assert i < |deposits| ==> deposits[i].createdAt == t;
    }
  }

  lemma {:induction false} EnteredIsSorted(sorted: seq<Deposit>, deposit: Deposit)
    requires StrictlySorted(sorted)
    ensures StrictlySorted(Entered(sorted, deposit))
    ensures Entered(sorted, deposit) != []
    ensures Entered(sorted, deposit)[|Entered(sorted, deposit)| - 1].createdAt
         == if sorted == [] then deposit.createdAt else Max(sorted[|sorted| - 1].createdAt, deposit.createdAt)
  {
    if sorted != [] {
      var n := |sorted| - 1;
      if deposit.createdAt < sorted[n].createdAt {
        EnteredIsSorted(sorted[..n], deposit);
      }
    }
  }

  lemma {:induction false} MergedIsSorted(deposits: seq<Deposit>)
    ensures StrictlySorted(MergedDeposits(deposits))
  {
    if deposits != [] {
      MergedIsSorted(deposits[..|deposits| - 1]);
      EnteredIsSorted(MergedDeposits(deposits[..|deposits| - 1]), deposits[|deposits| - 1]);
    }
  }

  lemma {:induction false} MergedTotals(deposits: seq<Deposit>, t: Timestamp)
    ensures TotalAt(MergedDeposits(deposits), t) == TotalAt(deposits, t)
    ensures OccursIn(t, MergedDeposits(deposits)) <==> OccursIn(t, deposits)
  {
    if deposits != [] {
      var n := |deposits| - 1;
      MergedTotals(deposits[..n], t);
      EnteredTotals(MergedDeposits(deposits[..n]), deposits[n], t);
      assert deposits == deposits[..n] + [deposits[n]];
      OccursAppend(t, deposits[..n], deposits[n]);
    }
  }

  // --- The merged list is unique ----------------------------------------------

  lemma LastIsMax(deposits: seq<Deposit>, t: Timestamp)
    requires StrictlySorted(deposits) && deposits != []
    ensures OccursIn(t, deposits) ==> t <= deposits[|deposits| - 1].createdAt
    ensures OccursIn(deposits[|deposits| - 1].createdAt, deposits)
    ensures TotalAt(deposits, deposits[|deposits| - 1].createdAt) == deposits[|deposits| - 1].principal
  {
    var n := |deposits| - 1;
    AbsentIsZero(deposits[..n], deposits[n].createdAt);
  }

  lemma WithoutLast(deposits: seq<Deposit>, t: Timestamp)
    requires StrictlySorted(deposits) && deposits != []
    ensures var n := |deposits| - 1;
            && (OccursIn(t, deposits[..n]) <==> OccursIn(t, deposits) && t != deposits[n].createdAt)
            && TotalAt(deposits[..n], t) == TotalAt(deposits, t) - if deposits[n].createdAt == t then deposits[n].principal else 0
  {
    var n := |deposits| - 1;
    assert deposits == deposits[..n] + [deposits[n]];
    OccursAppend(t, deposits[..n], deposits[n]);
  }

  /** A strictly sorted list is determined by its moments and their totals, so the
      order in which a hash map hands out its entries cannot show. */
  lemma {:induction false} SortedIsUnique(a: seq<Deposit>, b: seq<Deposit>)
    requires StrictlySorted(a) && StrictlySorted(b)
    requires SameTotals(a, b)
    ensures a == b
  {
    if a != [] {
      LastIsMax(a, if b == [] then 0 else b[|b| - 1].createdAt);
    }
    if b != [] {
      LastIsMax(b, if a == [] then 0 else a[|a| - 1].createdAt);
    }
    if a != [] && b != [] {
      var m, n := |a| - 1, |b| - 1;
      assert a[m] == b[n];
      forall t: nat ensures (OccursIn(t, a[..m]) <==> OccursIn(t, b[..n])) && TotalAt(a[..m], t) == TotalAt(b[..n], t) {
        WithoutLast(a, t);
        WithoutLast(b, t);
      }
      SortedIsUnique(a[..m], b[..n]);
    }
  }

  lemma MergingTwiceIsOnce(deposits: seq<Deposit>)
    ensures MergedDeposits(MergedDeposits(deposits)) == MergedDeposits(deposits)
  {
    var merged := MergedDeposits(deposits);
    MergedIsSorted(deposits);
    MergedIsSorted(merged);
    forall t: nat ensures (OccursIn(t, MergedDeposits(merged)) <==> OccursIn(t, merged)) && TotalAt(MergedDeposits(merged), t) == TotalAt(merged, t) {
      MergedTotals(merged, t);
    }
    SortedIsUnique(MergedDeposits(merged), merged);
  }

  // --- The code ---------------------------------------------------------------

  /** The entries of a map as deposits, in any order. */
  ghost predicate ListsMap(deposits: seq<Deposit>, totals: map<Timestamp, TokenAmount>) {
    && (forall i :: 0 <= i < |deposits| ==> deposits[i].createdAt in totals && deposits[i].principal == totals[deposits[i].createdAt])
    && (forall i, j :: 0 <= i < j < |deposits| ==> deposits[i].createdAt != deposits[j].createdAt)
    && (forall t :: t in totals ==> OccursIn(t, deposits))
  }

  ghost predicate TotalsOf(totals: map<Timestamp, TokenAmount>, deposits: seq<Deposit>) {
    && (forall t :: t in totals <==> OccursIn(t, deposits))
    && (forall t :: t in totals ==> totals[t] == TotalAt(deposits, t))
  }

  method CollectTotals(deposits: seq<Deposit>) returns (totals: map<Timestamp, TokenAmount>)
    ensures TotalsOf(totals, deposits)
  {
    totals := map[];
    for i := 0 to |deposits|
      invariant TotalsOf(totals, deposits[..i])
    {
      var deposit := deposits[i];
      var before := if deposit.createdAt in totals then totals[deposit.createdAt] else 0;
      assert deposits[..i + 1] == deposits[..i] + [deposit];
      forall t: nat ensures OccursIn(t, deposits[..i + 1]) <==> OccursIn(t, deposits[..i]) || deposit.createdAt == t {
        OccursAppend(t, deposits[..i], deposit);
      }
      if deposit.createdAt !in totals {
        AbsentIsZero(deposits[..i], deposit.createdAt);
      }
      totals := totals[deposit.createdAt := before + deposit.principal];
    }
    assert deposits[..|deposits|] == deposits;
  }

  /** Entries come out of the map in an arbitrary order. */
  method ListEntries(totals: map<Timestamp, TokenAmount>) returns (deposits: seq<Deposit>)
    ensures ListsMap(deposits, totals)
  {
    deposits := [];
    var left := totals.Keys;
    while left != {}
      invariant left <= totals.Keys
      invariant forall i :: 0 <= i < |deposits| ==> deposits[i].createdAt in totals && deposits[i].principal == totals[deposits[i].createdAt]
      invariant forall i :: 0 <= i < |deposits| ==> deposits[i].createdAt !in left
      invariant forall i, j :: 0 <= i < j < |deposits| ==> deposits[i].createdAt != deposits[j].createdAt
      invariant forall t :: t in totals && t !in left ==> OccursIn(t, deposits)
      decreases left
    {
      var t :| t in left;
      forall u: nat ensures OccursIn(u, deposits + [Deposit(t, totals[t])]) <==> OccursIn(u, deposits) || u == t {
        OccursAppend(u, deposits, Deposit(t, totals[t]));
      }
      deposits := deposits + [Deposit(t, totals[t])];
      left := left - {t};
    }
  }

  /** Sorting by creation time, in place. */
  method SortDeposits(jar: StoredJar)
    modifies jar`deposits
    ensures Sorted(jar.deposits)
    ensures multiset(jar.deposits) == multiset(old(jar.deposits))
    ensures jar.Value() == old(jar.Value()).(deposits := jar.deposits)
  {
    var i := 0;
    while i < |jar.deposits|
      invariant 0 <= i <= |jar.deposits|
      invariant |jar.deposits| == |old(jar.deposits)|
      invariant Sorted(jar.deposits[..i])
      invariant multiset(jar.deposits) == multiset(old(jar.deposits))
    {
      SinkInto(jar, i);
      i := i + 1;
    }
    assert jar.deposits[..i] == jar.deposits;
  }

  /** The deposit at an index sinks into the sorted part before it. */
  method SinkInto(jar: StoredJar, i: nat)
    requires i < |jar.deposits| && Sorted(jar.deposits[..i])
    modifies jar`deposits
    ensures |jar.deposits| == |old(jar.deposits)|
    ensures Sorted(jar.deposits[..i + 1])
    ensures multiset(jar.deposits) == multiset(old(jar.deposits))
  {
    var j := i;
    while j > 0 && jar.deposits[j].createdAt < jar.deposits[j - 1].createdAt
      invariant 0 <= j <= i < |jar.deposits|
      invariant |jar.deposits| == |old(jar.deposits)|
      invariant multiset(jar.deposits) == multiset(old(jar.deposits))
      invariant SortedBut(jar.deposits[..i + 1], j)
    {
      var swapped := jar.deposits[j - 1 := jar.deposits[j]][j := jar.deposits[j - 1]];
      SwapKeepsAll(jar.deposits, j);
      SwapStaysSortedBut(jar.deposits[..i + 1], j);
      assert swapped[..i + 1] == jar.deposits[..i + 1][j - 1 := jar.deposits[j]][j := jar.deposits[j - 1]];
      jar.deposits := swapped;
      j := j - 1;
    }
    SortedButInPlace(jar.deposits[..i + 1], j);
  }

  /** Sorted apart from one deposit, which may be too far back. */
  predicate SortedBut(deposits: seq<Deposit>, j: nat) {
    && (forall a, b :: 0 <= a < b < |deposits| && a != j && b != j ==> deposits[a].createdAt <= deposits[b].createdAt)
    && (forall b :: j < b < |deposits| ==> deposits[j].createdAt <= deposits[b].createdAt)
  }

  lemma SwapKeepsAll(deposits: seq<Deposit>, j: nat)
    requires 0 < j < |deposits|
    ensures multiset(deposits[j - 1 := deposits[j]][j := deposits[j - 1]]) == multiset(deposits)
  {
  }

  lemma SwapStaysSortedBut(deposits: seq<Deposit>, j: nat)
    requires 0 < j < |deposits| && SortedBut(deposits, j)
    requires deposits[j].createdAt < deposits[j - 1].createdAt
    ensures SortedBut(deposits[j - 1 := deposits[j]][j := deposits[j - 1]], j - 1)
  {
  }

  lemma SortedButInPlace(deposits: seq<Deposit>, j: nat)
    requires j < |deposits| && SortedBut(deposits, j)
    requires j > 0 ==> deposits[j - 1].createdAt <= deposits[j].createdAt
    ensures Sorted(deposits)
  {
    forall a, b | 0 <= a < b < |deposits| ensures deposits[a].createdAt <= deposits[b].createdAt {
      if b == j && a < j - 1 {
        assert deposits[a].createdAt <= deposits[j - 1].createdAt;
      }
    }
  }

  method MergeDeposits(jar: StoredJar)
    modifies jar`deposits
    ensures exists totals: map<Timestamp, TokenAmount> :: TotalsOf(totals, old(jar.deposits)) && ListsMap(jar.deposits, totals)
    ensures jar.Value() == old(jar.Value()).(deposits := jar.deposits)
  {
    var totals := CollectTotals(jar.deposits);
    var listed := ListEntries(totals);
    jar.deposits := listed;
  }

  /** Merging and sorting gives the reference list, whatever order the map had. */
  method MergeAndSort(jar: StoredJar)
    modifies jar`deposits
    ensures jar.Value() == old(jar.Value()).(deposits := MergedDeposits(old(jar.deposits)))
  {
    MergeDeposits(jar);
    ghost var listed := jar.deposits;
    ghost var totals: map<Timestamp, TokenAmount> :| TotalsOf(totals, old(jar.deposits)) && ListsMap(listed, totals);
    SortDeposits(jar);
    ListedIsMerged(old(jar.deposits), totals, listed, jar.deposits);
  }

  // --- Why the order cannot show ----------------------------------------------

  predicate DistinctMoments(deposits: seq<Deposit>) {
    forall i, j :: 0 <= i < j < |deposits| ==> deposits[i].createdAt != deposits[j].createdAt
  }

  lemma {:induction false} DistinctTotal(deposits: seq<Deposit>, deposit: Deposit)
    requires DistinctMoments(deposits) && deposit in deposits
    ensures TotalAt(deposits, deposit.createdAt) == deposit.principal
  {
    var n := |deposits| - 1;
    if deposits[n] == deposit {
      AbsentIsZero(deposits[..n], deposit.createdAt);
    } else {
      var i :| 0 <= i < |deposits| && deposits[i] == deposit;
      assert deposits[..n][i] == deposit;
      DistinctTotal(deposits[..n], deposit);
    }
  }

  lemma SameElementsOccur(a: seq<Deposit>, b: seq<Deposit>, t: Timestamp)
    requires multiset(a) == multiset(b)
    ensures OccursIn(t, a) <==> OccursIn(t, b)
  {
    assert forall d: Deposit :: d in a <==> d in multiset(a);
    assert forall d: Deposit :: d in b <==> d in multiset(b);
    if OccursIn(t, a) {
      var i :| 0 <= i < |a| && a[i].createdAt == t;
      assert a[i] in b;
    }
    if OccursIn(t, b) {
      var i :| 0 <= i < |b| && b[i].createdAt == t;
      assert b[i] in a;
    }
  }

  lemma {:induction false} SameElementsTotal(a: seq<Deposit>, b: seq<Deposit>, t: Timestamp)
    requires multiset(a) == multiset(b)
    ensures TotalAt(a, t) == TotalAt(b, t)
  {
    if a == [] {
      assert multiset(a) == multiset{};
      assert b == [] by {
        assert |multiset(b)| == |b|;
      }
    } else {
      var n := |a| - 1;
      assert a[n] in multiset(a);
      var i :| 0 <= i < |b| && b[i] == a[n];
      TakenAt(a, n, t);
      TakenAt(b, i, t);
      assert a[..n] + a[n + 1..] == a[..n];
      assert multiset(a[..n]) == multiset(a) - multiset{a[n]};
      SameElementsTotal(a[..n], b[..i] + b[i + 1..], t);
    }
  }

  lemma TakenAt(deposits: seq<Deposit>, i: nat, t: Timestamp)
    requires i < |deposits|
    ensures multiset(deposits[..i] + deposits[i + 1..]) == multiset(deposits) - multiset{deposits[i]}
    ensures TotalAt(deposits, t)
         == TotalAt(deposits[..i] + deposits[i + 1..], t) + if deposits[i].createdAt == t then deposits[i].principal else 0
  {
    assert deposits == deposits[..i] + [deposits[i]] + deposits[i + 1..];
    TotalAtAppend(deposits[..i] + [deposits[i]], deposits[i + 1..], t);
    TotalAtAppend(deposits[..i], [deposits[i]], t);
    TotalAtAppend(deposits[..i], deposits[i + 1..], t);
    TotalAtOne(deposits[i], t);
  }

  lemma ListedIsMerged(deposits: seq<Deposit>, totals: map<Timestamp, TokenAmount>, listed: seq<Deposit>, sorted: seq<Deposit>)
    requires TotalsOf(totals, deposits) && ListsMap(listed, totals)
    requires Sorted(sorted) && multiset(sorted) == multiset(listed)
    ensures sorted == MergedDeposits(deposits)
  {
    MergedIsSorted(deposits);
    SortedDistinct(sorted, listed);
    forall t: nat ensures (OccursIn(t, sorted) <==> OccursIn(t, MergedDeposits(deposits))) && TotalAt(sorted, t) == TotalAt(MergedDeposits(deposits), t) {
      MergedTotals(deposits, t);
      SameElementsOccur(sorted, listed, t);
      SameElementsTotal(sorted, listed, t);
      ListedTotal(deposits, totals, listed, t);
    }
    SortedIsUnique(sorted, MergedDeposits(deposits));
  }

  lemma ListedTotal(deposits: seq<Deposit>, totals: map<Timestamp, TokenAmount>, listed: seq<Deposit>, t: Timestamp)
    requires TotalsOf(totals, deposits) && ListsMap(listed, totals)
    ensures OccursIn(t, listed) <==> OccursIn(t, deposits)
    ensures TotalAt(listed, t) == TotalAt(deposits, t)
  {
    if OccursIn(t, listed) {
      var i :| 0 <= i < |listed| && listed[i].createdAt == t;
      DistinctTotal(listed, listed[i]);
    } else {
      AbsentIsZero(listed, t);
      AbsentIsZero(deposits, t);
    }
  }

  /** Sorted and without repetition is strictly sorted. */
  lemma SortedDistinct(sorted: seq<Deposit>, listed: seq<Deposit>)
    requires Sorted(sorted) && DistinctMoments(listed) && multiset(sorted) == multiset(listed)
    ensures StrictlySorted(sorted)
  {
    forall i, j | 0 <= i < j < |sorted| ensures sorted[i].createdAt < sorted[j].createdAt {
      if sorted[i].createdAt == sorted[j].createdAt {
        TwoOfOneMoment(sorted, i, j);
        NoTwoOfOneMoment(listed, sorted[i], sorted[j]);
      }
    }
  }

  lemma TwoOfOneMoment(deposits: seq<Deposit>, i: nat, j: nat)
    requires i < j < |deposits|
    ensures multiset{deposits[i], deposits[j]} <= multiset(deposits)
  {
    assert deposits == deposits[..i] + [deposits[i]] + deposits[i + 1..j] + [deposits[j]] + deposits[j + 1..];
  }

  lemma {:induction false} NoTwoOfOneMoment(deposits: seq<Deposit>, x: Deposit, y: Deposit)
    requires DistinctMoments(deposits) && x.createdAt == y.createdAt
    ensures !(multiset{x, y} <= multiset(deposits))
  {
    if deposits != [] {
      var n := |deposits| - 1;
      NoTwoOfOneMoment(deposits[..n], x, y);
      assert deposits == deposits[..n] + [deposits[n]];
    }
  }

  // --- What merging keeps -----------------------------------------------------

  lemma {:induction false} EnteredPrincipal(sorted: seq<Deposit>, deposit: Deposit)
    ensures Principal(Entered(sorted, deposit)) == Principal(sorted) + deposit.principal
  {
    assert [deposit][..0] == [];
    if sorted != [] {
      var n := |sorted| - 1;
      if deposit.createdAt > sorted[n].createdAt {
        PrincipalAppend(sorted, [deposit]);
      } else if deposit.createdAt == sorted[n].createdAt {
        var joined := Deposit(deposit.createdAt, sorted[n].principal + deposit.principal);
        PrincipalAppend(sorted[..n], [joined]);
        assert [joined][..0] == [];
      } else {
        EnteredPrincipal(sorted[..n], deposit);
        PrincipalAppend(Entered(sorted[..n], deposit), [sorted[n]]);
        assert [sorted[n]][..0] == [];
      }
    }
  }

  lemma {:induction false} EnteredLiquid(terms: Terms, now: Timestamp, sorted: seq<Deposit>, deposit: Deposit)
    ensures Principal(LiquidDeposits(terms, now, Entered(sorted, deposit)))
         == Principal(LiquidDeposits(terms, now, sorted)) + if terms.IsLiquid(deposit, now) then deposit.principal else 0
  {
    LiquidOneMore(terms, now, [], deposit);
    if sorted != [] {
      var n := |sorted| - 1;
      assert sorted == sorted[..n] + [sorted[n]];
      LiquidOneMore(terms, now, sorted[..n], sorted[n]);
      if deposit.createdAt > sorted[n].createdAt {
        LiquidOneMore(terms, now, sorted, deposit);
      } else if deposit.createdAt == sorted[n].createdAt {
        LiquidOneMore(terms, now, sorted[..n], Deposit(deposit.createdAt, sorted[n].principal + deposit.principal));
      } else {
        EnteredLiquid(terms, now, sorted[..n], deposit);
        LiquidOneMore(terms, now, Entered(sorted[..n], deposit), sorted[n]);
      }
    }
  }

  lemma LiquidOneMore(terms: Terms, now: Timestamp, deposits: seq<Deposit>, last: Deposit)
    ensures Principal(LiquidDeposits(terms, now, deposits + [last]))
         == Principal(LiquidDeposits(terms, now, deposits)) + if terms.IsLiquid(last, now) then last.principal else 0
  {
    assert (deposits + [last])[..|deposits + [last]| - 1] == deposits;
    PrincipalAppend(LiquidDeposits(terms, now, deposits), if terms.IsLiquid(last, now) then [last] else []);
    assert [last][..0] == [];
  }

  lemma LiquidLast(terms: Terms, now: Timestamp, deposits: seq<Deposit>)
    requires deposits != []
    ensures var n := |deposits| - 1;
            Principal(LiquidDeposits(terms, now, deposits))
            == Principal(LiquidDeposits(terms, now, deposits[..n])) + if terms.IsLiquid(deposits[n], now) then deposits[n].principal else 0
  {
    var n := |deposits| - 1;
    assert deposits == deposits[..n] + [deposits[n]];
    LiquidOneMore(terms, now, deposits[..n], deposits[n]);
  }

  /** Loading keeps the principal, and at every moment the liquid balance that the
      cut through the merged list finds is that of all liquid deposits before. */
  lemma MergingKeepsBalances(terms: Terms, now: Timestamp, deposits: seq<Deposit>)
    ensures Principal(MergedDeposits(deposits)) == Principal(deposits)
    ensures LiquidBalance(terms, now, MergedDeposits(deposits)).0 == Principal(LiquidDeposits(terms, now, deposits))
  {
    MergedKeepsLiquid(terms, now, deposits);
    MergedIsSorted(deposits);
    LiquidBalanceIsComplete(terms, now, MergedDeposits(deposits));
  }

  lemma {:induction false} MergedKeepsLiquid(terms: Terms, now: Timestamp, deposits: seq<Deposit>)
    ensures Principal(MergedDeposits(deposits)) == Principal(deposits)
    ensures Principal(LiquidDeposits(terms, now, MergedDeposits(deposits))) == Principal(LiquidDeposits(terms, now, deposits))
  {
    if deposits != [] {
      var n := |deposits| - 1;
      MergedKeepsLiquid(terms, now, deposits[..n]);
      EnteredPrincipal(MergedDeposits(deposits[..n]), deposits[n]);
      EnteredLiquid(terms, now, MergedDeposits(deposits[..n]), deposits[n]);
      LiquidLast(terms, now, deposits);
    }
  }

  function YearlyTotal(apy: UDecimal, deposits: seq<Deposit>): TokenAmount {
    if deposits == [] then 0 else
      YearlyTotal(apy, deposits[..|deposits| - 1]) + YearlyInterest(deposits[|deposits| - 1].principal, apy)
  }

  lemma YearlyOneMore(apy: UDecimal, deposits: seq<Deposit>, last: Deposit)
    ensures YearlyTotal(apy, deposits + [last]) == YearlyTotal(apy, deposits) + YearlyInterest(last.principal, apy)
  {
    assert (deposits + [last])[..|deposits + [last]| - 1] == deposits;
  }

  lemma FloorsJoin(x: nat, y: nat, z: nat)
    requires z > 0
    ensures Quotient(x, z) + Quotient(y, z) <= Quotient(x + y, z) <= Quotient(x, z) + Quotient(y, z) + 1
  {
    var q, r := Quotient(x, z), Quotient(y, z);
    assert (q + r) * z == q * z + r * z;
    assert (q + r + 2) * z == (q + r) * z + 2 * z;
    if x + y < (q + r + 1) * z {
      QuotientUnique(x + y, z, q + r);
    } else {
      QuotientUnique(x + y, z, q + r + 1);
    }
  }

  /** Joining two deposits raises the yearly interest by at most one token; and it
      lowers it only if the joined product saturates while the two do not. */
  lemma YearlyJoins(apy: UDecimal, a: TokenAmount, b: TokenAmount)
    ensures YearlyInterest(a + b, apy) <= YearlyInterest(a, apy) + YearlyInterest(b, apy) + 1
    ensures (a + b) * apy.significand <= U128_MAX ==> YearlyInterest(a, apy) + YearlyInterest(b, apy) <= YearlyInterest(a + b, apy)
  {
    var x, y, scale := SaturatedProduct(a, apy.significand), SaturatedProduct(b, apy.significand), Pow10(apy.exponent);
    assert (a + b) * apy.significand == a * apy.significand + b * apy.significand;
    FloorsJoin(x, y, scale);
    QuotientMonotone(SaturatedProduct(a + b, apy.significand), x + y, scale);
  }

  /** Exactly when joining two deposits keeps their yearly interest. */
  lemma JoiningKeepsInterestIff(apy: UDecimal, a: TokenAmount, b: TokenAmount)
    ensures YearlyInterest(a, apy) + YearlyInterest(b, apy) <= YearlyInterest(a + b, apy)
            <==> || (a + b) * apy.significand <= U128_MAX
                 || YearlyInterest(a, apy) + YearlyInterest(b, apy) <= Quotient(U128_MAX, Pow10(apy.exponent))
  {
    YearlyJoins(apy, a, b);
  }

  /** What merging may do to the yearly interest: raise it by the number of deposits
      merged away, and lower it only where a product saturates. */
  predicate RaisesLittle(before: nat, after: nat, merged: int, isExact: bool) {
    && after <= before + merged
    && (isExact ==> before <= after)
  }

  lemma JoiningRaisesLittle(apy: UDecimal, a: TokenAmount, b: TokenAmount, whole: TokenAmount, isExact: bool)
    requires a + b <= whole && (isExact ==> whole * apy.significand <= U128_MAX)
    ensures RaisesLittle(YearlyInterest(a, apy) + YearlyInterest(b, apy), YearlyInterest(a + b, apy), 1, isExact)
  {
    YearlyJoins(apy, a, b);
    TimesAtMost(apy.significand, a + b, whole);
  }

  lemma {:induction false} EnteredYearly(apy: UDecimal, sorted: seq<Deposit>, deposit: Deposit, whole: TokenAmount, isExact: bool)
    requires Principal(sorted) + deposit.principal <= whole && (isExact ==> whole * apy.significand <= U128_MAX)
    ensures |sorted| <= |Entered(sorted, deposit)| <= |sorted| + 1
    ensures RaisesLittle(YearlyTotal(apy, sorted) + YearlyInterest(deposit.principal, apy), YearlyTotal(apy, Entered(sorted, deposit)),
                         |sorted| + 1 - |Entered(sorted, deposit)|, isExact)
  {
    YearlyOneMore(apy, [], deposit);
    if sorted != [] {
      var n := |sorted| - 1;
      assert sorted == sorted[..n] + [sorted[n]];
      if deposit.createdAt > sorted[n].createdAt {
        YearlyOneMore(apy, sorted, deposit);
      } else if deposit.createdAt == sorted[n].createdAt {
        YearlyOneMore(apy, sorted[..n], Deposit(deposit.createdAt, sorted[n].principal + deposit.principal));
        JoiningRaisesLittle(apy, sorted[n].principal, deposit.principal, whole, isExact);
      } else {
        EnteredYearly(apy, sorted[..n], deposit, whole, isExact);
        YearlyOneMore(apy, Entered(sorted[..n], deposit), sorted[n]);
      }
    }
  }

  /** Merging raises the yearly interest of a jar by at most the number of deposits
      merged away, and never lowers it unless the rate saturates on the whole
      principal. */
  lemma MergingRaisesInterestLittle(apy: UDecimal, deposits: seq<Deposit>)
    ensures |MergedDeposits(deposits)| <= |deposits|
    ensures RaisesLittle(YearlyTotal(apy, deposits), YearlyTotal(apy, MergedDeposits(deposits)), |deposits| - |MergedDeposits(deposits)|,
                         Principal(deposits) * apy.significand <= U128_MAX)
  {
    MergingRaisesLittle(apy, deposits, Principal(deposits), Principal(deposits) * apy.significand <= U128_MAX);
  }

  lemma {:induction false} MergingRaisesLittle(apy: UDecimal, deposits: seq<Deposit>, whole: TokenAmount, isExact: bool)
    requires Principal(deposits) <= whole && (isExact ==> whole * apy.significand <= U128_MAX)
    ensures |MergedDeposits(deposits)| <= |deposits|
    ensures RaisesLittle(YearlyTotal(apy, deposits), YearlyTotal(apy, MergedDeposits(deposits)), |deposits| - |MergedDeposits(deposits)|, isExact)
  {
    if deposits != [] {
      var n := |deposits| - 1;
      MergingRaisesLittle(apy, deposits[..n], whole, isExact);
      MergedKeepsLiquid(Flexible(Constant(apy)), 0, deposits[..n]);
      EnteredYearly(apy, MergedDeposits(deposits[..n]), deposits[n], whole, isExact);
    }
  }

  /** Where it saturates merging does lower the interest: two deposits at 400 %,
      each worth the most that can be counted, count as one of them. */
  lemma SaturatedMergingLowersInterest(at: Timestamp)
    ensures var apy, deposit := UDecimal(4, 0), Deposit(at, U128_MAX / 4);
            && MergedDeposits([deposit, deposit]) == [Deposit(at, 2 * (U128_MAX / 4))]
            && YearlyTotal(apy, MergedDeposits([deposit, deposit])) < YearlyTotal(apy, [deposit, deposit])
  {
    var apy, deposit := UDecimal(4, 0), Deposit(at, U128_MAX / 4);
    assert Pow10(0) == 1;
    assert [deposit, deposit][..1] == [deposit] && [deposit][..0] == [];
    assert MergedDeposits([deposit]) == [deposit];
    YearlyOneMore(apy, [], deposit);
    YearlyOneMore(apy, [deposit], deposit);
    assert [deposit] + [deposit] == [deposit, deposit] && [] + [deposit] == [deposit];
    var merged := Deposit(at, 2 * (U128_MAX / 4));
    assert Entered([deposit], deposit) == [merged];
    YearlyOneMore(apy, [], merged);
    assert [] + [merged] == [merged];
  }

  // --- Versions ---------------------------------------------------------------

  datatype LegacyScore = LegacyScore(updatedAt: Timestamp, timezone: Timezone, scores: (Score, Score), history: (Score, Score))

  datatype AccountV1 = AccountV1(nonce: nat, jars: map<ProductId, Jar>, score: LegacyScore, isPenaltyApplied: bool)

  /** Stored accounts by version tag. */
  datatype Stored =
    | V1(legacy: AccountV1)
    | V1Sorted(legacy: AccountV1)
    | V1SortedAndMerged(legacy: AccountV1)
    | V2(account: Account)
    | Unexpected(tag: nat)

  datatype Loaded = Loaded(account: Account) | InvalidData(tag: nat)

  function WithMergedDeposits(legacy: AccountV1): AccountV1 {
    legacy.(jars := map p | p in legacy.jars :: legacy.jars[p].(deposits := MergedDeposits(legacy.jars[p].deposits)))
  }

  /** A penalty is the absence of the increased rate; of the old scores only the
      history is taken over. */
  function Converted(legacy: AccountV1): Account {
    Account(legacy.nonce, legacy.jars, legacy.score.timezone,
            ScoreWindow(legacy.score.updatedAt, DailyScore(legacy.score.history.0, 0), DailyScore(legacy.score.history.1, 0)),
            Features(!legacy.isPenaltyApplied, false))
  }

  /** Sorted accounts are merged again, merged ones are taken as they are. */
  function Load(stored: Stored): Loaded {
    match stored
    case V1(legacy) => Loaded(Converted(WithMergedDeposits(legacy)))
    case V1Sorted(legacy) => Loaded(Converted(WithMergedDeposits(legacy)))
    case V1SortedAndMerged(legacy) => Loaded(Converted(legacy))
    case V2(account) => Loaded(account)
    case Unexpected(tag) => InvalidData(tag)
  }

  function Store(account: Account): Stored {
    V2(account)
  }

  /** A jar of a copied account is merged and sorted in place, one after the other. */
  method MergeAccount(legacy: AccountV1) returns (merged: AccountV1)
    ensures merged == WithMergedDeposits(legacy)
  {
    var jars := legacy.jars;
    var left := jars.Keys;
    while left != {}
      invariant left <= legacy.jars.Keys && jars.Keys == legacy.jars.Keys
      invariant forall p :: p in left ==> jars[p] == legacy.jars[p]
      invariant forall p :: p in jars && p !in left ==> jars[p] == WithMergedDeposits(legacy).jars[p]
      decreases left
    {
      var p :| p in left;
      var jar := new StoredJar();
      jar.deposits, jar.cache, jar.isLocked, jar.claimRemainder := jars[p].deposits, jars[p].cache, jars[p].isLocked, jars[p].claimRemainder;
      MergeAndSort(jar);
      jars := jars[p := jar.Value()];
      left := left - {p};
    }
    merged := legacy.(jars := jars);
    assert merged.jars == WithMergedDeposits(legacy).jars;
  }

  /** Loading, storing and loading again changes nothing more, whatever version was
      stored; and an account written back in the oldest form would load the same. */
  lemma LoadingTwiceIsOnce(stored: Stored, legacy: AccountV1)
    ensures Load(stored).Loaded? ==> Load(Store(Load(stored).account)) == Load(stored)
    ensures Load(V1(WithMergedDeposits(legacy))) == Load(V1(legacy)) == Load(V1SortedAndMerged(WithMergedDeposits(legacy)))
  {
    forall p | p in legacy.jars
      ensures MergedDeposits(MergedDeposits(legacy.jars[p].deposits)) == MergedDeposits(legacy.jars[p].deposits)
    {
      MergingTwiceIsOnce(legacy.jars[p].deposits);
    }
    assert WithMergedDeposits(WithMergedDeposits(legacy)).jars == WithMergedDeposits(legacy).jars;
  }

  /** Every account of an unmerged version loads with jars in strict order, with
      their principals and their liquid balances at any moment. */
  lemma LoadingKeepsMeaning(stored: Stored, p: ProductId, terms: Terms, now: Timestamp)
    requires (stored.V1? || stored.V1Sorted?) && p in stored.legacy.jars
    ensures var account := Load(stored).account;
            && p in account.jars
            && StrictlySorted(account.jars[p].deposits)
            && SameTotals(account.jars[p].deposits, stored.legacy.jars[p].deposits)
            && Principal(account.jars[p].deposits) == Principal(stored.legacy.jars[p].deposits)
            && LiquidBalance(terms, now, account.jars[p].deposits).0 == Principal(LiquidDeposits(terms, now, stored.legacy.jars[p].deposits))
            && account.jars[p].cache == stored.legacy.jars[p].cache
            && account.jars[p].claimRemainder == stored.legacy.jars[p].claimRemainder
            && account.jars[p].isLocked == stored.legacy.jars[p].isLocked
  {
    var deposits := stored.legacy.jars[p].deposits;
    MergedIsSorted(deposits);
    MergingKeepsBalances(terms, now, deposits);
    forall t: nat ensures (OccursIn(t, MergedDeposits(deposits)) <==> OccursIn(t, deposits)) && TotalAt(MergedDeposits(deposits), t) == TotalAt(deposits, t) {
      MergedTotals(deposits, t);
    }
  }

  predicate IsLegacy(stored: Stored) {
    stored.V1? || stored.V1Sorted? || stored.V1SortedAndMerged?
  }

  /** Whatever the old version, the account keeps its nonce, timezone and jars; the score
      history becomes the window, without boosters; and the score cap is the usual one. */
  lemma LegacyAccountLoads(stored: Stored, days: nat)
    requires IsLegacy(stored)
    ensures Load(stored).Loaded?
    ensures var account, legacy := Load(stored).account, stored.legacy;
            && account.nonce == legacy.nonce && account.timezone == legacy.score.timezone && account.score.updatedAt == legacy.score.updatedAt
            && account.jars.Keys == legacy.jars.Keys
            && (stored.V1SortedAndMerged? ==> account.jars == legacy.jars)
            && !account.features.increasedScoreCap
            && LastFinalized(account.score, days)
               == if days == 0 then DailyScore(legacy.score.history.1, 0) else if days == 1 then DailyScore(legacy.score.history.0, 0) else DailyScore(0, 0)
  {
  }

  /** A jar of a tiered product earns at the increased rate exactly if the account bore no
      penalty. */
  lemma LegacyJarEarns(stored: Stored, p: ProductId, terms: Terms, increased: UDecimal, usual: UDecimal, now: Timestamp)
    requires IsLegacy(stored) && p in stored.legacy.jars
    requires !terms.IsScoreBased() && terms.apy == Tier(increased, usual)
    ensures Load(stored).Loaded? && p in Load(stored).account.jars
    ensures var account := Load(stored).account;
            var (interest, remainder) := JarInterest(RateFor(terms, account, now), account.jars[p], now);
            interest * MS_IN_YEAR + remainder
            == OwedUnits(stored.legacy.jars[p])
               + UnitsSince(terms, if stored.legacy.isPenaltyApplied then usual else increased, CachedAt(stored.legacy.jars[p]), account.jars[p].deposits, now)
  {
    var account := Load(stored).account;
    var rate := RateFor(terms, account, now);
    JarInterestIsExact(rate, account.jars[p], now);
    PlainIsPaid(rate, account.jars[p], account.jars[p].deposits, now);
  }

  /** Accounts of today's version are taken as they are, and nothing else is accepted. */
  lemma CurrentAccountLoads(stored: Stored)
    requires !IsLegacy(stored)
    ensures Load(stored).Loaded? <==> stored.V2?
    ensures stored.V2? ==> Load(stored).account == stored.account
    ensures stored.Unexpected? ==> Load(stored) == InvalidData(stored.tag)
  {
  }
}
