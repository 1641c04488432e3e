/** What a score jar is credited with, one entry for every deposit and score day:
    at a settlement for each finished day, at a claim for the running one. */
module Credits {
  import opened Numbers
  import opened Types
  import opened Interest
  import opened Settlement

  /** `term` milliseconds at a positive rate, worth `units`, for the score of `day`. */
  datatype Credit = Credit(deposit: nat, day: int, term: nat, units: nat)

  function CreditFor(deposit: nat, day: int, principal: TokenAmount, apy: UDecimal, term: Duration): Credit {
    Credit(deposit, day, if YearlyInterest(principal, apy) == 0 then 0 else term, EarnedUnits(principal, apy, term))
  }

  /** One finished day of a settlement. */
  function DayCredits(dayStart: Timestamp, apy: UDecimal, cache: Option<JarCache>, deposits: seq<Deposit>): seq<Credit> {
    if deposits == [] then [] else
      var n := |deposits| - 1;
      DayCredits(dayStart, apy, cache, deposits[..n])
      + [CreditFor(n, Day(dayStart), deposits[n].principal, apy, DueTerm(dayStart, cache, deposits[n]))]
  }

  function DueCredits(due: seq<(Timestamp, DailyScore)>, terms: Terms, features: Features, jar: Jar): seq<Credit>
    requires terms.IsScoreBased()
  {
    if due == [] then [] else
      var n := |due| - 1;
      DueCredits(due[..n], terms, features, jar) + DayCredits(due[n].0, DueApy(due[n].1, terms, features), jar.cache, jar.deposits)
  }

  /** The running day, paid at the rate of yesterday's score. */
  function LiveCredits(rate: Rate, cache: Option<JarCache>, now: Timestamp, deposits: seq<Deposit>): seq<Credit>
    requires rate.terms.IsScoreBased() && deposits != [] ==> rate.timezone.InRange(StartOfTheDay(now))
  {
    if deposits == [] then [] else
      var n := |deposits| - 1;
      LiveCredits(rate, cache, now, deposits[..n])
      + [CreditFor(n, Day(now) - 1, deposits[n].principal, rate.apy, EarningTerm(rate, cache, now, deposits[n]))]
  }

  // --- Sums over entries ------------------------------------------------------

  function UnitsOf(credits: seq<Credit>): nat {
    if credits == [] then 0 else UnitsOf(credits[..|credits| - 1]) + credits[|credits| - 1].units
  }

  predicate IsFor(credit: Credit, deposit: nat, day: int) {
    credit.deposit == deposit && credit.day == day
  }

  function UnitsFor(credits: seq<Credit>, deposit: nat, day: int): nat {
    if credits == [] then 0 else
      var last := credits[|credits| - 1];
      UnitsFor(credits[..|credits| - 1], deposit, day) + if IsFor(last, deposit, day) then last.units else 0
  }

  function TermFor(credits: seq<Credit>, deposit: nat, day: int): nat {
    if credits == [] then 0 else
      var last := credits[|credits| - 1];
      TermFor(credits[..|credits| - 1], deposit, day) + if IsFor(last, deposit, day) then last.term else 0
  }

  lemma {:induction false} CreditsAppend(a: seq<Credit>, b: seq<Credit>, deposit: nat, day: int)
    ensures UnitsOf(a + b) == UnitsOf(a) + UnitsOf(b)
    ensures UnitsFor(a + b, deposit, day) == UnitsFor(a, deposit, day) + UnitsFor(b, deposit, day)
    ensures TermFor(a + b, deposit, day) == TermFor(a, deposit, day) + TermFor(b, deposit, day)
  {
    if b == [] {
      assert a + b == a;
    } else {
      assert (a + b)[..|a + b| - 1] == a + b[..|b| - 1];
      CreditsAppend(a, b[..|b| - 1], deposit, day);
    }
  }

  lemma OneCredit(credit: Credit, deposit: nat, day: int)
    ensures UnitsOf([credit]) == credit.units
    ensures UnitsFor([credit], deposit, day) == if IsFor(credit, deposit, day) then credit.units else 0
    ensures TermFor([credit], deposit, day) == if IsFor(credit, deposit, day) then credit.term else 0
  {
    assert [credit][..0] == [];
  }

  lemma OneMoreCredit(credits: seq<Credit>, credit: Credit, deposit: nat, day: int)
    ensures UnitsFor(credits + [credit], deposit, day) == UnitsFor(credits, deposit, day) + if IsFor(credit, deposit, day) then credit.units else 0
    ensures TermFor(credits + [credit], deposit, day) == TermFor(credits, deposit, day) + if IsFor(credit, deposit, day) then credit.term else 0
  {
    CreditsAppend(credits, [credit], deposit, day);
    OneCredit(credit, deposit, day);
  }

  // --- The entries are what the code computes ---------------------------------

  lemma {:induction false} DayCreditsAddUp(dayStart: Timestamp, apy: UDecimal, cache: Option<JarCache>, deposits: seq<Deposit>)
    ensures var (i, r) := DayInterest(dayStart, apy, cache, deposits);
            UnitsOf(DayCredits(dayStart, apy, cache, deposits)) == Units(i, r)
  {
    if deposits != [] {
      var n := |deposits| - 1;
      DayCreditsAddUp(dayStart, apy, cache, deposits[..n]);
      var credit := CreditFor(n, Day(dayStart), deposits[n].principal, apy, DueTerm(dayStart, cache, deposits[n]));
      CreditsAppend(DayCredits(dayStart, apy, cache, deposits[..n]), [credit], 0, 0);
      OneCredit(credit, 0, 0);
    }
  }

  lemma {:induction false} DueCreditsAddUp(due: seq<(Timestamp, DailyScore)>, terms: Terms, features: Features, jar: Jar)
    requires terms.IsScoreBased()
    ensures var (i, r) := DueInterest(due, terms, features, jar);
            UnitsOf(DueCredits(due, terms, features, jar)) == Units(i, r)
  {
    if due != [] {
      var n := |due| - 1;
      DueCreditsAddUp(due[..n], terms, features, jar);
      DayCreditsAddUp(due[n].0, DueApy(due[n].1, terms, features), jar.cache, jar.deposits);
      CreditsAppend(DueCredits(due[..n], terms, features, jar), DayCredits(due[n].0, DueApy(due[n].1, terms, features), jar.cache, jar.deposits), 0, 0);
    }
  }

  lemma {:induction false} LiveCreditsAddUp(rate: Rate, cache: Option<JarCache>, now: Timestamp, deposits: seq<Deposit>)
    requires rate.terms.IsScoreBased() && deposits != [] ==> rate.timezone.InRange(StartOfTheDay(now))
    ensures UnitsOf(LiveCredits(rate, cache, now, deposits)) == SumUnits(rate, cache, now, deposits)
  {
    if deposits != [] {
      var n := |deposits| - 1;
      LiveCreditsAddUp(rate, cache, now, deposits[..n]);
      var credit := CreditFor(n, Day(now) - 1, deposits[n].principal, rate.apy, EarningTerm(rate, cache, now, deposits[n]));
      CreditsAppend(LiveCredits(rate, cache, now, deposits[..n]), [credit], 0, 0);
      OneCredit(credit, 0, 0);
    }
  }

  // --- One deposit, one day ---------------------------------------------------

  lemma {:induction false} DayCreditsFor(dayStart: Timestamp, apy: UDecimal, cache: Option<JarCache>, deposits: seq<Deposit>, deposit: nat, day: int)
    ensures var credits := DayCredits(dayStart, apy, cache, deposits);
            if deposit < |deposits| && day == Day(dayStart) then
              var credit := CreditFor(deposit, day, deposits[deposit].principal, apy, DueTerm(dayStart, cache, deposits[deposit]));
              UnitsFor(credits, deposit, day) == credit.units && TermFor(credits, deposit, day) == credit.term
            else UnitsFor(credits, deposit, day) == 0 && TermFor(credits, deposit, day) == 0
  {
    if deposits != [] {
      var n := |deposits| - 1;
      DayCreditsFor(dayStart, apy, cache, deposits[..n], deposit, day);
      assert deposit < n ==> deposits[..n][deposit] == deposits[deposit];
      OneMoreCredit(DayCredits(dayStart, apy, cache, deposits[..n]),
                    CreditFor(n, Day(dayStart), deposits[n].principal, apy, DueTerm(dayStart, cache, deposits[n])), deposit, day);
    }
  }

  lemma {:induction false} LiveCreditsFor(rate: Rate, cache: Option<JarCache>, now: Timestamp, deposits: seq<Deposit>, deposit: nat, day: int)
    requires rate.terms.IsScoreBased() && deposits != [] ==> rate.timezone.InRange(StartOfTheDay(now))
    ensures var credits := LiveCredits(rate, cache, now, deposits);
            if deposit < |deposits| && day == Day(now) - 1 then
              var credit := CreditFor(deposit, day, deposits[deposit].principal, rate.apy, EarningTerm(rate, cache, now, deposits[deposit]));
              UnitsFor(credits, deposit, day) == credit.units && TermFor(credits, deposit, day) == credit.term
            else UnitsFor(credits, deposit, day) == 0 && TermFor(credits, deposit, day) == 0
  {
    if deposits != [] {
      var n := |deposits| - 1;
      LiveCreditsFor(rate, cache, now, deposits[..n], deposit, day);
      assert deposit < n ==> deposits[..n][deposit] == deposits[deposit];
      OneMoreCredit(LiveCredits(rate, cache, now, deposits[..n]),
                    CreditFor(n, Day(now) - 1, deposits[n].principal, rate.apy, EarningTerm(rate, cache, now, deposits[n])), deposit, day);
    }
  }

  lemma OneDue(due: (Timestamp, DailyScore), terms: Terms, features: Features, jar: Jar)
    requires terms.IsScoreBased()
    ensures DueCredits([due], terms, features, jar) == DayCredits(due.0, DueApy(due.1, terms, features), jar.cache, jar.deposits)
  {
    assert [due][..0] == [];
    assert DueCredits([], terms, features, jar) == [];
  }

  lemma TwoDue(first: (Timestamp, DailyScore), second: (Timestamp, DailyScore), terms: Terms, features: Features, jar: Jar)
    requires terms.IsScoreBased()
    ensures DueCredits([first, second], terms, features, jar)
         == DayCredits(first.0, DueApy(first.1, terms, features), jar.cache, jar.deposits)
            + DayCredits(second.0, DueApy(second.1, terms, features), jar.cache, jar.deposits)
  {
    assert [first, second][..1] == [first];
    OneDue(first, terms, features, jar);
  }
}
