/** The two-day score window: increments, boosters, and the move from day to day,
    in place and as functions, and what the window means over a whole run. */
module Scores {
  import opened Numbers
  import opened Types
  import opened MapSum
  import opened Interest
  import opened Settlement

  const DAYS_STORED: nat := 2
  const MAX_SCORE: nat := 0xFFFF

  // --- What the operations compute --------------------------------------------

  function SaturatingAdd(a: Score, b: Score): Score {
    Min(a + b, MAX_SCORE)
  }

  function Record(window: ScoreWindow, daysAgo: nat): DailyScore
    requires daysAgo < DAYS_STORED
  {
    if daysAgo == 0 then window.today else window.yesterday
  }

  function WithRecord(window: ScoreWindow, daysAgo: nat, record: DailyScore): ScoreWindow
    requires daysAgo < DAYS_STORED
  {
    if daysAgo == 0 then window.(today := record) else window.(yesterday := record)
  }

  function WithIncrement(window: ScoreWindow, daysAgo: nat, increment: Score): ScoreWindow
    requires daysAgo < DAYS_STORED
  {
    var record := Record(window, daysAgo);
    WithRecord(window, daysAgo, record.(value := SaturatingAdd(record.value, increment)))
  }

  predicate OffsetsInBounds(increments: seq<(Score, nat)>) {
    forall i :: 0 <= i < |increments| ==> increments[i].1 < DAYS_STORED
  }

  function WithIncrements(window: ScoreWindow, increments: seq<(Score, nat)>): ScoreWindow
    requires OffsetsInBounds(increments)
  {
    if increments == [] then window else
      var n := |increments| - 1;
      WithIncrement(WithIncrements(window, increments[..n]), increments[n].1, increments[n].0)
  }

  predicate AcceptsBooster(window: ScoreWindow, daysAgo: nat) {
    daysAgo < DAYS_STORED && Record(window, daysAgo).booster == 0
  }

  function WithBooster(window: ScoreWindow, daysAgo: nat, value: Score, now: Timestamp): ScoreWindow {
    if !AcceptsBooster(window, daysAgo) then window else
      WithRecord(window, daysAgo, Record(window, daysAgo).(booster := value)).(updatedAt := now)
  }

  // --- Increments as they arrive ----------------------------------------------

  predicate NotFuture(tz: Timezone, t: Timestamp, now: Timestamp) {
    tz.InRange(now) && tz.InRange(t) && tz.Adjust(t) <= tz.Adjust(now)
  }

  predicate AllPast(increments: seq<(Score, Timestamp)>, tz: Timezone, now: Timestamp) {
    forall i :: 0 <= i < |increments| ==> NotFuture(tz, increments[i].1, now)
  }

  function DaysAgo(tz: Timezone, t: Timestamp, now: Timestamp): nat
    requires NotFuture(tz, t, now)
  {
    tz.LocalDay(now) - tz.LocalDay(t)
  }

  /** The increments of today and yesterday, with their offsets. */
  function Recent(increments: seq<(Score, Timestamp)>, tz: Timezone, now: Timestamp): (recent: seq<(Score, nat)>)
    requires AllPast(increments, tz, now)
    ensures OffsetsInBounds(recent)
  {
    if increments == [] then [] else
      var n := |increments| - 1;
      var daysAgo := DaysAgo(tz, increments[n].1, now);
      Recent(increments[..n], tz, now) + if daysAgo < DAYS_STORED then [(increments[n].0, daysAgo)] else []
  }

  /** Recording into a window that has already moved on. */
  function Recorded(window: ScoreWindow, increments: seq<(Score, Timestamp)>, tz: Timezone, now: Timestamp): ScoreWindow
    requires AllPast(increments, tz, now)
  {
    WithIncrements(window, Recent(increments, tz, now)).(updatedAt := now)
  }

  method Process(increments: seq<(Score, Timestamp)>, tz: Timezone, now: Timestamp)
    returns (result: Result<seq<(Score, nat)>>)
    ensures result.Ok? <==> AllPast(increments, tz, now)
    ensures result.Ok? ==> result.value == Recent(increments, tz, now)
  {
    var recent := [];
    for i := 0 to |increments|
      invariant AllPast(increments[..i], tz, now)
      invariant recent == Recent(increments[..i], tz, now)
    {
      var t := increments[i].1;
      if !NotFuture(tz, t, now) {
        return Err(TimestampFromFuture);
      }
      assert increments[..i + 1][..i] == increments[..i];
      if DaysAgo(tz, t, now) < DAYS_STORED {
        recent := recent + [(increments[i].0, DaysAgo(tz, t, now))];
      }
    }
    assert increments[..|increments|] == increments;
    return Ok(recent);
  }

  // --- The window in place ----------------------------------------------------

  class AccountScore {
    var updatedAt: Timestamp
    const history: array<DailyScore>

    ghost predicate Valid()
      reads this
    {
      history.Length == DAYS_STORED
    }

    ghost function Value(): ScoreWindow
      requires Valid()
      reads this, history
    {
      ScoreWindow(updatedAt, history[0], history[1])
    }

    constructor (now: Timestamp)
      ensures Valid() && fresh(history)
      ensures Value() == ScoreWindow(now, NO_SCORE, NO_SCORE)
    {
      updatedAt := now;
      history := new DailyScore[DAYS_STORED](_ => NO_SCORE);
    }

    method Add(daysAgo: nat, increment: Score)
      requires Valid() && daysAgo < DAYS_STORED
      modifies history
      ensures Valid() && Value() == WithIncrement(old(Value()), daysAgo, increment)
    {
      var record := history[daysAgo];
      history[daysAgo] := record.(value := SaturatingAdd(record.value, increment));
    }

    method Update(increments: seq<(Score, nat)>, now: Timestamp)
      requires Valid() && OffsetsInBounds(increments)
      modifies this`updatedAt, history
      ensures Valid() && Value() == WithIncrements(old(Value()), increments).(updatedAt := now)
    {
      for i := 0 to |increments|
        invariant Valid() && Value() == WithIncrements(old(Value()), increments[..i])
      {
        assert increments[..i + 1][..i] == increments[..i];
        Add(increments[i].1, increments[i].0);
      }
      assert increments[..|increments|] == increments;
      updatedAt := now;
    }

    method ApplyBooster(daysAgo: nat, value: Score, now: Timestamp) returns (isApplied: bool)
      requires Valid()
      modifies this`updatedAt, history
      ensures Valid() && isApplied == AcceptsBooster(old(Value()), daysAgo)
      ensures Value() == WithBooster(old(Value()), daysAgo, value, now)
    {
      if daysAgo >= DAYS_STORED {
        return false;
      }
      if history[daysAgo].booster > 0 {
        return false;
      }
      history[daysAgo] := history[daysAgo].(booster := value);
      updatedAt := now;
      return true;
    }

    method Wipe()
      requires Valid()
      modifies history
      ensures Valid() && Value() == Wiped(old(Value()))
    {
      for i := 0 to DAYS_STORED
        invariant forall j :: 0 <= j < i ==> history[j] == NO_SCORE
      {
        history[i] := NO_SCORE;
      }
    }

    method Shift()
      requires Valid()
      modifies history
      ensures Valid() && Value() == Shifted(old(Value()))
    {
      var i := DAYS_STORED - 1;
      while i > 0
        invariant 0 <= i < DAYS_STORED
        invariant forall j :: 0 <= j <= i ==> history[j] == old(history[j])
        invariant forall j :: i < j < DAYS_STORED ==> history[j] == old(history[j - 1])
      {
        history[i] := history[i - 1];
        i := i - 1;
      }
      history[0] := NO_SCORE;
    }
  }

  // --- What the window means --------------------------------------------------

  /** Everything ever accepted, by local day: the sum of the increments and the
      booster. */
  datatype ScoreBook = ScoreBook(totals: map<int, nat>, boosters: map<int, Score>)

  function RecordOf(book: ScoreBook, day: int): DailyScore {
    DailyScore(Min(At(book.totals, day), MAX_SCORE), if day in book.boosters then book.boosters[day] else 0)
  }

  /** The window shows the book at the update day and the day before, and the
      book knows nothing of later days. */
  ghost predicate Refines(window: ScoreWindow, day: int, book: ScoreBook) {
    && window.today == RecordOf(book, day)
    && window.yesterday == RecordOf(book, day - 1)
    && (forall known :: known in book.totals || known in book.boosters ==> known <= day)
  }

  function WithTotal(book: ScoreBook, day: int, increment: nat): ScoreBook {
    book.(totals := book.totals[day := At(book.totals, day) + increment])
  }

  /** Entering accepted increments into the book. */
  function Booked(book: ScoreBook, increments: seq<(Score, Timestamp)>, tz: Timezone, now: Timestamp): ScoreBook
    requires AllPast(increments, tz, now)
  {
    if increments == [] then book else
      var n := |increments| - 1;
      var before := Booked(book, increments[..n], tz, now);
      var day := tz.LocalDay(increments[n].1);
      if DaysAgo(tz, increments[n].1, now) < DAYS_STORED then WithTotal(before, day, increments[n].0) else before
  }

  /** Moving the window to today changes how it is read, not what it says. */
  lemma MovedOnRefines(window: ScoreWindow, tz: Timezone, now: Timestamp, book: ScoreBook)
    requires DaysKnown(tz, window.updatedAt, now)
    requires Refines(window, tz.LocalDay(window.updatedAt), book)
    ensures Refines(MovedOn(window, DaysSince(tz, window.updatedAt, now)), tz.LocalDay(now), book)
  {
  }

  lemma IncrementRefines(window: ScoreWindow, day: int, book: ScoreBook, daysAgo: nat, increment: Score)
    requires daysAgo < DAYS_STORED
    requires Refines(window, day, book)
    ensures Refines(WithIncrement(window, daysAgo, increment), day, WithTotal(book, day - daysAgo, increment))
  {
  }

  lemma {:induction false} RecordedRefines(window: ScoreWindow, increments: seq<(Score, Timestamp)>, tz: Timezone, now: Timestamp, book: ScoreBook)
    requires AllPast(increments, tz, now)
    requires tz.InRange(now) && Refines(window, tz.LocalDay(now), book)
    ensures Refines(WithIncrements(window, Recent(increments, tz, now)), tz.LocalDay(now), Booked(book, increments, tz, now))
  {
    if increments != [] {
      var n := |increments| - 1;
      RecordedRefines(window, increments[..n], tz, now, book);
      var recent := Recent(increments[..n], tz, now);
      var daysAgo := DaysAgo(tz, increments[n].1, now);
      if daysAgo < DAYS_STORED {
        var all := recent + [(increments[n].0, daysAgo)];
        assert all[..|all| - 1] == recent;
        IncrementRefines(WithIncrements(window, recent), tz.LocalDay(now), Booked(book, increments[..n], tz, now),
                         daysAgo, increments[n].0);
      } else {
        assert recent + [] == recent;
      }
    }
  }

  // --- Runs -------------------------------------------------------------------

  datatype ScoreEvent =
    | RecordEvent(at: Timestamp, increments: seq<(Score, Timestamp)>)
    | BoostEvent(at: Timestamp, value: Score, earnedAt: Timestamp)

  /** The events a fixed timezone accepts: settlement first, then the change. */
  predicate Accepts(window: ScoreWindow, tz: Timezone, event: ScoreEvent) {
    && DaysKnown(tz, window.updatedAt, event.at)
    && match event
       case RecordEvent(at, increments) => AllPast(increments, tz, at)
       case BoostEvent(at, value, earnedAt) =>
         && NotFuture(tz, earnedAt, at)
         && AcceptsBooster(MovedOn(window, DaysSince(tz, window.updatedAt, at)), DaysAgo(tz, earnedAt, at))
  }

  function AfterEvent(window: ScoreWindow, tz: Timezone, event: ScoreEvent): ScoreWindow
    requires Accepts(window, tz, event)
  {
    var moved := MovedOn(window, DaysSince(tz, window.updatedAt, event.at));
    match event
    case RecordEvent(at, increments) => Recorded(moved, increments, tz, at)
    case BoostEvent(at, value, earnedAt) => WithBooster(moved, DaysAgo(tz, earnedAt, at), value, at)
  }

  function BookAfterEvent(window: ScoreWindow, tz: Timezone, event: ScoreEvent, book: ScoreBook): ScoreBook
    requires Accepts(window, tz, event)
  {
    match event
    case RecordEvent(at, increments) => Booked(book, increments, tz, at)
    case BoostEvent(at, value, earnedAt) => book.(boosters := book.boosters[tz.LocalDay(earnedAt) := value])
  }

  predicate RunsThrough(window: ScoreWindow, tz: Timezone, events: seq<ScoreEvent>)
    decreases |events|
  {
    events == [] || (Accepts(window, tz, events[0]) && RunsThrough(AfterEvent(window, tz, events[0]), tz, events[1..]))
  }

  function WindowAfter(window: ScoreWindow, tz: Timezone, events: seq<ScoreEvent>): ScoreWindow
    requires RunsThrough(window, tz, events)
    decreases |events|
  {
    if events == [] then window else WindowAfter(AfterEvent(window, tz, events[0]), tz, events[1..])
  }

  function BookAfter(window: ScoreWindow, tz: Timezone, events: seq<ScoreEvent>, book: ScoreBook): ScoreBook
    requires RunsThrough(window, tz, events)
    decreases |events|
  {
    if events == [] then book else
      BookAfter(AfterEvent(window, tz, events[0]), tz, events[1..], BookAfterEvent(window, tz, events[0], book))
  }

  lemma EventRefines(window: ScoreWindow, tz: Timezone, event: ScoreEvent, book: ScoreBook)
    requires Accepts(window, tz, event)
    requires Refines(window, tz.LocalDay(window.updatedAt), book)
    ensures Refines(AfterEvent(window, tz, event), tz.LocalDay(event.at), BookAfterEvent(window, tz, event, book))
  {
    MovedOnRefines(window, tz, event.at, book);
    var moved := MovedOn(window, DaysSince(tz, window.updatedAt, event.at));
    match event
    case RecordEvent(at, increments) => RecordedRefines(moved, increments, tz, at, book);
    case BoostEvent(at, value, earnedAt) =>
  }

  /** Over any run of recordings and accepted boosters the window is the book seen
      from the day of the last update, and at every later moment the last
      finalized record is the book at yesterday, saturated at 16 bits. */
  lemma {:induction false} WindowShowsTheBook(window: ScoreWindow, tz: Timezone, events: seq<ScoreEvent>, book: ScoreBook, later: Timestamp)
    requires RunsThrough(window, tz, events)
    requires tz.InRange(window.updatedAt) && Refines(window, tz.LocalDay(window.updatedAt), book)
    ensures var w := WindowAfter(window, tz, events);
            var b := BookAfter(window, tz, events, book);
            && tz.InRange(w.updatedAt)
            && Refines(w, tz.LocalDay(w.updatedAt), b)
            && (DaysKnown(tz, w.updatedAt, later) ==>
                  LastFinalized(w, DaysSince(tz, w.updatedAt, later)) == RecordOf(b, tz.LocalDay(later) - 1))
    decreases |events|
  {
    if events != [] {
      EventRefines(window, tz, events[0], book);
      WindowShowsTheBook(AfterEvent(window, tz, events[0]), tz, events[1..],
                         BookAfterEvent(window, tz, events[0], book), later);
    }
  }

  /** A fresh account starts with an empty book. */
  lemma NewWindowRefinesEmptyBook(now: Timestamp, day: int)
    ensures Refines(NewAccount(now).score, day, ScoreBook(map[], map[]))
  {
  }

  /** For an account from its creation on: the window is the book of everything that
      was ever accepted, with nothing assumed of the start. */
  lemma NewAccountShowsTheBook(start: Timestamp, tz: Timezone, events: seq<ScoreEvent>, later: Timestamp)
    requires tz.InRange(start) && RunsThrough(NewAccount(start).score, tz, events)
    ensures var w := WindowAfter(NewAccount(start).score, tz, events);
            var b := BookAfter(NewAccount(start).score, tz, events, ScoreBook(map[], map[]));
            && tz.InRange(w.updatedAt)
            && Refines(w, tz.LocalDay(w.updatedAt), b)
            && (DaysKnown(tz, w.updatedAt, later) ==>
                  LastFinalized(w, DaysSince(tz, w.updatedAt, later)) == RecordOf(b, tz.LocalDay(later) - 1))
  {
    NewWindowRefinesEmptyBook(start, tz.LocalDay(start));
    WindowShowsTheBook(NewAccount(start).score, tz, events, ScoreBook(map[], map[]), later);
  }

  /** A rejected booster still moves the window without moving the update day.
      The window keeps showing the book exactly when there was nothing to move. */
  lemma RejectedBoosterKeepsTheBookIff(window: ScoreWindow, tz: Timezone, now: Timestamp, book: ScoreBook)
    requires DaysKnown(tz, window.updatedAt, now)
    requires Refines(window, tz.LocalDay(window.updatedAt), book)
    ensures var days := DaysSince(tz, window.updatedAt, now);
            Refines(MovedOn(window, days), tz.LocalDay(window.updatedAt), book)
            <==> days == 0 || (window.today == NO_SCORE && window.yesterday == NO_SCORE)
  {
  }
}
