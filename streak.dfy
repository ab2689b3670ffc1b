/** The streak: consecutive days with at least one completed task, counted
    backwards from today, where an empty today is skipped once. */
module Streak {
  import opened Domain

  /** A day counts when it has a record with a completed task. */
  predicate Done(history: map<int, DayData>, d: int)
  {
    d in history && HasCompleted(history[d])
  }

  /** The recorded days on or before `d`; the walk's termination measure. */
  ghost function KeysUpTo(history: map<int, DayData>, d: int): set<int>
  {
    set k | k in history && k <= d
  }

  lemma KeysUpToStep(history: map<int, DayData>, d: int)
    requires d in history
    ensures KeysUpTo(history, d) == KeysUpTo(history, d - 1) + {d}
    ensures d !in KeysUpTo(history, d - 1)
    ensures |KeysUpTo(history, d)| == |KeysUpTo(history, d - 1)| + 1
  {
  }

  /** Number of consecutive done days ending at `d`. */
  function RunFrom(history: map<int, DayData>, d: int): (n: nat)
    ensures n <= |KeysUpTo(history, d)|
    decreases KeysUpTo(history, d)
  {
    if Done(history, d) then
      KeysUpToStep(history, d);
      1 + RunFrom(history, d - 1)
    else 0
  }

  /** The day the count starts from: today, or yesterday if today has
      nothing completed yet. */
  function StartDay(history: map<int, DayData>, today: int): int
  {
    if Done(history, today) then today else today - 1
  }

  function StreakOf(history: map<int, DayData>, today: int): nat
  {
    RunFrom(history, StartDay(history, today))
  }

  /** Every day in `(d - n, d]` is done and day `d - n` is not. */
  predicate MaximalRun(history: map<int, DayData>, d: int, n: nat)
  {
    (forall day :: d - n < day <= d ==> Done(history, day)) && !Done(history, d - n)
  }

  /** `RunFrom` is exactly the length of the maximal run of done days
      ending at `d`. */
  lemma {:induction false} RunFromCharacterised(history: map<int, DayData>, d: int, n: nat)
    ensures RunFrom(history, d) == n <==> MaximalRun(history, d, n)
    decreases n
  {
    if n == 0 {
    } else if Done(history, d) {
      RunFromCharacterised(history, d - 1, n - 1);
    } else {
      assert !(d - n < d <= d ==> Done(history, d));
    }
  }

  /** The streak is the maximal run of done days from the start day. */
  lemma StreakCharacterised(history: map<int, DayData>, today: int, n: nat)
    ensures StreakOf(history, today) == n <==> MaximalRun(history, StartDay(history, today), n)
  {
    RunFromCharacterised(history, StartDay(history, today), n);
  }

  lemma {:induction false} SubsetSize<T>(a: set<T>, b: set<T>)
    requires a <= b
    ensures |a| <= |b|
    decreases a
  {
    if a != {} {
      var x :| x in a;
      SubsetSize(a - {x}, b - {x});
    }
  }

  /** Only recorded days can be counted, so the streak never exceeds the
      number of history entries. */
  lemma StreakAtMostHistory(history: map<int, DayData>, today: int)
    ensures StreakOf(history, today) <= |history|
  {
    SubsetSize(KeysUpTo(history, StartDay(history, today)), history.Keys);
  }

  lemma StreakOfEmptyHistory(today: int)
    ensures StreakOf(map[], today) == 0
  {
  }
}
