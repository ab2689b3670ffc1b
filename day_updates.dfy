/** What the dashboard updaters do to each store's experience points when
    they pass through `updateToday`. */
module DayUpdates {
  import opened Domain
  import opened Progress
  import opened Dashboard
  import Lib = LibStore
  import Legacy = LegacyStore
  import LibTypes
  import LegacyTypes
  import FocusTimer

  /** xp after adding `delta`, floored at zero. */
  function ClampedXp(xp: int, delta: int): int
  {
    if xp + delta < 0 then 0 else xp + delta
  }

  /** Newer store: toggling one of today's tasks flips exactly that task and
      moves xp by ten, up or down, floored at zero, with the level kept in
      step. A day not yet stored starts from the template, whose ids are
      unique; a stored day is required to have unique ids. */
  lemma LibToggleMovesXpByTen(s: Lib.State, today: int, k: nat)
    requires today in s.history ==> HasUniqueIds(s.history[today].tasks)
    requires k < |Lib.CurrentDay(s.history, today).tasks|
    ensures
      var before := Lib.CurrentDay(s.history, today);
      var r := Lib.UpdateTodayState(s, today, d => ToggleTask(d, before.tasks[k].id));
      && r.history[today].tasks[k].completed == !before.tasks[k].completed
      && r.identity.xp == ClampedXp(s.identity.xp, if before.tasks[k].completed then -XpPerTask else XpPerTask)
      && Consistent(r.identity)
  {
    var before := Lib.CurrentDay(s.history, today);
    if today !in s.history {
      LibTypes.InitialTasksUniqueIds();
    }
    ToggleXpGain(before, k);
  }

  /** Older store: the same toggle moves xp the same way, but the level
      follows the unclamped sum. */
  lemma LegacyToggleMovesXpByTen(s: Legacy.State, today: int, k: nat)
    requires today in s.history ==> HasUniqueIds(s.history[today].tasks)
    requires k < |Legacy.GetDayData(s.history, today).tasks|
    ensures
      var before := Legacy.GetDayData(s.history, today);
      var delta := if before.tasks[k].completed then -XpPerTask else XpPerTask;
      var r := Legacy.UpdateTodayState(s, today, d => ToggleTask(d, before.tasks[k].id));
      && r.history[today].tasks[k].completed == !before.tasks[k].completed
      && r.identity.xp == ClampedXp(s.identity.xp, delta)
      && r.identity.level == LevelOf(s.identity.xp + delta)
  {
    var before := Legacy.GetDayData(s.history, today);
    if today !in s.history {
      LegacyTypes.InitialTasksUniqueIds();
    }
    ToggleXpGain(before, k);
  }

  /** Newer store: an updater that leaves the task list alone (water, focus
      minutes) leaves a consistent identity exactly as it was. */
  lemma LibTaskNeutralKeepsIdentity(s: Lib.State, today: int, updater: DayData -> DayData)
    requires Consistent(s.identity)
    requires updater(Lib.CurrentDay(s.history, today)).tasks == Lib.CurrentDay(s.history, today).tasks
    ensures Lib.UpdateTodayState(s, today, updater).identity == s.identity
  {
  }

  /** Older store: the same holds for a consistent identity, since a zero
      gain re-derives the level from the stored, non-negative xp. */
  lemma LegacyTaskNeutralKeepsIdentity(s: Legacy.State, today: int, updater: DayData -> DayData)
    requires Consistent(s.identity)
    requires updater(Legacy.GetDayData(s.history, today)).tasks == Legacy.GetDayData(s.history, today).tasks
    ensures Legacy.UpdateTodayState(s, today, updater).identity == s.identity
  {
  }

  /** Newer store: the water buttons and a completed focus session change
      only today's record; a consistent identity keeps its xp and level. */
  lemma LibWaterAndFocusEarnNothing(s: Lib.State, today: int, delta: real)
    requires Consistent(s.identity)
    ensures Lib.UpdateTodayState(s, today, d => WaterByDelta(d, delta)).identity == s.identity
    ensures Lib.UpdateTodayState(s, today, FocusTimer.AddFocusMinutes).identity == s.identity
  {
    LibTaskNeutralKeepsIdentity(s, today, d => WaterByDelta(d, delta));
    LibTaskNeutralKeepsIdentity(s, today, FocusTimer.AddFocusMinutes);
  }

  /** Older store: the same for the absolute water input and a completed
      focus session, whose displayed reward is therefore never added to xp. */
  lemma LegacyWaterAndFocusEarnNothing(s: Legacy.State, today: int, val: real)
    requires Consistent(s.identity)
    ensures Legacy.UpdateTodayState(s, today, d => WaterSetTo(d, val)).identity == s.identity
    ensures Legacy.UpdateTodayState(s, today, FocusTimer.AddFocusMinutes).identity == s.identity
  {
    LegacyTaskNeutralKeepsIdentity(s, today, d => WaterSetTo(d, val));
    LegacyTaskNeutralKeepsIdentity(s, today, FocusTimer.AddFocusMinutes);
  }
}
