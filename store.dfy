/** The older store: the same state cell, loaded lazily by taking a
    parsable saved blob wholesale, saved after every change, with the level
    derived from the unclamped xp sum. */
module LegacyStore {
  import opened Domain
  import opened LegacyTypes
  import opened Progress
  import opened Streak

  /** The whole state cell; the tab is any string here. */
  datatype State = State(history: map<int, DayData>, identity: IdentityProfile, activeTab: string)

  /** What the storage key yields: nothing, text that does not parse, or a
      parsed state. */
  datatype Stored = Absent | Unparseable | Parsed(state: State)

  function DefaultIdentity(): (p: IdentityProfile)
    ensures Consistent(p) && p.xp == 0 && p.level == 1
  {
    IdentityProfile(
      "The Man I Am Becoming in 2026",
      ["Discipline", "Integrity", "Excellence"],
      ["Never miss a prayer", "Early wake up", "Consistency"],
      ["Complacency", "Escapism", "Arrogance"],
      1, 0)
  }

  function DefaultState(): State
  {
    State(map[], DefaultIdentity(), "dashboard")
  }

  /** The lazy initial state: a parsed blob replaces the defaults entirely;
      anything else falls back to them. */
  function Initial(stored: Stored): (r: State)
    ensures stored.Parsed? ==> r == stored.state
    ensures !stored.Parsed? ==> r.history == map[] && r.activeTab == "dashboard"
    ensures !stored.Parsed? ==> r.identity == DefaultIdentity() && Consistent(r.identity)
  {
    if stored.Parsed? then stored.state else DefaultState()
  }

  /** `getDayData(date)`: the stored record, or a fresh one from the
      template, without touching the history. */
  function GetDayData(history: map<int, DayData>, date: int): (d: DayData)
    ensures date in history ==> d == history[date]
    ensures date !in history ==>
      && d.date == date && d.tasks == InitialTasks
      && AllIncomplete(d.tasks)
      && d.deepWorkMinutes == 0 && d.waterIntake == 0.0
  {
    InitialTasksShape();
    DayFor(history, date, InitialTasks)
  }

  /** `updateToday` as written: xp clamped at zero, level from the raw sum. */
  function UpdateTodayState(s: State, today: int, updater: DayData -> DayData): (r: State)
    ensures today in r.history
    ensures forall d :: d in r.history <==> d in s.history || d == today
    ensures r.history[today] == updater(GetDayData(s.history, today))
    ensures forall d :: d in s.history && d != today ==> r.history[d] == s.history[d]
    ensures r.activeTab == s.activeTab
    ensures r.identity == LegacyAward(s.identity, XpGain(GetDayData(s.history, today).tasks, r.history[today].tasks))
  {
    var currentDay := GetDayData(s.history, today);
    var updatedDay := updater(currentDay);
    var gain := XpGain(currentDay.tasks, updatedDay.tasks);
    State(s.history[today := updatedDay], LegacyAward(s.identity, gain), s.activeTab)
  }

  class AppStore {
    var history: map<int, DayData>
    var identity: IdentityProfile
    var activeTab: string
    /** The last snapshot written to storage, if any. */
    ghost var persisted: Option<State>

    function Current(): State
      reads this
    {
      State(history, identity, activeTab)
    }

    /** The lazy initializer, followed by the mount-time save. */
    constructor (stored: Stored)
      ensures Current() == Initial(stored)
      ensures persisted == Some(Current())
    {
      match stored {
        case Parsed(st) =>
          history, identity, activeTab := st.history, st.identity, st.activeTab;
        case _ =>
          history, identity, activeTab := map[], DefaultIdentity(), "dashboard";
      }
      persisted := Some(State(history, identity, activeTab));
    }

    method UpdateToday(today: int, updater: DayData -> DayData)
      modifies this
      ensures Current() == UpdateTodayState(old(Current()), today, updater)
      ensures persisted == Some(Current())
    {
      var currentDay := GetDayData(history, today);
      var updatedDay := updater(currentDay);
      var completedCount := CompletedCount(updatedDay.tasks);
      var prevCompleted := CompletedCount(currentDay.tasks);
      var xpGain := (completedCount - prevCompleted) * XpPerTask;
      var newXp := identity.xp + xpGain;
      var newLevel := LevelOf(newXp);
      identity := identity.(xp := if newXp < 0 then 0 else newXp, level := newLevel);
      history := history[today := updatedDay];
      persisted := Some(Current());
    }

    method SetTab(tab: string)
      modifies this
      ensures Current() == old(Current()).(activeTab := tab)
      ensures persisted == Some(Current())
    {
      activeTab := tab;
      persisted := Some(Current());
    }

    method UpdateIdentity(patch: IdentityPatch)
      modifies this
      ensures Current() == old(Current()).(identity := MergeIdentity(old(identity), patch))
      ensures persisted == Some(Current())
    {
      identity := MergeIdentity(identity, patch);
      persisted := Some(Current());
    }

    /** The backwards walk, with its early return on an empty history. */
    method Streak(today: int) returns (count: nat)
      ensures count == StreakOf(history, today)
    {
      if |history| == 0 {
        return 0;
      }
      count := 0;
      var curr := today;
      var todayStr := today;
      while true
        invariant curr <= today
        invariant curr == today ==> count == 0
        invariant curr < today ==> count + RunFrom(history, curr) == StreakOf(history, today)
        decreases KeysUpTo(history, curr), if curr == today then 1 else 0
      {
        var hasCompletedSomething := curr in history && HasCompleted(history[curr]);
        if hasCompletedSomething {
          KeysUpToStep(history, curr);
          count := count + 1;
          curr := curr - 1;
        } else {
          if curr == todayStr {
            curr := curr - 1;
            continue;
          }
          break;
        }
      }
    }
  }
}
