/** The newer store: one state cell holding the date-keyed history, the
    identity profile and the selected tab, loaded once by merging the saved
    blob over the defaults and saved after every change once loaded. */
module LibStore {
  import opened Domain
  import opened LibTypes
  import opened Progress
  import opened Streak

  /** The whole state cell. */
  datatype State = State(history: map<int, DayData>, identity: IdentityProfile, activeTab: Tab)

  /** A parsed saved blob: top-level fields may be missing. */
  datatype SavedState = SavedState(
    history: Option<map<int, DayData>>,
    identity: Option<IdentityProfile>,
    activeTab: Option<Tab>)

  /** What the storage key yields: nothing, text that does not parse, or a
      parsed blob. */
  datatype Stored = Absent | Unparseable | Parsed(blob: SavedState)

  function DefaultIdentity(): (p: IdentityProfile)
    ensures Consistent(p) && p.xp == 0 && p.level == 1
  {
    IdentityProfile("Architect of Excellence", ["Focus", "Integrity"], ["Early rising"], ["Distraction"], 1, 0)
  }

  function DefaultState(): State
  {
    State(map[], DefaultIdentity(), Dashboard)
  }

  /** `{ ...prev, ...JSON.parse(saved) }`, with a parse failure swallowed as
      the `catch` intends. */
  function LoadMerge(prev: State, stored: Stored): (r: State)
    ensures !stored.Parsed? ==> r == prev
    ensures stored.Parsed? ==>
      && r.history == OrElse(stored.blob.history, prev.history)
      && r.identity == OrElse(stored.blob.identity, prev.identity)
      && r.activeTab == OrElse(stored.blob.activeTab, prev.activeTab)
  {
    match stored
    case Parsed(b) =>
      State(OrElse(b.history, prev.history), OrElse(b.identity, prev.identity), OrElse(b.activeTab, prev.activeTab))
    case _ => prev
  }

  /** The mount-time load as written: `JSON.parse` runs inside the state
      updater, outside the `try`, so text that does not parse makes the
      render that applies the updater fail and nothing of the load is
      committed (`None`); every other input commits the merge. */
  function LoadAsWritten(prev: State, stored: Stored): (r: Option<State>)
    ensures r.None? <==> stored.Unparseable?
    ensures r.Some? ==> r.value == LoadMerge(prev, stored)
  {
    if stored.Unparseable? then None else Some(LoadMerge(prev, stored))
  }

  /** On unparseable text the load as written commits nothing, where the
      intended load keeps the state and goes on. */
  lemma UnparseableBlobAbortsLoad(prev: State)
    ensures LoadAsWritten(prev, Unparseable) == None
    ensures LoadMerge(prev, Unparseable) == prev
  {
  }

  /** `currentDayData`: today's stored record, or a fresh one from the
      template that is not inserted into the history. */
  function CurrentDay(history: map<int, DayData>, today: int): (d: DayData)
    ensures today in history ==> d == history[today]
    ensures today !in history ==>
      && d.date == today && d.tasks == InitialTasks
      && AllIncomplete(d.tasks)
      && d.deepWorkMinutes == 0 && d.waterIntake == 0.0
  {
    InitialTasksShape();
    DayFor(history, today, InitialTasks)
  }

  /** `updateToday`: apply the updater to today's record, move xp by ten
      per net completed task (clamped at zero), re-derive the level, and
      store the result under today. */
  function UpdateTodayState(s: State, today: int, updater: DayData -> DayData): (r: State)
    ensures today in r.history
    ensures forall d :: d in r.history <==> d in s.history || d == today
    ensures r.history[today] == updater(CurrentDay(s.history, today))
    ensures forall d :: d in s.history && d != today ==> r.history[d] == s.history[d]
    ensures r.activeTab == s.activeTab
    ensures Consistent(r.identity)
    ensures r.identity == Award(s.identity, XpGain(CurrentDay(s.history, today).tasks, r.history[today].tasks))
  {
    var before := CurrentDay(s.history, today);
    var after := updater(before);
    State(s.history[today := after], Award(s.identity, XpGain(before.tasks, after.tasks)), s.activeTab)
  }

  /** After an update, reading today gives back the updater's result. */
  lemma ReadBackAfterUpdate(s: State, today: int, updater: DayData -> DayData)
    ensures CurrentDay(UpdateTodayState(s, today, updater).history, today) == updater(CurrentDay(s.history, today))
  {
  }

  class AppStore {
    var history: map<int, DayData>
    var identity: IdentityProfile
    var activeTab: Tab
    var isLoaded: bool
    /** The last snapshot written to storage, if any. */
    ghost var persisted: Option<State>

    function Current(): State
      reads this
    {
      State(history, identity, activeTab)
    }

    /** Starts from the defaults, not yet loaded, and writes nothing. */
    constructor ()
      ensures Current() == DefaultState()
      ensures !isLoaded && persisted == None
    {
      history := map[];
      identity := DefaultIdentity();
      activeTab := Dashboard;
      isLoaded := false;
      persisted := None;
    }

    /** The save effect: once loaded, every change writes the whole state. */
    method Save()
      modifies this`persisted
      ensures persisted == if isLoaded then Some(Current()) else old(persisted)
    {
      if isLoaded {
        persisted := Some(Current());
      }
    }

    /** The start-up load: merge, then open the save gate, which writes the
        merged state. */
    method Load(stored: Stored)
      requires !isLoaded
      modifies this
      ensures Current() == LoadMerge(old(Current()), stored)
      ensures isLoaded
      ensures persisted == Some(Current())
    {
      match stored {
        case Parsed(b) =>
          history := OrElse(b.history, history);
          identity := OrElse(b.identity, identity);
          activeTab := OrElse(b.activeTab, activeTab);
        case _ =>
      }
      isLoaded := true;
      Save();
    }

    /** The start-up load as written: on unparseable text the mount render
        fails, so neither the state nor the loaded flag changes and nothing
        is written; otherwise it is `Load`. */
    method TryLoad(stored: Stored) returns (failed: bool)
      requires !isLoaded
      modifies this
      ensures failed <==> stored.Unparseable?
      ensures failed ==> Current() == old(Current()) && !isLoaded && persisted == old(persisted)
      ensures !failed ==> Current() == LoadMerge(old(Current()), stored) && isLoaded && persisted == Some(Current())
    {
      if stored.Unparseable? {
        return true;
      }
      failed := false;
      Load(stored);
    }

    method UpdateToday(today: int, updater: DayData -> DayData)
      modifies this
      ensures Current() == UpdateTodayState(old(Current()), today, updater)
      ensures isLoaded == old(isLoaded)
      ensures persisted == if isLoaded then Some(Current()) else old(persisted)
    {
      var before := CurrentDay(history, today);
      var after := updater(before);
      var completedDiff := CompletedCount(after.tasks) - CompletedCount(before.tasks);
      identity := Award(identity, completedDiff * XpPerTask);
      history := history[today := after];
      Save();
    }

    method SetTab(tab: Tab)
      modifies this
      ensures Current() == old(Current()).(activeTab := tab)
      ensures isLoaded == old(isLoaded)
      ensures persisted == if isLoaded then Some(Current()) else old(persisted)
    {
      activeTab := tab;
      Save();
    }

    method UpdateIdentity(patch: IdentityPatch)
      modifies this
      ensures Current() == old(Current()).(identity := MergeIdentity(old(identity), patch))
      ensures isLoaded == old(isLoaded)
      ensures persisted == if isLoaded then Some(Current()) else old(persisted)
    {
      identity := MergeIdentity(identity, patch);
      Save();
    }

    /** The backwards walk, day by day from today. */
    method Streak(today: int) returns (count: nat)
      ensures count == StreakOf(history, today)
    {
      count := 0;
      var curr := today;
      while true
        invariant curr <= today
        invariant curr == today ==> count == 0
        invariant curr < today ==> count + RunFrom(history, curr) == StreakOf(history, today)
        decreases KeysUpTo(history, curr), if curr == today then 1 else 0
      {
        var completed := curr in history && HasCompleted(history[curr]);
        if completed {
          KeysUpToStep(history, curr);
          count := count + 1;
          curr := curr - 1;
        } else if curr == today {
          curr := curr - 1;
        } else {
          break;
        }
      }
    }
  }
}
