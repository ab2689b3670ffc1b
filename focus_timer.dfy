/** The focus timer shared by both deep-work screens: a 25-minute countdown
    driven one second at a time, which on reaching zero closes the session,
    counts it and credits its minutes to today's record. */
module FocusTimer {
  import opened Domain
  import opened ClockFormat

  const SessionMinutes := 25
  const SessionSeconds := SessionMinutes * 60

  /** The updater handed to the store when a session completes: 25 more
      focus minutes, everything else, the tasks included, as it was. */
  function AddFocusMinutes(day: DayData): (r: DayData)
    ensures r.deepWorkMinutes == day.deepWorkMinutes + SessionMinutes
    ensures r == day.(deepWorkMinutes := r.deepWorkMinutes)
    ensures XpGain(day.tasks, r.tasks) == 0
  {
    day.(deepWorkMinutes := day.deepWorkMinutes + SessionMinutes)
  }

  class Timer {
    var timeLeft: int
    var isActive: bool
    var sessions: nat
    /** Focus minutes this timer has handed to the store so far. */
    ghost var credited: int

    /** Between steps the countdown is positive and at most one session,
        and every counted session has been credited. */
    ghost predicate Valid()
      reads this
    {
      0 < timeLeft <= SessionSeconds && credited == sessions * SessionMinutes
    }

    /** Inactive, a full session on the clock, no sessions yet. */
    constructor ()
      ensures Valid()
      ensures timeLeft == SessionSeconds && !isActive && sessions == 0
    {
      timeLeft := SessionSeconds;
      isActive := false;
      sessions := 0;
      credited := 0;
    }

    /** `finishSession` / `handleComplete`: stop, count the session, credit
        its minutes and put a full session back on the clock. */
    method Finish()
      modifies this
      ensures !isActive && timeLeft == SessionSeconds
      ensures sessions == old(sessions) + 1
      ensures credited == old(credited) + SessionMinutes
    {
      isActive := false;
      sessions := sessions + 1;
      credited := credited + SessionMinutes;
      timeLeft := SessionSeconds;
    }

    /** One second of the interval, followed by the effect that finishes the
        session once the countdown reads zero. `finished` says whether the
        store was handed `AddFocusMinutes`. */
    method Tick() returns (finished: bool)
      requires Valid()
      modifies this
      ensures Valid()
      ensures !old(isActive) ==> !finished && timeLeft == old(timeLeft) && !isActive && sessions == old(sessions)
      ensures old(isActive) && old(timeLeft) > 1 ==>
        !finished && isActive && timeLeft == old(timeLeft) - 1 && sessions == old(sessions)
      ensures old(isActive) && old(timeLeft) == 1 ==>
        finished && !isActive && timeLeft == SessionSeconds && sessions == old(sessions) + 1
    {
      if isActive && timeLeft > 0 {
        timeLeft := timeLeft - 1;
      }
      finished := false;
      if timeLeft == 0 {
        Finish();
        finished := true;
      }
    }

    /** The play/pause button. */
    method Toggle()
      requires Valid()
      modifies this`isActive
      ensures Valid()
      ensures isActive == !old(isActive)
      ensures timeLeft == old(timeLeft) && sessions == old(sessions)
    {
      isActive := !isActive;
    }

    /** The reset button: stop and refill the clock, keeping the count. */
    method Reset()
      requires Valid()
      modifies this`isActive, this`timeLeft
      ensures Valid()
      ensures !isActive && timeLeft == SessionSeconds
      ensures sessions == old(sessions)
    {
      isActive := false;
      timeLeft := SessionSeconds;
    }

    /** The reward shown beside the session count: the focus minutes
        credited so far. */
    function Reward(): (shown: int)
      requires Valid()
      reads this
      ensures shown == credited
    {
      sessions * SessionMinutes
    }

    /** The clock face: always `mm:ss`, reading back as the time left. */
    function Display(): (text: string)
      requires Valid()
      reads this
      ensures |text| == 5 && text[2] == ':'
      ensures IsClockText(text) && ParseClock(text) == timeLeft
    {
      FormatTimeRoundTrip(timeLeft);
      FormatTime(timeLeft)
    }
  }
}
