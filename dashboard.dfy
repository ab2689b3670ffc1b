/** The day updaters the two dashboards hand to the store, the completion
    percentage and the per-category sections. The toggle, the percentage
    and the sections are the same in both dashboards; the water update is a
    delta in one and an absolute value in the other. */
module Dashboard {
  import opened Domain

  /** `t.id === id ? { ...t, completed: !t.completed } : t` */
  function Flip(t: Task, id: string): Task
  {
    if t.id == id then t.(completed := !t.completed) else t
  }

  /** `tasks.map(...)` with `Flip`: only the `completed` flag may change,
      and it changes exactly on the tasks carrying the toggled id. */
  function ToggleTasks(tasks: seq<Task>, id: string): (r: seq<Task>)
    ensures |r| == |tasks|
    ensures forall i :: 0 <= i < |tasks| ==> r[i] == tasks[i].(completed := r[i].completed)
    ensures forall i :: 0 <= i < |tasks| ==> (r[i].completed != tasks[i].completed <==> tasks[i].id == id)
  {
    seq(|tasks|, i requires 0 <= i < |tasks| => Flip(tasks[i], id))
  }

  /** `toggleTask`: the updater that flips one task of the day by id. */
  function ToggleTask(day: DayData, id: string): (r: DayData)
    ensures r == day.(tasks := r.tasks)
    ensures r.tasks == ToggleTasks(day.tasks, id)
  {
    day.(tasks := ToggleTasks(day.tasks, id))
  }

  /** Toggling the same task twice restores the task list. */
  lemma ToggleTwiceRestores(tasks: seq<Task>, id: string)
    ensures ToggleTasks(ToggleTasks(tasks, id), id) == tasks
  {
    var once := ToggleTasks(tasks, id);
    var twice := ToggleTasks(once, id);
    assert forall i :: 0 <= i < |tasks| ==> twice[i] == tasks[i];
  }

  /** A toggle by an id no task carries changes nothing. */
  lemma ToggleUnknownId(tasks: seq<Task>, id: string)
    requires forall i :: 0 <= i < |tasks| ==> tasks[i].id != id
    ensures ToggleTasks(tasks, id) == tasks
  {
    assert forall i :: 0 <= i < |tasks| ==> ToggleTasks(tasks, id)[i] == tasks[i];
  }

  /** With unique ids, toggling task `k` moves the completed count by
      exactly one, up if it was open and down if it was done. */
  lemma ToggleMovesCountByOne(tasks: seq<Task>, k: nat)
    requires HasUniqueIds(tasks)
    requires k < |tasks|
    ensures CompletedCount(ToggleTasks(tasks, tasks[k].id)) ==
      CompletedCount(tasks) + (if tasks[k].completed then -1 else 1)
  {
    TogglePrefixCount(tasks, k, |tasks|);
  }

  /** The same, counted over the first `m` tasks: the count moves only once
      the prefix reaches task `k`. */
  lemma {:induction false} TogglePrefixCount(tasks: seq<Task>, k: nat, m: nat)
    requires HasUniqueIds(tasks)
    requires k < |tasks| && m <= |tasks|
    ensures CompletedBefore(ToggleTasks(tasks, tasks[k].id), m) ==
      CompletedBefore(tasks, m) + (if m <= k then 0 else if tasks[k].completed then -1 else 1)
  {
    if m > 0 {
      var r := ToggleTasks(tasks, tasks[k].id);
      TogglePrefixCount(tasks, k, m - 1);
      if m - 1 != k {
        assert tasks[m - 1].id != tasks[k].id;
        assert r[m - 1].completed == tasks[m - 1].completed;
      }
    }
  }

  /** Hence one toggle earns or costs exactly ten XP. */
  lemma ToggleXpGain(day: DayData, k: nat)
    requires HasUniqueIds(day.tasks)
    requires k < |day.tasks|
    ensures XpGain(day.tasks, ToggleTask(day, day.tasks[k].id).tasks) ==
      if day.tasks[k].completed then -XpPerTask else XpPerTask
  {
    ToggleMovesCountByOne(day.tasks, k);
  }

  /** `updateWater(delta)` in the newer dashboard: add the delta, clamp at
      zero, leave everything else. */
  function WaterByDelta(day: DayData, delta: real): (r: DayData)
    ensures r.waterIntake >= 0.0
    ensures r.waterIntake >= day.waterIntake + delta
    ensures r.waterIntake == 0.0 || r.waterIntake == day.waterIntake + delta
    ensures r == day.(waterIntake := r.waterIntake)
  {
    day.(waterIntake := if day.waterIntake + delta < 0.0 then 0.0 else day.waterIntake + delta)
  }

  /** `updateWater(val)` in the older dashboard: set the value, clamp at
      zero, leave everything else. */
  function WaterSetTo(day: DayData, val: real): (r: DayData)
    ensures r.waterIntake >= 0.0
    ensures r.waterIntake >= val
    ensures r.waterIntake == 0.0 || r.waterIntake == val
    ensures r == day.(waterIntake := r.waterIntake)
  {
    day.(waterIntake := if val < 0.0 then 0.0 else val)
  }

  /** `Math.round(done / total * 100)`, or 0 for an empty list: the
      integer nearest to the exact percentage, halves rounded up. */
  function Completion(tasks: seq<Task>): (p: int)
    ensures 0 <= p <= 100
    ensures |tasks| == 0 ==> p == 0
    ensures |tasks| > 0 ==>
      2 * p * |tasks| - |tasks| <= 200 * CompletedCount(tasks) < 2 * p * |tasks| + |tasks|
  {
    if |tasks| > 0 then
      var n, c := |tasks|, CompletedCount(tasks);
      RoundedPercent(c, n)
    else 0
  }

  function RoundedPercent(c: nat, n: nat): (p: int)
    requires 0 < n && c <= n
    ensures 0 <= p <= 100
    ensures 2 * p * n - n <= 200 * c < 2 * p * n + n
  {
    RoundedPercentBounds(c, n);
    (200 * c + n) / (2 * n)
  }

  lemma RoundedPercentBounds(c: nat, n: nat)
    requires 0 < n && c <= n
    ensures var p := (200 * c + n) / (2 * n);
      0 <= p <= 100 && 2 * p * n - n <= 200 * c < 2 * p * n + n
  {
    var k := 2 * n;
    var p := (200 * c + n) / k;
    var m := (200 * c + n) % k;
    assert 200 * c + n == k * p + m && 0 <= m < k;
    assert 2 * p * n == k * p;
    assert k * (p + 1) == k * p + k;
    PositiveFactor(k, p + 1);
    assert 200 * c <= 200 * n;
    assert k * (101 - p) == 202 * n - k * p;
    PositiveFactor(k, 101 - p);
  }

  /** A positive multiple of a positive number comes from a positive factor. */
  lemma PositiveFactor(k: int, x: int)
    requires k > 0 && k * x > 0
    ensures x > 0
  {
  }

  /** `tasks.filter(t => t.category === section)` */
  function InSection(tasks: seq<Task>, section: Category): (r: seq<Task>)
    ensures |r| <= |tasks|
    ensures forall t :: t in r <==> t in tasks && t.category == section
  {
    if tasks == [] then []
    else (if tasks[0].category == section then [tasks[0]] else []) + InSection(tasks[1..], section)
  }

  /** Filtering distributes over concatenation, so the kept tasks appear in
      their original order. */
  lemma {:induction false} InSectionAppend(a: seq<Task>, b: seq<Task>, section: Category)
    ensures InSection(a + b, section) == InSection(a, section) + InSection(b, section)
  {
    if a == [] {
      assert a + b == b;
    } else {
      assert (a + b)[0] == a[0] && (a + b)[1..] == a[1..] + b;
      InSectionAppend(a[1..], b, section);
    }
  }

  /** Each task of the section is kept as often as it occurs, and no other
      task is kept. */
  lemma {:induction false} InSectionCounts(tasks: seq<Task>, section: Category, t: Task)
    ensures multiset(InSection(tasks, section))[t] == if t.category == section then multiset(tasks)[t] else 0
  {
    if tasks != [] {
      assert tasks == [tasks[0]] + tasks[1..];
      InSectionCounts(tasks[1..], section, t);
    }
  }

  /** When every task is in a shown category, every task is listed exactly
      once across the three sections. */
  lemma {:induction false} SectionsListEachTaskOnce(tasks: seq<Task>)
    requires forall i :: 0 <= i < |tasks| ==> tasks[i].category in Sections
    ensures multiset(InSection(tasks, Body)) + multiset(InSection(tasks, Mind)) + multiset(InSection(tasks, Deen)) == multiset(tasks)
    ensures |InSection(tasks, Body)| + |InSection(tasks, Mind)| + |InSection(tasks, Deen)| == |tasks|
  {
    var listed := multiset(InSection(tasks, Body)) + multiset(InSection(tasks, Mind)) + multiset(InSection(tasks, Deen));
    forall t: Task
      ensures listed[t] == multiset(tasks)[t]
    {
      SectionsCountOne(tasks, t);
    }
    assert listed == multiset(tasks);
    assert |listed| == |InSection(tasks, Body)| + |InSection(tasks, Mind)| + |InSection(tasks, Deen)|;
  }

  /** One task's occurrences, summed over the three sections. */
  lemma SectionsCountOne(tasks: seq<Task>, t: Task)
    requires forall i :: 0 <= i < |tasks| ==> tasks[i].category in Sections
    ensures multiset(InSection(tasks, Body))[t] + multiset(InSection(tasks, Mind))[t]
      + multiset(InSection(tasks, Deen))[t] == multiset(tasks)[t]
  {
    InSectionCounts(tasks, Body, t);
    InSectionCounts(tasks, Mind, t);
    InSectionCounts(tasks, Deen, t);
    if t.category !in Sections {
      assert t !in tasks;
    }
  }
}
