/** Entities shared by both generations of the habit tracker: tasks, the
    per-day record, the identity profile and its shallow-merge update. */
module Domain {

  datatype Option<T> = None | Some(value: T)

  /** Life areas a habit belongs to. Career and Social are declared only in
      the older type definitions; no template task uses them. */
  datatype Category = Body | Mind | Deen | Career | Social

  /** The categories both dashboards show a section for, in order; they are
      also exactly the categories the newer definitions declare. */
  const Sections: seq<Category> := [Body, Mind, Deen]

  /** How a task's completion is read (older definitions only). */
  datatype TaskKind = Boolean | Numeric | Scale

  /** One trackable habit; `labelText` is the displayed `label` (a reserved
      word in Dafny). `kind`, `value` and `target` are absent in the newer
      definitions, which is modelled by `None`. */
  datatype Task = Task(
    id: string,
    labelText: string,
    category: Category,
    completed: bool,
    kind: Option<TaskKind>,
    value: Option<int>,
    target: Option<int>)

  /** One calendar day's record; the date is a day number. Water intake is
      in litres and moves in half-litre steps, hence `real`. */
  datatype DayData = DayData(
    date: int,
    tasks: seq<Task>,
    deepWorkMinutes: int,
    waterIntake: real,
    sleepTime: Option<string>)

  datatype IdentityProfile = IdentityProfile(
    vision: string,
    coreValues: seq<string>,
    nonNegotiables: seq<string>,
    antiIdentity: seq<string>,
    level: int,
    xp: int)

  /** A `Partial<IdentityProfile>`: only the `Some` fields are supplied. */
  datatype IdentityPatch = IdentityPatch(
    vision: Option<string>,
    coreValues: Option<seq<string>>,
    nonNegotiables: Option<seq<string>>,
    antiIdentity: Option<seq<string>>,
    level: Option<int>,
    xp: Option<int>)

  function OrElse<T>(o: Option<T>, default: T): T
  {
    match o
    case Some(v) => v
    case None => default
  }

  /** `{ ...p, ...patch }`: every supplied field overwrites, every absent
      one keeps its old value. */
  function MergeIdentity(p: IdentityProfile, patch: IdentityPatch): (r: IdentityProfile)
    ensures patch.vision.None? ==> r.vision == p.vision
    ensures patch.vision.Some? ==> r.vision == patch.vision.value
    ensures patch.coreValues.None? ==> r.coreValues == p.coreValues
    ensures patch.coreValues.Some? ==> r.coreValues == patch.coreValues.value
    ensures patch.nonNegotiables.None? ==> r.nonNegotiables == p.nonNegotiables
    ensures patch.nonNegotiables.Some? ==> r.nonNegotiables == patch.nonNegotiables.value
    ensures patch.antiIdentity.None? ==> r.antiIdentity == p.antiIdentity
    ensures patch.antiIdentity.Some? ==> r.antiIdentity == patch.antiIdentity.value
    ensures patch.level.None? ==> r.level == p.level
    ensures patch.level.Some? ==> r.level == patch.level.value
    ensures patch.xp.None? ==> r.xp == p.xp
    ensures patch.xp.Some? ==> r.xp == patch.xp.value
  {
    IdentityProfile(
      OrElse(patch.vision, p.vision),
      OrElse(patch.coreValues, p.coreValues),
      OrElse(patch.nonNegotiables, p.nonNegotiables),
      OrElse(patch.antiIdentity, p.antiIdentity),
      OrElse(patch.level, p.level),
      OrElse(patch.xp, p.xp))
  }

  /** `tasks.filter(t => t.completed).length` */
  function CompletedCount(tasks: seq<Task>): (n: nat)
    ensures n <= |tasks|
    ensures n == 0 <==> forall i :: 0 <= i < |tasks| ==> !tasks[i].completed
    ensures n == |tasks| <==> forall i :: 0 <= i < |tasks| ==> tasks[i].completed
  {
    CompletedBeforeExtremes(tasks, |tasks|);
    CompletedBefore(tasks, |tasks|)
  }

  /** Completed tasks among the first `k`. */
  function CompletedBefore(tasks: seq<Task>, k: nat): (n: nat)
    requires k <= |tasks|
    ensures n <= k
  {
    if k == 0 then 0
    else CompletedBefore(tasks, k - 1) + (if tasks[k - 1].completed then 1 else 0)
  }

  /** None of the first `k` is done exactly when the count is zero, and all
      of them exactly when it is `k`. */
  lemma {:induction false} CompletedBeforeExtremes(tasks: seq<Task>, k: nat)
    requires k <= |tasks|
    ensures CompletedBefore(tasks, k) == 0 <==> forall i :: 0 <= i < k ==> !tasks[i].completed
    ensures CompletedBefore(tasks, k) == k <==> forall i :: 0 <= i < k ==> tasks[i].completed
  {
    if k > 0 {
      CompletedBeforeExtremes(tasks, k - 1);
    }
  }

  /** `day.tasks.some(t => t.completed)` */
  predicate HasCompleted(day: DayData)
  {
    exists i :: 0 <= i < |day.tasks| && day.tasks[i].completed
  }

  predicate HasUniqueIds(tasks: seq<Task>)
  {
    forall i, j :: 0 <= i < j < |tasks| ==> tasks[i].id != tasks[j].id
  }

  predicate AllIncomplete(tasks: seq<Task>)
  {
    forall i :: 0 <= i < |tasks| ==> !tasks[i].completed
  }

  /** The record stored for `date`, or a fresh one built from `template`
      with zero accumulators. Nothing is inserted into the history. */
  function DayFor(history: map<int, DayData>, date: int, template: seq<Task>): (d: DayData)
    ensures date in history ==> d == history[date]
    ensures date !in history ==>
      && d.date == date
      && d.tasks == template
      && d.deepWorkMinutes == 0
      && d.waterIntake == 0.0
      && d.sleepTime.None?
    ensures date !in history && AllIncomplete(template) ==> CompletedCount(d.tasks) == 0
  {
    if date in history then history[date]
    else DayData(date, template, 0, 0.0, None)
  }

  /** XP earned by a day mutation: ten points per net newly completed task. */
  const XpPerTask := 10

  function XpGain(before: seq<Task>, after: seq<Task>): (g: int)
    ensures g % XpPerTask == 0
    ensures -XpPerTask * |before| <= g <= XpPerTask * |after|
    ensures g > 0 <==> CompletedCount(after) > CompletedCount(before)
    ensures g < 0 <==> CompletedCount(after) < CompletedCount(before)
    ensures AllIncomplete(before) ==> g >= 0
  {
    (CompletedCount(after) - CompletedCount(before)) * XpPerTask
  }
}
