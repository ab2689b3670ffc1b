/** The newer type definitions: the tab union and the seven-task template. */
module LibTypes {
  import opened Domain

  /** `activeTab: 'dashboard' | 'focus' | 'identity'` */
  datatype Tab = Dashboard | Focus | Identity

  /** The categories the newer enum declares: the dashboard sections. */
  predicate IsLibCategory(c: Category)
  {
    c in Sections
  }

  function Entry(id: string, labelText: string, category: Category): Task
  {
    Task(id, labelText, category, false, None, None, None)
  }

  /** `INITIAL_TASKS`: the habits every new day starts from. */
  const InitialTasks: seq<Task> := [
      Entry("walk", "30 min Walk", Body),
      Entry("workout", "20 min Workout", Body),
      Entry("sleep", "Sleep by 11:00 PM", Body),
      Entry("learning", "3h Deep Learning", Mind),
      Entry("no_scroll", "No Mindless Scrolling", Mind),
      Entry("prayers", "5 Daily Prayers", Deen),
      Entry("zikr", "Morning/Evening Zikr", Deen)
    ]

  /** The shape every use of the template relies on. */
  lemma InitialTasksShape()
    ensures var ts := InitialTasks;
      && |ts| == 7
      && AllIncomplete(ts)
      && (forall i :: 0 <= i < |ts| ==> IsLibCategory(ts[i].category))
      && (forall c :: IsLibCategory(c) ==> exists i :: 0 <= i < |ts| && ts[i].category == c)
      && (forall i :: 0 <= i < |ts| ==> ts[i].kind.None? && ts[i].value.None? && ts[i].target.None?)
  {
    var ts := InitialTasks;
    assert ts[0].category == Body && ts[3].category == Mind && ts[5].category == Deen;
  }

  /** Template ids are pairwise distinct, so a toggle by id hits exactly
      one task. */
  lemma InitialTasksUniqueIds()
    ensures HasUniqueIds(InitialTasks)
  {
    forall i, j | 0 <= i < j < |InitialTasks| ensures InitialTasks[i].id != InitialTasks[j].id {
    }
  }
}
