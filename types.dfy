/** The older type definitions: five categories and the thirteen-task
    template with its one scale task. */
module LegacyTypes {
  import opened Domain

  /** The three categories the older dashboard has sections for. */
  predicate IsSectionCategory(c: Category)
  {
    c in Sections
  }

  /** A boolean habit, not yet completed. */
  function BooleanTask(id: string, labelText: string, category: Category): Task
  {
    Task(id, labelText, category, false, Some(Boolean), None, None)
  }

  /** `INITIAL_TASKS`: the habits every new day starts from. Only Body, Mind
      and Deen are used although the enum also declares Career and Social;
      `khushu` is the one scale task, starting at 5 of 10. */
  const InitialTasks: seq<Task> := [
      BooleanTask("walk", "30 min Walk", Body),
      BooleanTask("workout", "20 min Workout", Body),
      BooleanTask("sun", "Sunlight Exposure", Body),
      BooleanTask("protein", "Protein-Focused Meal", Body),
      BooleanTask("sleep", "Sleep by 11:00 PM", Body),
      BooleanTask("learning", "3h Deep Learning", Mind),
      BooleanTask("brand", "Content Posting", Mind),
      BooleanTask("uncomfortable", "1 Uncomfortable Thing", Mind),
      BooleanTask("no_scroll", "No Mindless Scrolling", Mind),
      BooleanTask("prayers", "5 Daily Prayers", Deen),
      Task("khushu", "Khushu (1-10)", Deen, false, Some(Scale), Some(5), Some(10)),
      BooleanTask("zikr", "Zikr", Deen),
      BooleanTask("tilawat", "Tilawat", Deen)
    ]

  /** The shape every use of the template relies on. */
  lemma InitialTasksShape()
    ensures var ts := InitialTasks;
      && |ts| == 13
      && AllIncomplete(ts)
      && (forall i :: 0 <= i < |ts| ==> IsSectionCategory(ts[i].category))
      && (forall i :: 0 <= i < |ts| ==> ts[i].kind.Some?)
      && (forall i :: 0 <= i < |ts| && ts[i].kind == Some(Scale) ==>
            ts[i].id == "khushu" && ts[i].value == Some(5) && ts[i].target == Some(10))
      && (forall i :: 0 <= i < |ts| && ts[i].kind != Some(Scale) ==>
            ts[i].kind == Some(Boolean) && ts[i].value.None? && ts[i].target.None?)
      && (exists i :: 0 <= i < |ts| && ts[i].kind == Some(Scale))
  {
    assert InitialTasks[10].kind == Some(Scale);
  }

  /** Template ids are pairwise distinct, so a toggle by id hits exactly
      one task. */
  lemma InitialTasksUniqueIds()
    ensures HasUniqueIds(InitialTasks)
  {
    forall i, j | 0 <= i < j < |InitialTasks| ensures InitialTasks[i].id != InitialTasks[j].id {
    }
  }
}
