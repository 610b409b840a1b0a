/**
 * The simple to-do list (`TodoListComponent` in
 * src/app/components/todo-list/todo-list.ts): a task list and a sequential id
 * counter. Tasks are objects that `toggleCompleted` and `editTask` change in
 * place; a task's id never changes once it is created.
 */
module SimpleTodo {
  import opened Options
  import opened Collections
  import opened Text

  class Task {
    const id: int
    var text: string
    const date: string
    const startTime: string
    const endTime: string
    const category: string
    var completed: bool
    /** `categoryColors[category]`, `None` standing for `undefined`. */
    const color: Option<string>

    constructor (id: int, text: string, date: string, startTime: string, endTime: string,
                 category: string, completed: bool, color: Option<string>)
      ensures this.id == id && this.text == text && this.date == date
      ensures this.startTime == startTime && this.endTime == endTime
      ensures this.category == category && this.completed == completed && this.color == color
    {
      this.id := id;
      this.text := text;
      this.date := date;
      this.startTime := startTime;
      this.endTime := endTime;
      this.category := category;
      this.completed := completed;
      this.color := color;
    }
  }

  /** The fixed category colours of the component. */
  const CATEGORY_COLORS: map<string, string> :=
    map["Work" := "#a000fe", "Personal" := "#ffffff", "Study" := "#858383ff", "Shopping" := "#c5c5c5ff"]
  const CATEGORIES: seq<string> := ["Work", "Personal", "Study", "Shopping"]

  /** `categoryColors[category]`: the mapped colour, or `undefined`. */
  function ColorOf(categoryColors: map<string, string>, category: string): (r: Option<string>)
    ensures r.Some? <==> category in categoryColors
    ensures r.Some? ==> r.value == categoryColors[category]
  {
    if category in categoryColors then Some(categoryColors[category]) else None
  }

  function Max(a: int, b: int): int { if a < b then b else a }

  /**
   * `tasks.reduce((max, task) => Math.max(max, task.id), acc)`: the largest of
   * `acc` and the task ids.
   */
  function MaxId(tasks: seq<Task>, acc: int): (r: int)
    ensures r >= acc && forall t :: t in tasks ==> t.id <= r
    ensures r == acc || exists t :: t in tasks && t.id == r
  {
    if tasks == [] then acc
    else
      var r := MaxId(tasks[1..], Max(acc, tasks[0].id));
      assert forall t :: t in tasks ==> t == tasks[0] || t in tasks[1..];
      r
  }

  /** Every task id is below `bound`: the freshness invariant of `nextId`. */
  predicate IdsBelow(tasks: seq<Task>, bound: int) {
    forall t :: t in tasks ==> t.id < bound
  }

  /** No two tasks share an id. */
  predicate IdsUnique(tasks: seq<Task>) {
    forall i, j :: 0 <= i < j < |tasks| ==> tasks[i].id != tasks[j].id
  }

  /**
   * Appending a task whose id is the counter, and then incrementing the
   * counter, keeps every id below the counter and keeps the ids unique.
   */
  lemma AppendFreshId(tasks: seq<Task>, t: Task, nextId: int)
    requires IdsBelow(tasks, nextId) && t.id == nextId
    ensures IdsBelow(tasks + [t], nextId + 1)
    ensures IdsUnique(tasks) ==> IdsUnique(tasks + [t])
  {
  }

  /** `Validators.required` on all five controls. */
  predicate FormValid(text: string, date: string, startTime: string, endTime: string, category: string) {
    text != [] && date != [] && startTime != [] && endTime != [] && category != []
  }

  /** The state of `TodoListComponent`. */
  class TodoListComponent {
    var tasks: seq<Task>
    var nextId: int
    const categoryColors: map<string, string>
    const categories: seq<string>

    /** `nextId` is greater than every task id. */
    ghost predicate Valid()
      reads this
    {
      IdsBelow(tasks, nextId)
    }

    constructor ()
      ensures tasks == [] && nextId == 1 && Valid()
      ensures categoryColors == CATEGORY_COLORS && categories == CATEGORIES
    {
      tasks := [];
      nextId := 1;
      categoryColors := CATEGORY_COLORS;
      categories := CATEGORIES;
    }

    /**
     * `loadTasks()` where `stored` is the parsed task list, `None` when storage
     * holds none: a stored list replaces the tasks and the counter becomes one
     * more than the largest id, with 0 as the floor.
     */
    method LoadTasks(stored: Option<seq<Task>>)
      requires Valid()
      modifies this
      ensures Valid()
      ensures stored.None? ==> tasks == old(tasks) && nextId == old(nextId)
      ensures stored.Some? ==> tasks == stored.value && nextId == MaxId(stored.value, 0) + 1
      ensures stored.Some? ==>
        nextId >= 1 && (nextId == 1 || exists t :: t in tasks && t.id == nextId - 1)
    {
      if stored.Some? {
        tasks := stored.value;
        var maxId := MaxId(tasks, 0);
        nextId := maxId + 1;
      }
    }

    /**
     * `addTask()` with the form's values: on a valid form appends a new
     * uncompleted task whose id is the counter and whose colour is the
     * category's, and increments the counter; otherwise changes nothing.
     */
    method AddTask(text: string, date: string, startTime: string, endTime: string, category: string)
      requires Valid()
      modifies this
      ensures Valid()
      ensures !FormValid(text, date, startTime, endTime, category) ==>
        tasks == old(tasks) && nextId == old(nextId)
      ensures FormValid(text, date, startTime, endTime, category) ==>
        nextId == old(nextId) + 1 && |tasks| == |old(tasks)| + 1
        && tasks[..|old(tasks)|] == old(tasks)
        && var t := tasks[|old(tasks)|];
           fresh(t) && t.id == old(nextId) && t.text == text && t.date == date
           && t.startTime == startTime && t.endTime == endTime && t.category == category
           && !t.completed && t.color == ColorOf(categoryColors, category)
      ensures IdsUnique(old(tasks)) ==> IdsUnique(tasks)
    {
      if FormValid(text, date, startTime, endTime, category) {
        var t := new Task(nextId, text, date, startTime, endTime, category, false,
                          ColorOf(categoryColors, category));
        AppendFreshId(tasks, t, nextId);
        nextId := nextId + 1;
        tasks := tasks + [t];
      }
    }

    /** `toggleCompleted(task)`: flips the task's flag in place; nothing else changes. */
    method ToggleCompleted(task: Task)
      modifies task
      ensures task.completed == !old(task.completed) && task.text == old(task.text)
    {
      task.completed := !task.completed;
    }

    /** `deleteTask(id)`: drops every task with that id, keeps the others in order, leaves the counter. */
    method DeleteTask(id: int)
      requires Valid()
      modifies this
      ensures Valid()
      ensures tasks == Filter(old(tasks), (t: Task) => t.id != id)
      ensures forall t :: t in tasks ==> t.id != id
      ensures nextId == old(nextId)
    {
      tasks := Filter(tasks, (t: Task) => t.id != id);
    }

    /**
     * `editTask(task)` where `newText` is what `prompt` returned (`None` when
     * cancelled): a non-blank answer replaces the task's text in place.
     */
    method EditTask(task: Task, newText: Option<string>)
      modifies task
      ensures task.text == if newText.Some? && !IsBlank(newText.value) then newText.value else old(task.text)
      ensures task.completed == old(task.completed)
    {
      if newText.Some? && Trim(newText.value) != [] {
        task.text := newText.value;
      }
    }
  }
}
