/**
 * The reusable to-do list (`TodoListComponent` in
 * src/app/components/todo-list-reusable/todo-list-reusable.ts): a task list
 * updated by id, a category list with a name-to-colour dictionary, a tag
 * registry with the derived list of tag names, and the draft selection of tag
 * names for the next task. Tasks are values: toggling and editing build a new
 * task and store it at the found index.
 */
module ReusableTodo {
  import opened Options
  import opened Collections
  import opened Text

  datatype Tag = Tag(name: string, color: string)

  datatype Task = Task(
    id: int,
    text: string,
    date: string,
    startTime: string,
    endTime: string,
    category: Option<string>,
    completed: bool,
    tags: seq<Tag>)

  /** Fallback of `getCategoryColor`. */
  const DEFAULT_CATEGORY_COLOR: string := "#ffffff"
  /** Fallback of `getTagColor`. */
  const DEFAULT_TAG_COLOR: string := "#9e9e9e"

  /** Categories and colours used when storage holds none. */
  const DEFAULT_CATEGORIES: seq<string> := ["Work", "Personal", "Study", "Shopping"]
  const DEFAULT_CATEGORY_COLORS: map<string, string> :=
    map["Work" := "#6200ea", "Personal" := "#03dac6", "Study" := "#ffc107", "Shopping" := "#e91e63"]
  /** Tags used when storage holds none. */
  const DEFAULT_TAGS: seq<Tag> :=
    [Tag("Urgente", "#f44336"), Tag("Casi terminado", "#ffeb3b"),
     Tag("Proyecto A", "#2196f3"), Tag("Compras", "#e91e63")]

  /** `tags.map(tag => tag.name)`. */
  function TagNames(tags: seq<Tag>): seq<string> {
    Map(tags, (t: Tag) => t.name)
  }

  /** Registering a tag appends its name to the name list. */
  lemma TagNamesAppend(tags: seq<Tag>, tag: Tag)
    ensures TagNames(tags + [tag]) == TagNames(tags) + [tag.name]
  {
  }

  /** No two registered tags share a name. */
  predicate UniqueTagNames(tags: seq<Tag>) {
    NoDuplicates(TagNames(tags))
  }

  /** `categories[0]`, which is `undefined` for an empty list. */
  function FirstCategory(categories: seq<string>): (r: Option<string>)
    ensures r == None <==> categories == []
    ensures categories != [] ==> r == Some(categories[0])
  {
    if categories == [] then None else Some(categories[0])
  }

  /** `Validators.required` on the text and category controls. */
  predicate FormValid(text: string, category: Option<string>) {
    text != [] && category.Some? && category.value != []
  }

  /**
   * `tags.filter(tag => taskTags.includes(tag.name))`: the registered tags
   * whose names are selected, in registry order.
   */
  function SelectedTags(tags: seq<Tag>, taskTags: seq<string>): (r: seq<Tag>)
    ensures forall t :: t in r ==> t in tags && t.name in taskTags
    ensures forall t :: t in tags && t.name in taskTags ==> t in r
  {
    Filter(tags, (t: Tag) => t.name in taskTags)
  }

  /** `tasks.findIndex(t => t.id === id)`. */
  function FindTask(tasks: seq<Task>, id: int): (r: int)
    ensures -1 <= r < |tasks|
    ensures r == -1 <==> forall i :: 0 <= i < |tasks| ==> tasks[i].id != id
    ensures 0 <= r ==> tasks[r].id == id && forall j :: 0 <= j < r ==> tasks[j].id != id
  {
    FindIndex(tasks, (t: Task) => t.id == id)
  }

  /**
   * The task list after `tasks[index] = updated` at the first task with id
   * `id`; the list is unchanged when no task has that id.
   */
  function ReplaceTask(tasks: seq<Task>, id: int, updated: Task): (r: seq<Task>)
    ensures |r| == |tasks|
    ensures FindTask(tasks, id) == -1 ==> r == tasks
    ensures FindTask(tasks, id) >= 0 ==> r[FindTask(tasks, id)] == updated
    ensures forall i :: 0 <= i < |tasks| && i != FindTask(tasks, id) ==> r[i] == tasks[i]
  {
    var index := FindTask(tasks, id);
    if index == -1 then tasks else tasks[index := updated]
  }

  /** `{ ...task, completed: !task.completed }`. */
  function Toggled(task: Task): (r: Task)
    ensures r.completed == !task.completed && r.(completed := task.completed) == task
  {
    task.(completed := !task.completed)
  }

  /**
   * Toggling a task and then toggling the task now stored in its place
   * restores the list, provided the task was the first one with its id (the
   * one `findIndex` reaches).
   */
  lemma ToggleTwice(tasks: seq<Task>, k: int)
    requires 0 <= k < |tasks| && FindTask(tasks, tasks[k].id) == k
    ensures var once := ReplaceTask(tasks, tasks[k].id, Toggled(tasks[k]));
      ReplaceTask(once, tasks[k].id, Toggled(once[k])) == tasks
  {
  }

  /** The category is a non-empty name mapped to a non-empty colour (both truthy in JavaScript). */
  predicate HasCategoryColor(categoryColors: map<string, string>, category: Option<string>) {
    category.Some? && category.value != [] && category.value in categoryColors
    && categoryColors[category.value] != []
  }

  /**
   * The updated task is built from the argument, not from the stored task: of
   * two tasks sharing an id, toggling the second overwrites the first with a
   * toggled copy of the second.
   */
  lemma ToggleSharedId(first: Task, second: Task)
    requires first.id == second.id
    ensures ReplaceTask([first, second], second.id, Toggled(second)) == [Toggled(second), second]
  {
  }

  /**
   * `getCategoryColor(category)`: the mapped colour when the category is a
   * non-empty name mapped to a non-empty colour, `#ffffff` otherwise.
   */
  function GetCategoryColor(categoryColors: map<string, string>, category: Option<string>): (r: string)
    ensures r != []
    ensures HasCategoryColor(categoryColors, category) ==> r == categoryColors[category.value]
    ensures !HasCategoryColor(categoryColors, category) ==> r == DEFAULT_CATEGORY_COLOR
  {
    match category
    case Some(c) =>
      if c != [] && c in categoryColors && categoryColors[c] != [] then categoryColors[c]
      else DEFAULT_CATEGORY_COLOR
    case None => DEFAULT_CATEGORY_COLOR
  }

  /** No tag before position `k` carries the name of the tag at `k`. */
  predicate FirstNamed(tags: seq<Tag>, k: int)
    requires 0 <= k < |tags|
  {
    forall j :: 0 <= j < k ==> tags[j].name != tags[k].name
  }

  /**
   * `getTagColor(tagName)`: the colour of the first registered tag with that
   * name when it is non-empty, `#9e9e9e` otherwise.
   */
  function GetTagColor(tags: seq<Tag>, tagName: Option<string>): (r: string)
    ensures r != []
    ensures (forall k :: 0 <= k < |tags| ==> Some(tags[k].name) != tagName) ==> r == DEFAULT_TAG_COLOR
    ensures forall k :: 0 <= k < |tags| && Some(tags[k].name) == tagName && FirstNamed(tags, k) ==>
      r == if tags[k].color != [] then tags[k].color else DEFAULT_TAG_COLOR
  {
    var i := FindIndex(tags, (t: Tag) => Some(t.name) == tagName);
    if i >= 0 && tags[i].color != [] then tags[i].color else DEFAULT_TAG_COLOR
  }

  /** With unique names, the colour of a registered tag is the one it was registered with. */
  lemma TagColorOfRegistered(tags: seq<Tag>, k: int)
    requires UniqueTagNames(tags) && 0 <= k < |tags| && tags[k].color != []
    ensures GetTagColor(tags, Some(tags[k].name)) == tags[k].color
  {
  }

  /** A name no registered tag carries gets the fallback colour. */
  lemma TagColorOfUnregistered(tags: seq<Tag>, name: string)
    requires name !in TagNames(tags)
    ensures GetTagColor(tags, Some(name)) == DEFAULT_TAG_COLOR
  {
  }

  /** `tags.filter(t => t.name !== name)`. */
  function WithoutTag(tags: seq<Tag>, name: string): seq<Tag> {
    Filter(tags, (t: Tag) => t.name != name)
  }

  /** `names.filter(n => n !== name)`. */
  function WithoutName(names: seq<string>, name: string): seq<string> {
    Filter(names, (n: string) => n != name)
  }

  /**
   * Unregistering a name: the name list of the remaining tags is the old name
   * list without that name, names stay unique, the name is gone and so is
   * its colour.
   */
  lemma UnregisterTag(tags: seq<Tag>, tagName: string)
    ensures TagNames(WithoutTag(tags, tagName)) == WithoutName(TagNames(tags), tagName)
    ensures UniqueTagNames(tags) ==> UniqueTagNames(WithoutTag(tags, tagName))
    ensures tagName !in TagNames(WithoutTag(tags, tagName))
    ensures GetTagColor(WithoutTag(tags, tagName), Some(tagName)) == DEFAULT_TAG_COLOR
  {
    MapFilter(tags, (t: Tag) => t.name, (t: Tag) => t.name != tagName, (n: string) => n != tagName);
    if UniqueTagNames(tags) {
      FilterNoDuplicates(TagNames(tags), (n: string) => n != tagName);
    }
    assert tagName !in TagNames(WithoutTag(tags, tagName));
    TagColorOfUnregistered(WithoutTag(tags, tagName), tagName);
  }

  /** Dropping a name from the draft selection: it is gone and the rest stays duplicate-free. */
  lemma UndraftTag(draft: seq<string>, tagName: string)
    ensures tagName !in WithoutName(draft, tagName)
    ensures NoDuplicates(draft) ==> NoDuplicates(WithoutName(draft, tagName))
  {
    if NoDuplicates(draft) {
      FilterNoDuplicates(draft, (n: string) => n != tagName);
    }
  }

  /** The state of `TodoListComponent`; `selectedCategory` is the form's category control. */
  class TodoListComponent {
    var tasks: seq<Task>
    var categories: seq<string>
    var categoryColors: map<string, string>
    var tags: seq<Tag>
    var availableTags: seq<string>
    var taskTags: seq<string>
    var selectedCategory: Option<string>

    /** The derived tag-name list is up to date and the draft selection is duplicate-free. */
    ghost predicate Valid()
      reads this
    {
      availableTags == TagNames(tags) && NoDuplicates(taskTags)
    }

    /**
     * Construction followed by `ngOnInit()`: each collection comes from
     * storage when present (categories only when both the list and the
     * colours are), the defaults otherwise; the first category is selected
     * and no tag is drafted.
     */
    constructor (savedTasks: Option<seq<Task>>, savedCategories: Option<seq<string>>,
                 savedCategoryColors: Option<map<string, string>>, savedTags: Option<seq<Tag>>)
      ensures tasks == if savedTasks.Some? then savedTasks.value else []
      ensures savedCategories.Some? && savedCategoryColors.Some? ==>
        categories == savedCategories.value && categoryColors == savedCategoryColors.value
      ensures !(savedCategories.Some? && savedCategoryColors.Some?) ==>
        categories == DEFAULT_CATEGORIES && categoryColors == DEFAULT_CATEGORY_COLORS
      ensures tags == if savedTags.Some? then savedTags.value else DEFAULT_TAGS
      ensures selectedCategory == FirstCategory(categories) && taskTags == []
      ensures Valid()
    {
      var loadedCategories, loadedColors := DEFAULT_CATEGORIES, DEFAULT_CATEGORY_COLORS;
      if savedCategories.Some? && savedCategoryColors.Some? {
        loadedCategories, loadedColors := savedCategories.value, savedCategoryColors.value;
      }
      var loadedTags := if savedTags.Some? then savedTags.value else DEFAULT_TAGS;
      tasks := if savedTasks.Some? then savedTasks.value else [];
      categories := loadedCategories;
      categoryColors := loadedColors;
      tags := loadedTags;
      availableTags := TagNames(loadedTags);
      taskTags := [];
      selectedCategory := FirstCategory(loadedCategories);
    }

    /**
     * `addTask()` with the form's text, date and times and the new
     * `Date.now()` id: on a valid form appends one uncompleted task carrying
     * the selected registered tags, then resets the category to the first one
     * and clears the tag draft; on an invalid form changes nothing.
     */
    method AddTask(text: string, date: string, startTime: string, endTime: string, id: int)
      requires Valid()
      modifies this
      ensures Valid()
      ensures !FormValid(text, old(selectedCategory)) ==>
        tasks == old(tasks) && taskTags == old(taskTags) && selectedCategory == old(selectedCategory)
      ensures FormValid(text, old(selectedCategory)) ==>
        tasks == old(tasks) + [Task(id, text, date, startTime, endTime, old(selectedCategory),
                                    false, SelectedTags(old(tags), old(taskTags)))]
        && taskTags == [] && selectedCategory == FirstCategory(categories)
      ensures categories == old(categories) && categoryColors == old(categoryColors)
      ensures tags == old(tags) && availableTags == old(availableTags)
    {
      if FormValid(text, selectedCategory) {
        var task := Task(id, text, date, startTime, endTime, selectedCategory,
                         false, SelectedTags(tags, taskTags));
        tasks := tasks + [task];
        selectedCategory := FirstCategory(categories);
        taskTags := [];
      }
    }

    /**
     * The user's choice in the form's category select (`None` when it holds
     * no value): the selected category becomes `category`; nothing else changes.
     */
    method SelectCategory(category: Option<string>)
      requires Valid()
      modifies this
      ensures Valid()
      ensures selectedCategory == category
      ensures tasks == old(tasks) && categories == old(categories) && categoryColors == old(categoryColors)
      ensures tags == old(tags) && availableTags == old(availableTags) && taskTags == old(taskTags)
    {
      selectedCategory := category;
    }

    /** `toggleCompleted(task)`: stores the task with its flag flipped at the first task with its id. */
    method ToggleCompleted(task: Task)
      modifies this
      ensures tasks == ReplaceTask(old(tasks), task.id, Toggled(task))
      ensures categories == old(categories) && categoryColors == old(categoryColors)
      ensures tags == old(tags) && availableTags == old(availableTags)
      ensures taskTags == old(taskTags) && selectedCategory == old(selectedCategory)
    {
      var index := FindTask(tasks, task.id);
      if index != -1 {
        tasks := tasks[index := Toggled(task)];
      }
    }

    /** `deleteTask(id)`: drops every task with that id and keeps the others in order. */
    method DeleteTask(id: int)
      modifies this
      ensures tasks == Filter(old(tasks), (t: Task) => t.id != id)
      ensures forall t :: t in tasks ==> t.id != id
      ensures categories == old(categories) && categoryColors == old(categoryColors)
      ensures tags == old(tags) && availableTags == old(availableTags)
      ensures taskTags == old(taskTags) && selectedCategory == old(selectedCategory)
    {
      tasks := Filter(tasks, (t: Task) => t.id != id);
    }

    /**
     * `editTask(task)` where `newText` is what `window.prompt` returned
     * (`None` when cancelled): a non-blank answer replaces the text of the
     * first task with that id, anything else changes nothing.
     */
    method EditTask(task: Task, newText: Option<string>)
      modifies this
      ensures newText.Some? && !IsBlank(newText.value) ==>
        tasks == ReplaceTask(old(tasks), task.id, task.(text := newText.value))
      ensures !(newText.Some? && !IsBlank(newText.value)) ==> tasks == old(tasks)
      ensures categories == old(categories) && categoryColors == old(categoryColors)
      ensures tags == old(tags) && availableTags == old(availableTags)
      ensures taskTags == old(taskTags) && selectedCategory == old(selectedCategory)
    {
      if newText.Some? && Trim(newText.value) != [] {
        var index := FindTask(tasks, task.id);
        if index != -1 {
          tasks := tasks[index := task.(text := newText.value)];
        }
      }
    }

    /**
     * `addCategory()` with the name and colour typed in: a new non-empty name
     * is appended, mapped to the colour and selected; an empty or known name
     * changes nothing. The list stays duplicate-free.
     */
    method AddCategory(name: string, color: string)
      modifies this
      ensures name == [] || name in old(categories) ==>
        categories == old(categories) && categoryColors == old(categoryColors)
        && selectedCategory == old(selectedCategory)
      ensures name != [] && name !in old(categories) ==>
        categories == old(categories) + [name] && categoryColors == old(categoryColors)[name := color]
        && selectedCategory == Some(name)
      ensures NoDuplicates(old(categories)) ==> NoDuplicates(categories)
      ensures name != [] && color != [] && name in categories ==>
        GetCategoryColor(categoryColors, Some(name)) == (if name in old(categories) then
          GetCategoryColor(old(categoryColors), Some(name)) else color)
      ensures tasks == old(tasks) && tags == old(tags) && availableTags == old(availableTags)
      ensures taskTags == old(taskTags)
    {
      if name != [] && name !in categories {
        if NoDuplicates(categories) {
          AppendNoDuplicates(categories, name);
        }
        categories := categories + [name];
        categoryColors := categoryColors[name := color];
        selectedCategory := Some(name);
      }
    }

    /**
     * `deleteCategory(category)`: removes the name from the list and the
     * dictionary, leaves the tasks alone (their colour lookups fall back), and
     * moves the selection to the first remaining category if it was selected.
     */
    method DeleteCategory(category: string)
      modifies this
      ensures categories == Filter(old(categories), (c: string) => c != category)
      ensures category !in categories
      ensures categoryColors == old(categoryColors) - {category}
      ensures GetCategoryColor(categoryColors, Some(category)) == DEFAULT_CATEGORY_COLOR
      ensures selectedCategory == if old(selectedCategory) == Some(category)
        then FirstCategory(categories) else old(selectedCategory)
      ensures selectedCategory != Some(category)
      ensures NoDuplicates(old(categories)) ==> NoDuplicates(categories)
      ensures tasks == old(tasks) && tags == old(tags) && availableTags == old(availableTags)
      ensures taskTags == old(taskTags)
    {
      if NoDuplicates(categories) {
        FilterNoDuplicates(categories, (c: string) => c != category);
      }
      categories := Filter(categories, (c: string) => c != category);
      categoryColors := categoryColors - {category};
      if selectedCategory == Some(category) {
        selectedCategory := FirstCategory(categories);
      }
    }

    /**
     * `addTag()` with the name and colour typed in: a non-empty name that no
     * registered tag carries is registered and the name list recomputed; an
     * empty or known name changes nothing. Names stay unique.
     */
    method AddTag(name: string, color: string)
      requires Valid()
      modifies this
      ensures Valid()
      ensures name == [] || name in old(availableTags) ==> tags == old(tags)
      ensures name != [] && name !in old(availableTags) ==>
        tags == old(tags) + [Tag(name, color)] && availableTags == old(availableTags) + [name]
      ensures UniqueTagNames(old(tags)) ==> UniqueTagNames(tags)
      ensures UniqueTagNames(tags) && name != [] && name !in old(availableTags) && color != [] ==>
        GetTagColor(tags, Some(name)) == color
      ensures tasks == old(tasks) && categories == old(categories)
      ensures categoryColors == old(categoryColors) && selectedCategory == old(selectedCategory)
      ensures taskTags == old(taskTags)
    {
      if name != [] && !(exists k :: 0 <= k < |tags| && tags[k].name == name) {
        forall i | 0 <= i < |availableTags| ensures availableTags[i] != name {
          assert availableTags[i] == tags[i].name;
        }
        var tag := Tag(name, color);
        TagNamesAppend(tags, tag);
        if UniqueTagNames(tags) {
          AppendNoDuplicates(availableTags, name);
        }
        tags := tags + [tag];
        availableTags := TagNames(tags);
        if UniqueTagNames(tags) && color != [] {
          TagColorOfRegistered(tags, |tags| - 1);
        }
      } else if name != [] {
        var k :| 0 <= k < |tags| && tags[k].name == name;
        assert availableTags[k] == name;
      }
    }

    /**
     * `deleteTag(tagName)`: unregisters every tag with that name, recomputes
     * the name list and drops the name from the draft selection.
     */
    method DeleteTag(tagName: string)
      requires Valid()
      modifies this
      ensures Valid()
      ensures tags == WithoutTag(old(tags), tagName)
      ensures availableTags == WithoutName(old(availableTags), tagName)
      ensures taskTags == WithoutName(old(taskTags), tagName)
      ensures tagName !in availableTags && tagName !in taskTags
      ensures GetTagColor(tags, Some(tagName)) == DEFAULT_TAG_COLOR
      ensures UniqueTagNames(old(tags)) ==> UniqueTagNames(tags)
      ensures tasks == old(tasks) && categories == old(categories)
      ensures categoryColors == old(categoryColors) && selectedCategory == old(selectedCategory)
    {
      UnregisterTag(tags, tagName);
      UndraftTag(taskTags, tagName);
      tags := WithoutTag(tags, tagName);
      availableTags := TagNames(tags);
      taskTags := WithoutName(taskTags, tagName);
    }

    /** `onTagSelected(event)` with the chosen name: a non-empty name not yet drafted is appended. */
    method OnTagSelected(selectedTag: string)
      requires Valid()
      modifies this
      ensures Valid()
      ensures taskTags == if selectedTag != [] && selectedTag !in old(taskTags)
        then old(taskTags) + [selectedTag] else old(taskTags)
      ensures tasks == old(tasks) && categories == old(categories) && categoryColors == old(categoryColors)
      ensures tags == old(tags) && availableTags == old(availableTags)
      ensures selectedCategory == old(selectedCategory)
    {
      if selectedTag != [] && selectedTag !in taskTags {
        AppendNoDuplicates(taskTags, selectedTag);
        taskTags := taskTags + [selectedTag];
      }
    }

    /** `removeTaskTag(tagName)`: drops the name from the draft selection. */
    method RemoveTaskTag(tagName: string)
      requires Valid()
      modifies this
      ensures Valid()
      ensures taskTags == WithoutName(old(taskTags), tagName)
      ensures tagName !in taskTags
      ensures tasks == old(tasks) && categories == old(categories) && categoryColors == old(categoryColors)
      ensures tags == old(tags) && availableTags == old(availableTags)
      ensures selectedCategory == old(selectedCategory)
    {
      UndraftTag(taskTags, tagName);
      taskTags := WithoutName(taskTags, tagName);
    }
  }
}
