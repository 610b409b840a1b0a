# Habit tracker and to-do lists, modelled in Dafny

This project models the in-memory collection logic of three components of a
browser productivity application (an Angular app that keeps everything in
local storage):

- **Habit tracker** (`HabitsComponent`, module `Habits`): habits with a
  duration in days, a start date and one progress flag per day; create, edit,
  delete, cancel an edit, toggle a day, and two queries: the status of a day
  (`pending`, `completed`, `missed`) and the number of completed days.
  Timestamps are integers in milliseconds, a day is 86 400 000 ms, and the
  current instant is a parameter `now`. `Habit` is a class because the
  tracker flips entries of a habit's progress array in place, while an edit
  replaces the habit by a new object with a new array.
- **Reusable to-do list** (`TodoListComponent` of `todo-list-reusable`,
  module `ReusableTodo`): tasks updated by id (add, toggle, edit text,
  delete), a category list with a name-to-colour dictionary and a selected
  category, a tag registry with its derived list of names and the draft tag
  selection for the next task, and the two colour lookups with their
  fallbacks. Tasks are values here: toggling and editing store a new task at
  the index `findIndex` returns.
- **Simple to-do list** (`TodoListComponent` of `todo-list`, module
  `SimpleTodo`): tasks with a sequential id counter `nextId`. Tasks are
  objects that toggling and editing change in place; ids never change.

Shared modules: `Options` (`null`/`undefined` as `None`), `Collections`
(JavaScript's `filter`, `map` and `findIndex` as recursive functions, with
order, membership and duplicate-freedom lemmas) and `Text` (JavaScript's
`trim`, with its exact set of whitespace characters).

The main properties proved:

- Every habit keeps one progress entry per day of its duration through create,
  edit and delete (toggling changes neither the array's length nor the duration).
- A day may be toggled exactly when its status is not `pending`. A permitted
  toggle turns `completed` into `missed` and back and moves the completed count
  by one. Toggling twice at the same instant restores the array. A day that has
  begun never becomes `pending` again.
- The completed count is the number of true entries, so it is at most the
  duration.
- Deletions keep the remaining elements in their order. Category lists,
  tag-name lists and tag drafts stay duplicate-free. `availableTags` always
  equals the names of the registered tags.
- Colour lookups return the registered colour or the fixed fallback, and a
  deleted category or tag falls back.
- In the simple list every id stays below `nextId`, so appending with
  `nextId++` keeps ids unique.

Choices the code makes that the model keeps:

- The code gates the habit toggle (a day in the future cannot be toggled) and
  keeps three day states.
- `onSubmit` rejects only a blank name or a duration below 1. The form's
  `minLength(3)` and `max(365)` validators are not re-checked there.
- `getTagColor` also falls back when the first tag with that name has an empty
  colour.
- `getCategoryColor` falls back for an empty category name.

## Model

| member | source | states |
|---|---|---|
| `Collections.Filter` | src/app/components/tasks/tasks.ts:104 | `filter` keeps exactly the elements satisfying the predicate: every result element is an input element satisfying it, and every such input element is in the result |
| `Collections.FilterAppend` | src/app/components/todo-list/todo-list.ts:96 | filtering distributes over concatenation, so the surviving elements keep their relative order |
| `Collections.FilterKeepsAll` | src/app/components/todo-list-reusable/todo-list-reusable.ts:160 | filtering a list none of whose elements matches the removed id returns the list unchanged, so deleting an absent id is a no-op |
| `Collections.Map` | src/app/components/todo-list-reusable/todo-list-reusable.ts:121 | `map` yields a list of the same length whose i-th element is the image of the i-th input |
| `Collections.MapFilter` | src/app/components/todo-list-reusable/todo-list-reusable.ts:215-216 | names of the tags left after removing a name = the old name list with that name removed (filter on an image commutes with map) |
| `Collections.FindIndex` | src/app/components/todo-list-reusable/todo-list-reusable.ts:151 | `findIndex` returns -1 exactly when no element matches, otherwise the first matching index |
| `Collections.AppendNoDuplicates` | src/app/components/todo-list-reusable/todo-list-reusable.ts:180-181 | appending a name not yet present keeps the list duplicate-free |
| `Collections.FilterNoDuplicates` | src/app/components/todo-list-reusable/todo-list-reusable.ts:191 | removing elements keeps a list duplicate-free |
| `Text.LeadingWhitespace` | src/app/components/tasks/tasks.ts:42 | the leading run `trim()` drops: every character before it is whitespace and the one after it, if any, is not |
| `Text.Trim` | src/app/components/tasks/tasks.ts:42 | `trim()` is `s` without its leading and trailing whitespace runs: the slice starting after the leading run, followed only by whitespace, neither starting nor ending with whitespace, and empty exactly for strings made only of ECMAScript whitespace and line terminators |
| `Text.TrimIdempotent` | src/app/components/tasks/tasks.ts:42 | a trimmed habit name is unchanged by trimming it again |
| `Habits.Habit.constructor` | src/app/components/tasks/tasks.ts:55-61 | a new habit carries the given id, name, duration and start date and a fresh all-false progress array of `duration` entries |
| `Habits.Falses` | src/app/components/tasks/tasks.ts:60 | `new Array(n).fill(false)` has n entries, none of them true |
| `Habits.Toggled` | src/app/components/tasks/tasks.ts:69-79 | a toggle changes only entry `index`, negating it exactly when the gate allows, and keeps the length |
| `Habits.ToggledTwice` | src/app/components/tasks/tasks.ts:75-76 | toggling the same day twice at the same instant restores the progress array |
| `Habits.CompletedIsTrueCount` | src/app/components/tasks/tasks.ts:82 | the length of `progress.filter(p => p)` is the number of true entries |
| `Habits.GetCompletedDays` | src/app/components/tasks/tasks.ts:81-83 | the completed count is the number of true entries, at most the array length and, for a well-formed habit, at most the duration |
| `Habits.ToggledCount` | src/app/components/tasks/tasks.ts:76 | a permitted toggle lowers the count of true entries by one if the day was done and raises it by one otherwise |
| `Habits.GetDayStatus` | src/app/components/tasks/tasks.ts:85-93 | a day is `pending` exactly when the toggle gate is closed (the day starts after now); otherwise `completed` iff its entry is true and `missed` iff it is false |
| `Habits.NeverPendingAgain` | src/app/components/tasks/tasks.ts:85-93 | a day that is not pending at some instant is not pending at any later instant |
| `Habits.EditHabits` | src/app/components/tasks/tasks.ts:48-52 | every habit with the edited id is replaced by a new habit with the same id and start date, the new name and duration and a fresh all-false array of the new length; the others are kept, in place |
| `Habits.HabitsComponent.constructor` | src/app/components/tasks/tasks.ts:34-38 | the component starts from the stored habits with nothing being edited |
| `Habits.HabitsComponent.OnSubmit` | src/app/components/tasks/tasks.ts:41-67 | blank trimmed name or duration below 1: nothing changes; while editing: the edited habits are rebuilt and the edit ends; otherwise one new habit with id and start date `now` is appended and the others are unchanged; the per-habit invariant is preserved |
| `Habits.HabitsComponent.ToggleDayProgress` | src/app/components/tasks/tasks.ts:69-79 | flips the day's entry in place exactly when `now` has reached the day; pending stays pending, completed becomes missed and missed becomes completed; the completed count moves by one accordingly |
| `Habits.HabitsComponent.EditHabit` | src/app/components/tasks/tasks.ts:95-101 | the habit's id becomes the one being edited; the list is unchanged |
| `Habits.HabitsComponent.DeleteHabit` | src/app/components/tasks/tasks.ts:103-107 | removes every habit with that id, keeps the rest in order, ends the edit when that id was being edited, and preserves the per-habit invariant |
| `Habits.HabitsComponent.CancelEdit` | src/app/components/tasks/tasks.ts:109-112 | nothing is being edited afterwards; the habits are unchanged |
| `ReusableTodo.TagNamesAppend` | src/app/components/todo-list-reusable/todo-list-reusable.ts:206-207 | registering a tag appends its name to the derived name list |
| `ReusableTodo.FirstCategory` | src/app/components/todo-list-reusable/todo-list-reusable.ts:144 | `categories[0]`: undefined exactly for an empty list, otherwise the first category |
| `ReusableTodo.SelectedTags` | src/app/components/todo-list-reusable/todo-list-reusable.ts:137 | a new task's tags are exactly the registered tags whose names are in the draft selection (in registry order, by `Filter`) |
| `ReusableTodo.FindTask` | src/app/components/todo-list-reusable/todo-list-reusable.ts:151 | the lookup by id returns -1 exactly when no task has the id, otherwise the first task with it |
| `ReusableTodo.ReplaceTask` | src/app/components/todo-list-reusable/todo-list-reusable.ts:151-153 | storing an updated task by id replaces only the first task with that id, and is a no-op when the id is absent |
| `ReusableTodo.Toggled` | src/app/components/todo-list-reusable/todo-list-reusable.ts:150 | the toggled copy differs from the task only in its negated `completed` flag |
| `ReusableTodo.ToggleTwice` | src/app/components/todo-list-reusable/todo-list-reusable.ts:149-157 | toggling a task and then the task stored in its place restores the list |
| `ReusableTodo.ToggleSharedId` | src/app/components/todo-list-reusable/todo-list-reusable.ts:150-153 | of two tasks sharing an id, toggling the second overwrites the first with a toggled copy of the second |
| `ReusableTodo.GetCategoryColor` | src/app/components/todo-list-reusable/todo-list-reusable.ts:199-201 | the lookup is never empty: the mapped colour when the category is a non-empty name mapped to a non-empty colour, `#ffffff` otherwise |
| `ReusableTodo.GetTagColor` | src/app/components/todo-list-reusable/todo-list-reusable.ts:236-238 | the lookup is never empty: `#9e9e9e` when no tag has the name, otherwise the first such tag's colour unless it is empty |
| `ReusableTodo.TagColorOfRegistered` | src/app/components/todo-list-reusable/todo-list-reusable.ts:236-238 | with unique tag names, a registered tag's name looks up its own colour |
| `ReusableTodo.TagColorOfUnregistered` | src/app/components/todo-list-reusable/todo-list-reusable.ts:236-238 | a name no registered tag carries looks up the fallback colour |
| `ReusableTodo.UnregisterTag` | src/app/components/todo-list-reusable/todo-list-reusable.ts:214-216 | after removing a tag name the derived name list is the old one without it, names stay unique, the name is gone and its colour lookup falls back |
| `ReusableTodo.UndraftTag` | src/app/components/todo-list-reusable/todo-list-reusable.ts:217 | dropping a name from the draft selection removes it and keeps the draft duplicate-free |
| `ReusableTodo.TodoListComponent.constructor` | src/app/components/todo-list-reusable/todo-list-reusable.ts:68-122 | each collection comes from storage when present (categories only with their colours), else from the fixed defaults; the first category is selected, the draft is empty and the name list matches the tags |
| `ReusableTodo.TodoListComponent.AddTask` | src/app/components/todo-list-reusable/todo-list-reusable.ts:134-147 | invalid form (empty text or category): nothing changes; valid: exactly one uncompleted task with the selected registered tags is appended, the draft is cleared and the first category is selected; registries untouched |
| `ReusableTodo.TodoListComponent.SelectCategory` | src/app/components/todo-list-reusable/todo-list-reusable.ts:63 | the user's choice in the category select becomes the form's category; nothing else changes |
| `ReusableTodo.TodoListComponent.ToggleCompleted` | src/app/components/todo-list-reusable/todo-list-reusable.ts:149-157 | the toggled task is stored at the first task with its id, nothing else changes |
| `ReusableTodo.TodoListComponent.DeleteTask` | src/app/components/todo-list-reusable/todo-list-reusable.ts:159-163 | every task with the id is removed, the rest keep their order, nothing else changes |
| `ReusableTodo.TodoListComponent.EditTask` | src/app/components/todo-list-reusable/todo-list-reusable.ts:165-177 | a non-null, non-blank prompt answer replaces the text of the first task with that id; otherwise nothing changes |
| `ReusableTodo.TodoListComponent.AddCategory` | src/app/components/todo-list-reusable/todo-list-reusable.ts:179-188 | empty or known name: no change; otherwise the name is appended, mapped to the colour and selected, and its lookup yields that colour; the list stays duplicate-free |
| `ReusableTodo.TodoListComponent.DeleteCategory` | src/app/components/todo-list-reusable/todo-list-reusable.ts:190-197 | the category leaves the list and the dictionary, its lookup falls back, tasks are unchanged and it is no longer selected |
| `ReusableTodo.TodoListComponent.AddTag` | src/app/components/todo-list-reusable/todo-list-reusable.ts:203-212 | empty or known name: no change; otherwise the tag is registered and its name appended to the name list; names stay unique and the new name looks up its colour |
| `ReusableTodo.TodoListComponent.DeleteTag` | src/app/components/todo-list-reusable/todo-list-reusable.ts:214-220 | the name leaves the registry, the name list and the draft, which keep their order; the name list still equals the tag names and its lookup falls back |
| `ReusableTodo.TodoListComponent.OnTagSelected` | src/app/components/todo-list-reusable/todo-list-reusable.ts:222-229 | a non-empty name not yet drafted is appended; the draft stays duplicate-free |
| `ReusableTodo.TodoListComponent.RemoveTaskTag` | src/app/components/todo-list-reusable/todo-list-reusable.ts:231-234 | the name leaves the draft; nothing else changes |
| `SimpleTodo.Task.constructor` | src/app/components/todo-list/todo-list.ts:73-83 | a new task carries exactly the values it is built from |
| `SimpleTodo.ColorOf` | src/app/components/todo-list/todo-list.ts:82 | the category's colour is defined exactly for mapped categories, and is then the mapped colour |
| `SimpleTodo.MaxId` | src/app/components/todo-list/todo-list.ts:62 | the `reduce` is the maximum of the start value and all task ids: at least each of them and equal to one of them |
| `SimpleTodo.AppendFreshId` | src/app/components/todo-list/todo-list.ts:74-84 | appending a task whose id is the counter keeps every id below the incremented counter and keeps ids unique |
| `SimpleTodo.TodoListComponent.constructor` | src/app/components/todo-list/todo-list.ts:31-41 | no tasks, counter 1, the fixed category colours |
| `SimpleTodo.TodoListComponent.LoadTasks` | src/app/components/todo-list/todo-list.ts:58-65 | a stored list replaces the tasks and sets the counter to one more than the largest id (floor 0), so every id is below it; no stored list changes nothing |
| `SimpleTodo.TodoListComponent.AddTask` | src/app/components/todo-list/todo-list.ts:71-88 | invalid form: nothing changes; valid: one new uncompleted task with id = old counter and its category's colour is appended, the counter grows by one, ids stay below it and unique |
| `SimpleTodo.TodoListComponent.ToggleCompleted` | src/app/components/todo-list/todo-list.ts:90-93 | negates the task's flag in place and changes nothing else, so toggling twice restores it |
| `SimpleTodo.TodoListComponent.DeleteTask` | src/app/components/todo-list/todo-list.ts:95-98 | every task with the id is removed, the rest keep their order, the counter is unchanged |
| `SimpleTodo.TodoListComponent.EditTask` | src/app/components/todo-list/todo-list.ts:100-106 | a non-null, non-blank prompt answer replaces the task's text in place; otherwise the text is unchanged |

## Left out

- Persistence: `localStorage` reads and writes and `JSON.parse`/`stringify` are not modelled, and every "save" step is omitted. The reusable list's constructor and the simple list's `LoadTasks` take the stored collections as `Option` parameters (`None` for a missing key). The habit tracker's constructor takes the stored habits as a plain sequence, and the caller passes `[]` when nothing is stored. The simple list's constructor reads no storage.
- The `new Date(...)` re-hydration of stored habits is not modelled. Start dates are integer timestamps throughout.
- Calendar arithmetic: `Date.setDate(getDate() + index)` is modelled as adding `index` days of 86 400 000 ms. Daylight-saving shifts and local-time effects are not modelled.
- The clock: `new Date()` and `Date.now()` are the parameter `now`. A new habit's id and start date are both `now`, whereas the source reads the clock twice. The reusable list's `Date.now()` task id is a parameter.
- Angular plumbing: form controls, `form.reset`, `setValue` and the prefilling of the form by `editHabit`. `EventEmitter.emit` (`taskAdded`, `taskUpdated`, `taskDeleted`, `taskToggled`) and `@Input` are not modelled either.
- Form inputs: form values, the category and tag inputs of the reusable list (including resetting them to `''`, `#6200ea` and `#4caf50` after an add) and `window.prompt` answers are method parameters. The one exception is the reusable list's category control: it is the field `selectedCategory`, which the component sets itself and the user sets through `SelectCategory`. `Validators.required` is modelled as "non-empty".
- Habits.HabitsComponent.OnSubmit: a `null` name (which makes `trim` throw) and a non-integer or huge duration (which makes `new Array` throw) are not modelled. The name is a string and the duration an integer.
- SimpleTodo.TodoListComponent.LoadTasks: ids and `nextId` are unbounded integers, while JavaScript numbers are doubles. Two cases are not modelled. From 2^53 on, `maxId + 1` no longer increases, so a stored id of 9007199254740992 would be reused by the next `addTask`, whereas the model's counter becomes 9007199254740993. Non-integer stored ids are not modelled either; the model's ids are integers.
- Habits.HabitsComponent.ToggleDayProgress: an index at or past the end of the progress array, where JavaScript would grow the array, is excluded by the precondition.
- Habits.HabitsComponent.constructor: stored habits are taken as they are. The per-habit invariant is proved to be preserved by every operation, not established on load.
- Categories and colours are a plain dictionary. Keys inherited from JavaScript's object prototype (such as `toString`) are not modelled.
- Id uniqueness is not claimed for habits or for reusable-list tasks, whose ids come from the clock.
- The project registry, project detail, dashboard, authentication, routing and layout components are not part of this model.
