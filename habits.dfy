/**
 * The habit tracker (`HabitsComponent` in src/app/components/tasks/tasks.ts).
 *
 * A habit is an object with a fixed name, duration and start date and a
 * boolean array with one entry per day; `toggleDayProgress` flips one entry of
 * that array in place, while editing a habit replaces it by a new object with a
 * new array. Timestamps are integers in milliseconds and "now" is a parameter.
 */
module Habits {
  import opened Options
  import opened Collections
  import opened Text

  /** Length of a day in milliseconds: the model of `date.setDate(date.getDate() + index)`. */
  const DAY_MS: int := 86_400_000

  datatype DayStatus = Completed | Missed | Pending

  class Habit {
    const id: int
    const name: string
    const duration: int
    const startDate: int
    const progress: array<bool>

    /** A habit whose progress is `new Array(duration).fill(false)`. */
    constructor (id: int, name: string, duration: nat, startDate: int)
      ensures this.id == id && this.name == name
      ensures this.duration == duration && this.startDate == startDate
      ensures fresh(progress) && progress[..] == Falses(duration)
    {
      this.id := id;
      this.name := name;
      this.duration := duration;
      this.startDate := startDate;
      progress := new bool[duration](_ => false);
    }
  }

  /** `new Array(n).fill(false)`. */
  function Falses(n: nat): (r: seq<bool>)
    ensures |r| == n && forall i :: 0 <= i < n ==> !r[i]
  {
    seq(n, _ => false)
  }

  /** The habit's invariant: one progress entry per day of its duration. */
  predicate WellFormed(h: Habit) {
    h.progress.Length == h.duration
  }

  /** The instant at which day `index` of a habit begins. */
  function DayStart(startDate: int, index: int): int {
    startDate + index * DAY_MS
  }

  /** The gate of `toggleDayProgress`: day `index` has begun. */
  predicate CanToggle(h: Habit, index: int, now: int) {
    now >= DayStart(h.startDate, index)
  }

  /**
   * The progress array after a toggle of day `index` that the gate allows or
   * not: only that entry may change, and it changes exactly when allowed.
   */
  function Toggled(progress: seq<bool>, index: int, allowed: bool): (r: seq<bool>)
    requires 0 <= index < |progress|
    ensures |r| == |progress|
    ensures r[index] == (progress[index] != allowed)
    ensures forall j :: 0 <= j < |r| && j != index ==> r[j] == progress[j]
  {
    if allowed then progress[index := !progress[index]] else progress
  }

  /** Toggling the same day twice at the same instant restores the progress array. */
  lemma ToggledTwice(progress: seq<bool>, index: int, allowed: bool)
    requires 0 <= index < |progress|
    ensures Toggled(Toggled(progress, index, allowed), index, allowed) == progress
  {
  }

  /** The filter predicate `p => p` of `getCompletedDays`. */
  function IsTrue(b: bool): bool { b }

  /** Counting the kept entries of `progress.filter(p => p)` counts the true entries. */
  lemma {:induction false} CompletedIsTrueCount(s: seq<bool>)
    ensures |Filter(s, IsTrue)| == multiset(s)[true]
  {
    if s != [] {
      CompletedIsTrueCount(s[1..]);
      assert s == [s[0]] + s[1..];
      assert multiset(s) == multiset{s[0]} + multiset(s[1..]);
    }
  }

  /** `getCompletedDays(habit)`: the number of true entries, at most the duration. */
  function GetCompletedDays(habit: Habit): (r: nat)
    reads habit.progress
    ensures r == multiset(habit.progress[..])[true]
    ensures r <= habit.progress.Length
    ensures WellFormed(habit) ==> r <= habit.duration
  {
    CompletedIsTrueCount(habit.progress[..]);
    |Filter(habit.progress[..], IsTrue)|
  }

  /** A toggle that the gate allows moves the completed count by exactly one. */
  lemma ToggledCount(progress: seq<bool>, index: int)
    requires 0 <= index < |progress|
    ensures multiset(Toggled(progress, index, true))[true]
         == multiset(progress)[true] + (if progress[index] then -1 else 1)
  {
  }

  /**
   * `getDayStatus(habit, index)`: pending exactly when the toggle gate is
   * closed, otherwise completed or missed as the day's entry says.
   */
  function GetDayStatus(habit: Habit, index: int, now: int): (r: DayStatus)
    reads habit.progress
    requires 0 <= index < habit.progress.Length
    ensures r == Pending <==> !CanToggle(habit, index, now)
    ensures r == Completed <==> CanToggle(habit, index, now) && habit.progress[index]
    ensures r == Missed <==> CanToggle(habit, index, now) && !habit.progress[index]
  {
    if DayStart(habit.startDate, index) > now then Pending
    else if habit.progress[index] then Completed
    else Missed
  }

  /** Once a day has begun it is never pending again at a later instant. */
  lemma NeverPendingAgain(habit: Habit, index: int, now: int, later: int)
    requires 0 <= index < habit.progress.Length
    requires now <= later && GetDayStatus(habit, index, now) != Pending
    ensures GetDayStatus(habit, index, later) != Pending
  {
  }

  /**
   * `e` is habit `h` as `onSubmit` rewrites it while `h` is being edited: same
   * id and start date, the new name and duration, and an all-false progress
   * array of the new length.
   */
  ghost predicate IsEditOf(e: Habit, h: Habit, name: string, duration: nat)
    reads e.progress
  {
    e.id == h.id && e.startDate == h.startDate && e.name == name && e.duration == duration
    && e.progress[..] == Falses(duration)
  }

  /**
   * The `habits.map(...)` of an edit: every habit with id `target` is replaced
   * by a new habit with the new name and duration and a fresh all-false
   * progress array; every other habit is kept as it is.
   */
  method EditHabits(habits: seq<Habit>, target: int, name: string, duration: nat)
    returns (edited: seq<Habit>)
    ensures |edited| == |habits|
    ensures forall i :: 0 <= i < |habits| ==>
      if habits[i].id == target then
        fresh(edited[i].progress) && IsEditOf(edited[i], habits[i], name, duration)
      else edited[i] == habits[i]
  {
    edited := [];
    var i := 0;
    while i < |habits|
      invariant 0 <= i <= |habits| && |edited| == i
      invariant forall k :: 0 <= k < i ==>
        if habits[k].id == target then
          fresh(edited[k].progress) && IsEditOf(edited[k], habits[k], name, duration)
        else edited[k] == habits[k]
    {
      var h := habits[i];
      if h.id == target {
        var e := new Habit(h.id, name, duration, h.startDate);
        edited := edited + [e];
      } else {
        edited := edited + [h];
      }
      i := i + 1;
    }
  }

  /** The state of `HabitsComponent`: the habit list and the id of the habit being edited. */
  class HabitsComponent {
    var habits: seq<Habit>
    var editingHabitId: Option<int>

    /** Every habit satisfies its invariant. */
    ghost predicate Valid()
      reads this
    {
      forall h :: h in habits ==> WellFormed(h)
    }

    /** The component with the habits read back from storage and nothing being edited. */
    constructor (stored: seq<Habit>)
      ensures habits == stored && editingHabitId == None
    {
      habits := stored;
      editingHabitId := None;
    }

    /**
     * `onSubmit()` with the form holding `formName` and `duration`, at instant
     * `now` (which also serves as the new habit's `Date.now()` id). A blank
     * name or a duration below one leaves everything unchanged; otherwise the
     * edited habits are rebuilt with an all-false progress array of the new
     * length, or a new habit is appended.
     */
    method OnSubmit(formName: string, duration: int, now: int)
      modifies this
      ensures Trim(formName) == [] || duration < 1 ==>
        habits == old(habits) && editingHabitId == old(editingHabitId)
      ensures Trim(formName) != [] && duration >= 1 ==> editingHabitId == None
      ensures Trim(formName) != [] && duration >= 1 && old(editingHabitId) == None ==>
        |habits| == |old(habits)| + 1 && habits[..|old(habits)|] == old(habits)
        && var h := habits[|old(habits)|];
           fresh(h) && fresh(h.progress)
           && h.id == now && h.name == Trim(formName) && h.duration == duration
           && h.startDate == now && h.progress[..] == Falses(duration)
      ensures Trim(formName) != [] && duration >= 1 && old(editingHabitId).Some? ==>
        |habits| == |old(habits)|
        && forall i :: 0 <= i < |habits| ==>
             if old(habits)[i].id == old(editingHabitId).value then
               fresh(habits[i].progress) && IsEditOf(habits[i], old(habits)[i], Trim(formName), duration)
             else habits[i] == old(habits)[i]
      ensures old(Valid()) ==> Valid()
    {
      var name := Trim(formName);
      if name == [] || duration < 1 {
        return;
      }
      if editingHabitId.Some? {
        habits := EditHabits(habits, editingHabitId.value, name, duration);
        editingHabitId := None;
      } else {
        var h := new Habit(now, name, duration, now);
        habits := habits + [h];
      }
    }

    /**
     * `toggleDayProgress(habit, index)` at instant `now`: flips the day's
     * entry in place when the day has begun, and changes nothing otherwise.
     */
    method ToggleDayProgress(habit: Habit, index: int, now: int)
      requires 0 <= index < habit.progress.Length
      modifies habit.progress
      ensures habit.progress[..] == Toggled(old(habit.progress[..]), index, CanToggle(habit, index, now))
      ensures old(GetDayStatus(habit, index, now)) == Pending ==>
        GetDayStatus(habit, index, now) == Pending
      ensures old(GetDayStatus(habit, index, now)) == Completed ==>
        GetDayStatus(habit, index, now) == Missed
      ensures old(GetDayStatus(habit, index, now)) == Missed ==>
        GetDayStatus(habit, index, now) == Completed
      ensures GetCompletedDays(habit) == old(GetCompletedDays(habit))
        + (if !CanToggle(habit, index, now) then 0 else if old(habit.progress[index]) then -1 else 1)
    {
      if now >= DayStart(habit.startDate, index) {
        ToggledCount(habit.progress[..], index);
        habit.progress[index] := !habit.progress[index];
      }
    }

    /** `editHabit(habit)`: marks the habit as being edited. */
    method EditHabit(habit: Habit)
      modifies this
      ensures editingHabitId == Some(habit.id) && habits == old(habits)
    {
      editingHabitId := Some(habit.id);
    }

    /** `deleteHabit(id)`: drops every habit with that id, keeping the rest in order, and ends its edit. */
    method DeleteHabit(id: int)
      modifies this
      ensures habits == Filter(old(habits), (h: Habit) => h.id != id)
      ensures forall h :: h in habits ==> h.id != id
      ensures editingHabitId == if old(editingHabitId) == Some(id) then None else old(editingHabitId)
      ensures old(Valid()) ==> Valid()
    {
      habits := Filter(habits, (h: Habit) => h.id != id);
      if editingHabitId == Some(id) {
        CancelEdit();
      }
    }

    /** `cancelEdit()`: nothing is being edited any more. */
    method CancelEdit()
      modifies this
      ensures editingHabitId == None && habits == old(habits)
    {
      editingHabitId := None;
    }
  }
}
