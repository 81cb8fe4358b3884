/** The web list of a day's habits: it loads the day once, renders one
    checkbox per possible habit, and after a successful toggle request
    rebuilds the day's info and reports the new completed count to its
    parent through `onCompletedChange`. */
module WebHabitsList {
  import opened Api
  import opened Membership
  import opened Calendar
  import opened Checklist

  class HabitsList {
    /** The `date` prop, in epoch milliseconds. */
    const date: int
    /** `habitsInfo`, undefined until the day has loaded. */
    var habitsInfo: Option<DayInfo>

    constructor (date: int)
      ensures this.date == date && habitsInfo == None
    {
      this.date := date;
      habitsInfo := None;
    }

    /** The mount-time `GET day`: a response becomes the day's info; a
        rejected request has no handler and leaves the list unloaded. */
    method Load(response: FetchOutcome)
      modifies this`habitsInfo
      ensures response.Fetched? ==> habitsInfo == Some(response.data)
      ensures response.FetchFailed? ==> habitsInfo == old(habitsInfo)
    {
      if response.Fetched? {
        habitsInfo := Some(response.data);
      }
    }

    /** `handleToggleHabit`. Its checkboxes exist only once the day has
        loaded. When the toggle request throws nothing after it runs; when it
        succeeds the completed ids flip `habitId`, the possible habits are
        carried over, and the parent is told the new completed count
        (`completedChange` is the argument of `onCompletedChange`, `None`
        when it is not called). */
    method ToggleHabit(habitId: string, patch: Outcome) returns (completedChange: Option<nat>)
      requires habitsInfo.Some?
      modifies this`habitsInfo
      ensures patch.Failure? ==> habitsInfo == old(habitsInfo) && completedChange == None
      ensures patch.Success? ==>
        && habitsInfo.Some?
        && habitsInfo.value.possibleHabits == old(habitsInfo.value.possibleHabits)
        && habitsInfo.value.completedHabits == Toggle(old(habitsInfo.value.completedHabits), habitId)
        && completedChange == Some(|habitsInfo.value.completedHabits|)
      ensures patch.Success? && old(NoDuplicates(habitsInfo.value.completedHabits)) ==>
        && NoDuplicates(habitsInfo.value.completedHabits)
        && completedChange.value ==
             if habitId in old(habitsInfo.value.completedHabits)
             then |old(habitsInfo.value.completedHabits)| - 1
             else |old(habitsInfo.value.completedHabits)| + 1
    {
      if patch.Failure? {
        return None;
      }
      var info := habitsInfo.value;
      var isHabitCompleted := habitId in info.completedHabits;
      var completedHabits: seq<string> := [];
      if isHabitCompleted {
        completedHabits := Remove(info.completedHabits, habitId);
      } else {
        completedHabits := info.completedHabits + [habitId];
      }
      habitsInfo := Some(DayInfo(info.possibleHabits, completedHabits));
      completedChange := Some(|completedHabits|);
      if NoDuplicates(info.completedHabits) {
        ToggleNoDuplicates(info.completedHabits, habitId);
        ToggleLength(info.completedHabits, habitId);
      }
    }

    /** The rendered checkboxes at instant `now`: none before the day has
        loaded; then one per possible habit, checked when completed and
        disabled exactly when the date is past. */
    function Render(now: int): (boxes: seq<CheckboxView>)
      reads this
      ensures habitsInfo.None? ==> boxes == []
      ensures habitsInfo.Some? ==>
        && |boxes| == |habitsInfo.value.possibleHabits|
        && forall i :: 0 <= i < |boxes| ==>
             && boxes[i].key == habitsInfo.value.possibleHabits[i].id
             && boxes[i].title == habitsInfo.value.possibleHabits[i].title
             && (boxes[i].checked <==> habitsInfo.value.possibleHabits[i].id in habitsInfo.value.completedHabits)
             && (boxes[i].disabled <==> IsDateInPast(date, now))
    {
      match habitsInfo
      case None => []
      case Some(info) => Checkboxes(info.possibleHabits, info.completedHabits, IsDateInPast(date, now))
    }

    /** A change on the `index`-th checkbox, as drawn by the render at
        instant `renderedAt`: that render fixed the checkbox's `disabled`,
        and a disabled checkbox emits no change, so a date past at that
        render never changes. */
    method PressCheckbox(index: nat, renderedAt: int, patch: Outcome) returns (completedChange: Option<nat>)
      requires habitsInfo.Some? && index < |habitsInfo.value.possibleHabits|
      modifies this`habitsInfo
      ensures IsDateInPast(date, renderedAt) ==> habitsInfo == old(habitsInfo) && completedChange == None
      ensures !IsDateInPast(date, renderedAt) && patch.Success? ==>
        && habitsInfo.Some?
        && habitsInfo.value.possibleHabits == old(habitsInfo.value.possibleHabits)
        && habitsInfo.value.completedHabits ==
             Toggle(old(habitsInfo.value.completedHabits), old(habitsInfo.value.possibleHabits[index].id))
        && completedChange == Some(|habitsInfo.value.completedHabits|)
      ensures patch.Failure? ==> habitsInfo == old(habitsInfo) && completedChange == None
    {
      var boxes := Render(renderedAt);
      if boxes[index].disabled {
        return None;
      }
      completedChange := ToggleHabit(boxes[index].key, patch);
    }
  }
}
