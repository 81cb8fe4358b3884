/** The mobile day screen: it loads a day's habits, shows its progress and
    one checkbox per possible habit, and toggles a habit's completion after
    the remote toggle request has succeeded. */
module MobileHabitScreen {
  import opened Api
  import opened Membership
  import opened Calendar
  import opened Checklist

  /** What the screen renders. `Crashed` is the TypeError raised by reading
      `possibleHabits` of a null `dayInfo`. */
  datatype ScreenView =
    | LoadingView
    | Crashed
    | LoadFailedView
    | DayView(progress: int, dimmed: bool, checkboxes: seq<CheckboxView>, showsEmpty: bool, showsPastNotice: bool)

  class HabitScreen {
    /** The route's date, in epoch milliseconds. */
    const date: int
    var isLoading: bool
    var dayInfo: Option<DayInfo>
    var completedHabits: seq<string>

    constructor (date: int)
      ensures this.date == date
      ensures isLoading && dayInfo == None && completedHabits == []
    {
      this.date := date;
      isLoading := true;
      dayInfo := None;
      completedHabits := [];
    }

    /** The ids of the habits possible on the loaded day, none before a load. */
    function PossibleIds(): (ids: seq<string>)
      reads this
      ensures dayInfo.None? ==> ids == []
      ensures dayInfo.Some? ==> ids == Ids(dayInfo.value.possibleHabits)
    {
      match dayInfo
      case None => []
      case Some(info) => Ids(info.possibleHabits)
    }

    /** The completed ids are distinct ids of possible habits (the server's
        invariant on a loaded day). */
    ghost predicate Consistent()
      reads this
    {
      NoDuplicates(completedHabits) && AllIn(completedHabits, set id | id in PossibleIds())
    }

    /** `fetchHabits`: loading is over whatever the outcome; a response
        replaces the day and its completed ids, an error leaves both. */
    method FetchHabits(response: FetchOutcome)
      modifies this`isLoading, this`dayInfo, this`completedHabits
      ensures !isLoading
      ensures response.Fetched? ==> dayInfo == Some(response.data) && completedHabits == response.data.completedHabits
      ensures response.FetchFailed? ==> dayInfo == old(dayInfo) && completedHabits == old(completedHabits)
    {
      isLoading := true;
      match response {
        case Fetched(data) =>
          dayInfo := Some(data);
          completedHabits := data.completedHabits;
        case FetchFailed =>
      }
      isLoading := false;
    }

    /** `handleToggleHabit`: only once the toggle request has succeeded is the
        id filtered out (when completed) or appended (when not). */
    method ToggleHabit(habitId: string, patch: Outcome)
      modifies this`completedHabits
      ensures patch.Success? ==> completedHabits == Toggle(old(completedHabits), habitId)
      ensures patch.Failure? ==> completedHabits == old(completedHabits)
      ensures old(Consistent()) && habitId in PossibleIds() ==> Consistent()
      ensures old(NoDuplicates(completedHabits)) && patch.Success? ==>
        |completedHabits| == if habitId in old(completedHabits) then |old(completedHabits)| - 1 else |old(completedHabits)| + 1
    {
      if patch.Success? {
        ghost var before := completedHabits;
        if habitId in completedHabits {
          completedHabits := Remove(completedHabits, habitId);
        } else {
          completedHabits := completedHabits + [habitId];
        }
        if NoDuplicates(before) {
          ToggleNoDuplicates(before, habitId);
          ToggleLength(before, habitId);
        }
        if AllIn(before, set id | id in PossibleIds()) && habitId in PossibleIds() {
          ToggleAllIn(before, habitId, set id | id in PossibleIds());
        }
      }
    }

    /** A press on the checkbox of the `index`-th possible habit, as drawn by
        the render at instant `renderedAt`: that render fixed the checkbox's
        `disabled`, and a disabled checkbox ignores the press. */
    method PressCheckbox(index: nat, renderedAt: int, patch: Outcome)
      requires !isLoading && dayInfo.Some? && index < |dayInfo.value.possibleHabits|
      modifies this`completedHabits
      ensures IsDateInPast(date, renderedAt) ==> completedHabits == old(completedHabits)
      ensures !IsDateInPast(date, renderedAt) && patch.Success? ==>
        completedHabits == Toggle(old(completedHabits), dayInfo.value.possibleHabits[index].id)
      ensures patch.Failure? ==> completedHabits == old(completedHabits)
      ensures old(Consistent()) ==> Consistent()
    {
      assert PossibleIds()[index] == dayInfo.value.possibleHabits[index].id;
      var boxes := Checkboxes(dayInfo.value.possibleHabits, completedHabits, IsDateInPast(date, renderedAt));
      if !boxes[index].disabled {
        ToggleHabit(boxes[index].key, patch);
      }
    }

    /** `habitProgress`: 0 before a load and for a day without habits, the
        progress of the completed ids over the possible habits otherwise. */
    function HabitProgress(progress: (int, int) -> int): (p: int)
      reads this
      ensures dayInfo.None? || dayInfo.value.possibleHabits == [] ==> p == 0
      ensures dayInfo.Some? && dayInfo.value.possibleHabits != [] ==>
        p == progress(|dayInfo.value.possibleHabits|, |completedHabits|)
    {
      if dayInfo.Some? && |dayInfo.value.possibleHabits| != 0 then
        progress(|dayInfo.value.possibleHabits|, |completedHabits|)
      else 0
    }

    /** The loaded day as rendered at instant `now`: its progress, the past
        notice when the date is past, the dimmed list when it is past and has
        habits, the empty-day notice when it has none, and one checkbox per
        possible habit, checked when completed and disabled when past. */
    function DayViewOf(info: DayInfo, now: int, progress: (int, int) -> int): (view: ScreenView)
      reads this
      ensures view.DayView?
      ensures view.progress == HabitProgress(progress)
      ensures view.showsPastNotice == IsDateInPast(date, now)
      ensures view.dimmed == (IsDateInPast(date, now) && info.possibleHabits != [])
      ensures view.showsEmpty == (info.possibleHabits == [])
      ensures |view.checkboxes| == |info.possibleHabits|
      ensures forall i :: 0 <= i < |view.checkboxes| ==>
        && view.checkboxes[i].key == info.possibleHabits[i].id
        && view.checkboxes[i].title == info.possibleHabits[i].title
        && (view.checkboxes[i].checked <==> info.possibleHabits[i].id in completedHabits)
        && (view.checkboxes[i].disabled <==> IsDateInPast(date, now))
    {
      var past := IsDateInPast(date, now);
      DayView(HabitProgress(progress), past && |info.possibleHabits| > 0,
              Checkboxes(info.possibleHabits, completedHabits, past),
              |info.possibleHabits| == 0, past)
    }

    /** The screen as the component renders it: it dereferences `dayInfo`
        as soon as loading is over, also when the load failed. */
    function RenderAsWritten(now: int, progress: (int, int) -> int): (view: ScreenView)
      reads this
      ensures isLoading ==> view == LoadingView
      ensures !isLoading && dayInfo.None? ==> view == Crashed
      ensures !isLoading && dayInfo.Some? ==> view == DayViewOf(dayInfo.value, now, progress)
    {
      if isLoading then LoadingView
      else if dayInfo.None? then Crashed
      else DayViewOf(dayInfo.value, now, progress)
    }

    /** The screen rendered with the failed load shown rather than
        dereferenced. It never crashes; once loaded, every checkbox shows its
        habit's completion and is disabled exactly when the date is past. */
    function Render(now: int, progress: (int, int) -> int): (view: ScreenView)
      reads this
      ensures !view.Crashed?
      ensures isLoading <==> view == LoadingView
      ensures !isLoading && dayInfo.None? ==> view == LoadFailedView
      ensures !isLoading && dayInfo.Some? ==>
        && view.DayView?
        && view.progress == HabitProgress(progress)
        && view.showsPastNotice == IsDateInPast(date, now)
        && view.dimmed == (IsDateInPast(date, now) && dayInfo.value.possibleHabits != [])
        && view.showsEmpty == (dayInfo.value.possibleHabits == [])
        && |view.checkboxes| == |dayInfo.value.possibleHabits|
        && forall i :: 0 <= i < |view.checkboxes| ==>
             && view.checkboxes[i].key == dayInfo.value.possibleHabits[i].id
             && view.checkboxes[i].title == dayInfo.value.possibleHabits[i].title
             && (view.checkboxes[i].checked <==> dayInfo.value.possibleHabits[i].id in completedHabits)
             && (view.checkboxes[i].disabled <==> IsDateInPast(date, now))
    {
      if isLoading then LoadingView
      else if dayInfo.None? then LoadFailedView
      else DayViewOf(dayInfo.value, now, progress)
    }
  }

  /** The corrected render differs from the component's only where the
      component crashes. */
  lemma RenderAgrees(screen: HabitScreen, now: int, progress: (int, int) -> int)
    requires !screen.RenderAsWritten(now, progress).Crashed?
    ensures screen.Render(now, progress) == screen.RenderAsWritten(now, progress)
  {
  }

  /** A first load that fails, as written: alert shown, loading over, and
      the next render reads `possibleHabits` of null. */
  method FailedFirstLoadAsWritten(date: int, now: int, progress: (int, int) -> int) returns (view: ScreenView)
    ensures view == Crashed
  {
    var screen := new HabitScreen(date);
    screen.FetchHabits(FetchFailed);
    view := screen.RenderAsWritten(now, progress);
  }

  /** The same first failed load with the corrected render. */
  method FailedFirstLoad(date: int, now: int, progress: (int, int) -> int) returns (view: ScreenView)
    ensures view == LoadFailedView
  {
    var screen := new HabitScreen(date);
    screen.FetchHabits(FetchFailed);
    view := screen.Render(now, progress);
  }
}
