/** The mobile form that creates a habit: a title, a set of weekdays picked
    by toggling their checkboxes, and a confirm button that validates the
    form, posts it, and clears it on success. */
module MobileNewScreen {
  import opened Api
  import opened Membership
  import opened JsString

  /** The checkbox labels, Sunday first; a weekday is its index here. */
  const AvailableWeekDays: seq<string> :=
    ["Domingo", "Segunda-feira", "Terça-feira", "Quarta-feira", "Quinta-feira", "Sexta-feira", "Sábado"]

  /** The weekday indices the form can produce. */
  function WeekDayIndices(): (indices: set<int>)
    ensures forall i :: i in indices <==> 0 <= i < |AvailableWeekDays|
  {
    {0, 1, 2, 3, 4, 5, 6}
  }

  /** A selection of weekdays: distinct indices of `AvailableWeekDays`. */
  predicate WeekDaysValid(weekDays: seq<int>) {
    NoDuplicates(weekDays) && AllIn(weekDays, WeekDayIndices())
  }

  /** Toggling one of the form's indices keeps a selection valid. */
  lemma ToggleKeepsWeekDaysValid(weekDays: seq<int>, weekDayIndex: int)
    requires WeekDaysValid(weekDays) && 0 <= weekDayIndex < |AvailableWeekDays|
    ensures WeekDaysValid(Toggle(weekDays, weekDayIndex))
  {
    ToggleNoDuplicates(weekDays, weekDayIndex);
    ToggleAllIn(weekDays, weekDayIndex, WeekDayIndices());
  }

  /** Toggling a weekday twice gives back a selection with the same weekdays. */
  lemma ToggleWeekDayTwice(weekDays: seq<int>, weekDayIndex: int)
    requires WeekDaysValid(weekDays)
    ensures multiset(Toggle(Toggle(weekDays, weekDayIndex), weekDayIndex)) == multiset(weekDays)
  {
    if weekDayIndex in weekDays {
      ToggleTwicePresent(weekDays, weekDayIndex);
    } else {
      ToggleTwiceAbsent(weekDays, weekDayIndex);
    }
  }

  /** The guard of `handleCreateNewHabit`: the form may be posted unless the
      trimmed title is empty or no weekday is selected. */
  predicate CanCreate(title: string, weekDays: seq<int>) {
    !(Trim(title) == "" || |weekDays| == 0)
  }

  /** A form may be posted exactly when its title has a character that is not
      whitespace and at least one weekday is selected. */
  lemma CanCreateIff(title: string, weekDays: seq<int>)
    ensures CanCreate(title, weekDays) <==> !IsBlank(title) && weekDays != []
  {
    TrimEmptyIffBlank(title);
  }

  /** The alert the confirm button ends with. */
  datatype Alert = MissingFields | Created | CreateFailed

  /** The body of `POST /habits`. */
  datatype CreateRequest = CreateRequest(title: string, weekDays: seq<int>)

  class NewHabitScreen {
    var title: string
    var weekDays: seq<int>

    constructor ()
      ensures title == "" && weekDays == []
    {
      title := "";
      weekDays := [];
    }

    /** `onChangeText={setTitle}`. */
    method SetTitle(text: string)
      modifies this`title
      ensures title == text
    {
      title := text;
    }

    /** `handleToggleWeekDay`: drop the index when selected, append it when
        not. The form passes only indices of `AvailableWeekDays`, and with
        those the selection stays valid. */
    method ToggleWeekDay(weekDayIndex: int)
      modifies this`weekDays
      ensures weekDays == Toggle(old(weekDays), weekDayIndex)
      ensures old(WeekDaysValid(weekDays)) && 0 <= weekDayIndex < |AvailableWeekDays| ==> WeekDaysValid(weekDays)
    {
      ghost var before := weekDays;
      if weekDayIndex in weekDays {
        weekDays := Remove(weekDays, weekDayIndex);
      } else {
        weekDays := weekDays + [weekDayIndex];
      }
      if WeekDaysValid(before) && 0 <= weekDayIndex < |AvailableWeekDays| {
        ToggleKeepsWeekDaysValid(before, weekDayIndex);
      }
    }

    /** Which weekday checkboxes are checked, in `AvailableWeekDays` order. */
    function WeekDayChecks(): (checks: seq<bool>)
      reads this
      ensures |checks| == |AvailableWeekDays|
      ensures forall i :: 0 <= i < |checks| ==> (checks[i] <==> i in weekDays)
    {
      var selected := weekDays;
      seq(|AvailableWeekDays|, i => i in selected)
    }

    /** `handleCreateNewHabit`, with `post` the outcome of `POST /habits`.
        An invalid form issues no request and keeps its fields; a valid one
        issues the request with its fields, which are cleared on success and
        kept on failure. */
    method CreateNewHabit(post: Outcome) returns (request: Option<CreateRequest>, alert: Alert)
      modifies this`title, this`weekDays
      ensures !CanCreate(old(title), old(weekDays)) ==>
        request == None && alert == MissingFields && title == old(title) && weekDays == old(weekDays)
      ensures CanCreate(old(title), old(weekDays)) ==> request == Some(CreateRequest(old(title), old(weekDays)))
      ensures CanCreate(old(title), old(weekDays)) && post.Success? ==>
        alert == Created && title == "" && weekDays == []
      ensures CanCreate(old(title), old(weekDays)) && post.Failure? ==>
        alert == CreateFailed && title == old(title) && weekDays == old(weekDays)
    {
      if !CanCreate(title, weekDays) {
        return None, MissingFields;
      }
      request := Some(CreateRequest(title, weekDays));
      if post.Failure? {
        return request, CreateFailed;
      }
      title := "";
      weekDays := [];
      alert := Created;
    }
  }

  /** A whitespace-only title fails the guard, whatever the weekdays. */
  lemma BlankTitleRejected(title: string, weekDays: seq<int>)
    requires IsBlank(title)
    ensures !CanCreate(title, weekDays)
  {
    TrimEmptyIffBlank(title);
  }

  /** Confirming a form whose title is whitespace only issues no request and
      leaves the form as it was, whatever its weekdays and the server would
      do. */
  method BlankTitleSendsNothing(form: NewHabitScreen, post: Outcome) returns (request: Option<CreateRequest>, alert: Alert)
    requires IsBlank(form.title)
    modifies form
    ensures request == None && alert == MissingFields
    ensures form.title == old(form.title) && form.weekDays == old(form.weekDays)
  {
    BlankTitleRejected(form.title, form.weekDays);
    request, alert := form.CreateNewHabit(post);
  }
}
