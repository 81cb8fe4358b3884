/** The remote API's data shapes, and the outcomes of its calls.
    The HTTP transport itself is abstracted: each call's outcome is a
    parameter of the handler that issues it. */
module Api {

  datatype Option<+T> = None | Some(value: T)

  /** Outcome of a call whose response body is not used (`PATCH habits/:id/toggle`,
      `POST habits`): it either resolves or throws. */
  datatype Outcome = Success | Failure

  /** One possible habit of a day, as `GET day` returns it. */
  datatype PossibleHabit = PossibleHabit(id: string, title: string, createdAt: string)

  /** Body of the `GET day` response: the habits possible on that day and the
      ids of those completed. */
  datatype DayInfo = DayInfo(possibleHabits: seq<PossibleHabit>, completedHabits: seq<string>)

  /** Outcome of `GET day`: a well-formed snapshot, or a thrown error. */
  datatype FetchOutcome = Fetched(data: DayInfo) | FetchFailed

  /** The ids of a list of possible habits, in order. */
  function Ids(habits: seq<PossibleHabit>): (ids: seq<string>)
    ensures |ids| == |habits|
    ensures forall i :: 0 <= i < |habits| ==> ids[i] == habits[i].id
  {
    if habits == [] then [] else [habits[0].id] + Ids(habits[1..])
  }
}
