/** The list of habit checkboxes that both day screens render: one checkbox
    per possible habit, in order, keyed and titled by the habit, checked when
    its id is among the completed ids, and disabled when the date is past. */
module Checklist {
  import opened Api

  datatype CheckboxView = CheckboxView(key: string, title: string, checked: bool, disabled: bool)

  function Checkboxes(habits: seq<PossibleHabit>, completed: seq<string>, past: bool): (boxes: seq<CheckboxView>)
    ensures |boxes| == |habits|
    ensures forall i :: 0 <= i < |habits| ==>
      && boxes[i].key == habits[i].id
      && boxes[i].title == habits[i].title
      && (boxes[i].checked <==> habits[i].id in completed)
      && boxes[i].disabled == past
  {
    if habits == [] then []
    else
      var h := habits[0];
      [CheckboxView(h.id, h.title, h.id in completed, past)] + Checkboxes(habits[1..], completed, past)
  }

  /** When the date is past no checkbox can be pressed; otherwise all can. */
  lemma AllDisabledIffPast(habits: seq<PossibleHabit>, completed: seq<string>, past: bool)
    requires habits != []
    ensures (forall b :: b in Checkboxes(habits, completed, past) ==> b.disabled) <==> past
  {
    var boxes := Checkboxes(habits, completed, past);
    assert boxes[0] in boxes;
  }
}
