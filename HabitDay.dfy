/** The heat-map cell of the mobile summary calendar: its completion
    percentage, the colour band chosen from it, and the current-day mark.
    `generateProgressPercentage` is not part of this model; it is the
    parameter `progress`, about which nothing is assumed. */
module MobileHabitDay {
  import opened Api
  import opened Calendar

  /** The six background/border colour pairs, from an empty day to a full one. */
  datatype Band = Zinc900 | Violet900 | Violet800 | Violet700 | Violet600 | Violet500 {

    /** Position of the band in the scale, 0 for an empty day. */
    function Rank(): nat {
      match this
      case Zinc900 => 0
      case Violet900 => 1
      case Violet800 => 2
      case Violet700 => 3
      case Violet600 => 4
      case Violet500 => 5
    }
  }

  /** The condition under which the cell gets the band's classes, one per
      entry of the class map. */
  predicate Holds(band: Band, percentage: int) {
    match band
    case Zinc900 => percentage == 0
    case Violet900 => percentage > 0 && percentage < 20
    case Violet800 => percentage >= 20 && percentage < 40
    case Violet700 => percentage >= 40 && percentage < 60
    case Violet600 => percentage >= 60 && percentage < 80
    case Violet500 => percentage >= 80
  }

  /** The band whose condition holds; none for a negative percentage, which
      gets no colour classes at all. */
  function Classify(percentage: int): (band: Option<Band>)
    ensures band.Some? <==> percentage >= 0
    ensures forall b :: Holds(b, percentage) <==> band == Some(b)
  {
    if percentage < 0 then None
    else if percentage == 0 then Some(Zinc900)
    else if percentage < 20 then Some(Violet900)
    else if percentage < 40 then Some(Violet800)
    else if percentage < 60 then Some(Violet700)
    else if percentage < 80 then Some(Violet600)
    else Some(Violet500)
  }

  /** For every non-negative percentage exactly one band condition holds. */
  lemma BandsPartition(percentage: int)
    requires percentage >= 0
    ensures exists b :: Holds(b, percentage)
    ensures forall b1, b2 :: Holds(b1, percentage) && Holds(b2, percentage) ==> b1 == b2
  {
    assert Holds(Classify(percentage).value, percentage);
  }

  /** Each boundary belongs to the higher band, and everything from 80 up,
      beyond 100 included, to the top band. */
  lemma BoundariesGoUp(percentage: int)
    ensures Classify(20) == Some(Violet800)
    ensures Classify(40) == Some(Violet700)
    ensures Classify(60) == Some(Violet600)
    ensures Classify(80) == Some(Violet500)
    ensures percentage >= 80 ==> Classify(percentage) == Some(Violet500)
  {
  }

  /** A larger percentage never gets a lighter band. */
  lemma ClassifyMonotone(p: int, q: int)
    requires 0 <= p <= q
    ensures Classify(p).value.Rank() <= Classify(q).value.Rank()
  {
  }

  /** `completedPercentage`: the progress of the day, and 0 when the day has no
      habits (or a non-positive count). */
  function CompletedPercentage(amountOfHabits: int, amountCompleted: int, progress: (int, int) -> int): (percentage: int)
    ensures amountOfHabits <= 0 ==> percentage == 0
    ensures amountOfHabits > 0 ==> percentage == progress(amountOfHabits, amountCompleted)
  {
    if amountOfHabits > 0 then progress(amountOfHabits, amountCompleted) else 0
  }

  /** The component's props; the two counts are optional and default to 0. */
  datatype Props = Props(amountOfHabits: Option<int>, amountCompleted: Option<int>, date: int)

  /** The value of an optional count, 0 when it is not given. */
  function OrZero(count: Option<int>): (n: int)
    ensures count.None? ==> n == 0
    ensures count.Some? ==> n == count.value
  {
    match count
    case None => 0
    case Some(v) => v
  }

  /** What the cell shows: its band and whether it is outlined as today. */
  datatype DayCell = DayCell(percentage: int, band: Option<Band>, isCurrentDay: bool)

  /** The cell for `props` at instant `now`. */
  function HabitDay(props: Props, now: int, progress: (int, int) -> int): (cell: DayCell)
    ensures cell.percentage == CompletedPercentage(OrZero(props.amountOfHabits), OrZero(props.amountCompleted), progress)
    ensures cell.band == Classify(cell.percentage)
    ensures cell.isCurrentDay <==> IsSameDay(props.date, now)
  {
    var percentage := CompletedPercentage(OrZero(props.amountOfHabits), OrZero(props.amountCompleted), progress);
    var today := StartOfDay(now);
    StartOfDaySameDay(now);
    DayCell(percentage, Classify(percentage), IsSameDay(props.date, today))
  }

  /** A cell given no habit count is an empty (zinc) day, whatever its date. */
  lemma NoCountIsEmptyDay(props: Props, now: int, progress: (int, int) -> int)
    requires props.amountOfHabits.None?
    ensures HabitDay(props, now, progress).band == Some(Zinc900)
  {
  }

  /** The current-day mark depends only on the date and `now`, never on the
      counts that decide the band. */
  lemma CurrentDayIndependentOfBand(props: Props, other: Props, now: int, progress: (int, int) -> int)
    requires props.date == other.date
    ensures HabitDay(props, now, progress).isCurrentDay == HabitDay(other, now, progress).isCurrentDay
  {
  }
}
