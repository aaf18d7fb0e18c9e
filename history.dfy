/** The calendar view of the history page: a fixed grid of 42 cells, six weeks of seven
    days starting on Sunday, with the month's days laid out from its first weekday. */
module History {
  import opened JsMath

  const GridCells: int := 42

  /** `Array.from({ length: 42 }, (_, i) => ...)`: cell `i` shows day `i - firstDay + 1`
      when that lies within the month and is empty otherwise. The weekday of the 1st and the
      month's length come from the clock and are parameters. */
  function CalendarDays(firstDay: int, daysInMonth: int): (cells: seq<Option<int>>)
    ensures |cells| == GridCells
    ensures forall i :: 0 <= i < |cells| ==>
      (cells[i].None? <==> i < firstDay || i - firstDay + 1 > daysInMonth)
    ensures forall i :: 0 <= i < |cells| && cells[i].Some? ==> cells[i].value == i - firstDay + 1
  {
    seq(GridCells, i requires 0 <= i < GridCells =>
      var dayNum := i - firstDay + 1;
      if dayNum < 1 || dayNum > daysInMonth then None else Some(dayNum))
  }

  /** For a real month (the 1st on weekday 0..6, at most 31 days) every day of the month has
      a cell, no day has two, and the filled cells are consecutive from `firstDay`. */
  lemma CalendarDaysEachOnce(firstDay: int, daysInMonth: int)
    requires 0 <= firstDay <= 6 && 0 <= daysInMonth <= 31
    ensures var cells := CalendarDays(firstDay, daysInMonth);
            (forall d :: 1 <= d <= daysInMonth ==> Some(d) in cells)
            && (forall i, j :: 0 <= i < j < |cells| && cells[i].Some? ==> cells[i] != cells[j])
            && (forall i :: 0 <= i < |cells| && cells[i].Some? ==> 1 <= cells[i].value <= daysInMonth)
            && (forall i :: firstDay <= i < firstDay + daysInMonth ==> i < |cells| && cells[i].Some?)
  {
    var cells := CalendarDays(firstDay, daysInMonth);
    forall d | 1 <= d <= daysInMonth ensures Some(d) in cells {
      var i := firstDay + d - 1;
      assert cells[i] == Some(d);
    }
  }

  /** A month starting on Saturday with 31 days fills 37 cells, the most any month needs. */
  lemma CalendarLongestMonth()
    ensures var cells := CalendarDays(6, 31);
            cells[5].None? && cells[6] == Some(1) && cells[36] == Some(31) && cells[37].None?
  {
  }
}
