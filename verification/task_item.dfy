/** The due-state of one task row (src/components/TaskItem.tsx): whole days
    left until the end date, the colour of the name and the marker after it,
    and the tooltip lines. `now` is the clock reading, passed in. */
module TaskItem {
  import opened Wrappers
  import opened Types

  /** 1000 * 3600 * 24 milliseconds. */
  const MsPerDay: int := 86_400_000

  /** The least integer `r` with `a <= r * b`: `Math.ceil(a / b)` on exact
      integers. Dafny's `/` floors for a positive divisor, so the ceiling is
      the negated floor of the negation. */
  function CeilDiv(a: int, b: int): (r: int)
    requires b > 0
    ensures (r - 1) * b < a <= r * b
  {
    var q := (-a) / b;
    assert -a == q * b + (-a) % b;
    -q
  }

  /** `calculateDaysRemaining`: whole days from `now` to the end date, rounded
      up; a deadline less than a day past still reads as 0. */
  function DaysRemaining(t: Task, now: Timestamp): (d: int)
    ensures (d - 1) * MsPerDay < t.endDate - now <= d * MsPerDay
  {
    CeilDiv(t.endDate - now, MsPerDay)
  }

  /** The text style of the name. */
  datatype Style = CompletedStyle | OverdueStyle | DueSoonStyle | DefaultStyle

  /** `getTextStyle`, read at `now`. In milliseconds: red once the end date
      is a full day past, orange from then up to two days ahead. */
  function TextStyle(t: Task, now: Timestamp): (s: Style)
    ensures s == CompletedStyle <==> t.isCompleted
    ensures s == OverdueStyle <==> !t.isCompleted && now - t.endDate >= MsPerDay
    ensures s == DueSoonStyle <==> !t.isCompleted && -MsPerDay < t.endDate - now <= 2 * MsPerDay
    ensures s == DefaultStyle <==> !t.isCompleted && t.endDate - now > 2 * MsPerDay
  {
    if t.isCompleted then CompletedStyle
    else
      var days := DaysRemaining(t, now);
      if days < 0 then OverdueStyle
      else if days <= 2 then DueSoonStyle
      else DefaultStyle
  }

  datatype Marker = OverdueMarker | DueSoonMarker

  /** Every call of `calculateDaysRemaining` reads the clock anew. One render
      reads it for the style, for the overdue test, and twice for the
      due-soon test, in that order. */
  datatype Readings = Readings(style: Timestamp, overdue: Timestamp, soonLow: Timestamp, soonHigh: Timestamp)

  /** The readings of a clock that does not run backwards. */
  predicate Monotone(r: Readings) {
    r.style <= r.overdue <= r.soonLow <= r.soonHigh
  }

  /** The markers rendered after the name, each JSX block evaluated with its
      own readings. Two markers never show on a clock that does not run
      backwards. */
  function Markers(t: Task, r: Readings): (ms: seq<Marker>)
    ensures OverdueMarker in ms <==> !t.isCompleted && r.overdue - t.endDate >= MsPerDay
    ensures DueSoonMarker in ms <==>
      !t.isCompleted && -MsPerDay < t.endDate - r.soonLow && t.endDate - r.soonHigh <= 2 * MsPerDay
    ensures Monotone(r) ==> |ms| <= 1
  {
    (if !t.isCompleted && DaysRemaining(t, r.overdue) < 0 then [OverdueMarker] else [])
    + (if !t.isCompleted && DaysRemaining(t, r.soonLow) >= 0 && DaysRemaining(t, r.soonHigh) <= 2
       then [DueSoonMarker] else [])
  }

  /** A completed task is styled completed whatever its dates and the clock,
      and has no marker. */
  lemma CompletedOverridesDates(t: Task, now: Timestamp, r: Readings)
    requires t.isCompleted
    ensures TextStyle(t, now) == CompletedStyle
    ensures Markers(t, r) == []
  {
  }

  /** When every reading gives the same day count, the marker matches the
      colour of the name: red with "(Overdue)", orange with "(Due soon)",
      none otherwise. */
  lemma MarkerAgreesWithStyle(t: Task, r: Readings)
    requires DaysRemaining(t, r.overdue) == DaysRemaining(t, r.style)
    requires DaysRemaining(t, r.soonLow) == DaysRemaining(t, r.style)
    requires DaysRemaining(t, r.soonHigh) == DaysRemaining(t, r.style)
    ensures |Markers(t, r)| <= 1
    ensures Markers(t, r) == [OverdueMarker] <==> TextStyle(t, r.style) == OverdueStyle
    ensures Markers(t, r) == [DueSoonMarker] <==> TextStyle(t, r.style) == DueSoonStyle
    ensures Markers(t, r) == [] <==> TextStyle(t, r.style) in {CompletedStyle, DefaultStyle}
  {
    var d := DaysRemaining(t, r.style);
    if t.isCompleted {
      assert Markers(t, r) == [];
    } else if d < 0 {
      assert Markers(t, r) == [OverdueMarker];
    } else if d <= 2 {
      assert Markers(t, r) == [DueSoonMarker];
    } else {
      assert Markers(t, r) == [];
    }
  }

  /** A render that straddles the moment a task becomes a full day late shows
      an orange name with the "(Overdue)" marker. */
  lemma StyleAndMarkerCanDisagree(t: Task)
    requires !t.isCompleted && t.endDate == 0
    ensures TextStyle(t, MsPerDay - 1) == DueSoonStyle
    ensures Markers(t, Readings(MsPerDay - 1, MsPerDay, MsPerDay, MsPerDay)) == [OverdueMarker]
  {
    var ms := Markers(t, Readings(MsPerDay - 1, MsPerDay, MsPerDay, MsPerDay));
    assert OverdueMarker in ms && DueSoonMarker !in ms;
  }

  /** The tooltip: description (or its fallback), start and due dates, and a
      completion line only when a completion date is present. */
  datatype Tooltip = Tooltip(description: string, start: Timestamp, due: Timestamp, completed: Option<Timestamp>)

  const NoDescription := "No description provided"

  function TooltipOf(t: Task): (tip: Tooltip)
    ensures tip.completed == t.completionDate
    ensures tip.start == t.startDate && tip.due == t.endDate
    ensures tip.description == NoDescription <==> !Truthy(t.description) || t.description.value == NoDescription
    ensures Truthy(t.description) ==> tip.description == t.description.value
  {
    Tooltip(if Truthy(t.description) then t.description.value else NoDescription,
            t.startDate, t.endDate, t.completionDate)
  }
}
