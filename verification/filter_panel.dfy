/** The filter panel (src/components/TaskFilter.tsx): building a filter from
    the form values on Apply, Reset, the expand toggle and the sort keys. */
module FilterPanel {
  import opened Wrappers
  import opened Types

  /** The panel form's values: the status select, the range picker (its
      moments as timestamps) and the sort select. */
  datatype FormValues = FormValues(isActive: Option<bool>, dateRange: Option<seq<Timestamp>>, sort: Option<string>)

  /** The form's `initialValues`: status preset to active. */
  const InitialValues := FormValues(Some(true), None, None)

  /** The filter emitted on Apply. */
  function BuildFilter(v: FormValues): (f: TaskFilter)
    ensures f.isActive == v.isActive
    ensures f.startDate.Some? <==> v.dateRange.Some? && |v.dateRange.value| == 2
    ensures f.endDate.Some? <==> f.startDate.Some?
    ensures f.startDate.Some? ==> f.startDate.value == v.dateRange.value[0] && f.endDate.value == v.dateRange.value[1]
    ensures f.sort.Some? <==> Truthy(v.sort)
    ensures f.sort.Some? ==> f.sort == v.sort
    ensures f.isCompleted.None? && f.assignedTo.None? && f.page.None? && f.limit.None?
  {
    var withRange := v.dateRange.Some? && |v.dateRange.value| == 2;
    EmptyFilter.(
      isActive := v.isActive,
      startDate := if withRange then Some(v.dateRange.value[0]) else None,
      endDate := if withRange then Some(v.dateRange.value[1]) else None,
      sort := if Truthy(v.sort) then v.sort else None)
  }

  /** Reset: the form returns to its initial values and the empty filter is
      emitted. */
  function Reset(v: FormValues): (r: (FormValues, TaskFilter))
    ensures r.0 == InitialValues
    ensures r.1 == EmptyFilter
  {
    (InitialValues, EmptyFilter)
  }

  // ---------------------------------------------------------------------------
  // Sort keys

  /** The sortable fields, each offered ascending and descending. */
  datatype SortField = ByName | ByStartDate | ByEndDate | ByCreatedAt

  datatype SortSpec = SortSpec(field: SortField, descending: bool)

  function FieldName(f: SortField): string {
    match f
    case ByName => "name"
    case ByStartDate => "startDate"
    case ByEndDate => "endDate"
    case ByCreatedAt => "createdAt"
  }

  /** The select's options, in the order the panel lists them. */
  const SortKeys: seq<string> :=
    ["name", "-name", "startDate", "-startDate", "endDate", "-endDate", "-createdAt", "createdAt"]

  /** The key text of a sort: the field name, with a leading `-` when
      descending. */
  function SortKeyOf(s: SortSpec): string {
    (if s.descending then "-" else "") + FieldName(s.field)
  }

  function ParseSortKey(key: string): (r: Option<SortSpec>)
    ensures r.Some? ==> SortKeyOf(r.value) == key
  {
    if key == "name" then Some(SortSpec(ByName, false))
    else if key == "-name" then Some(SortSpec(ByName, true))
    else if key == "startDate" then Some(SortSpec(ByStartDate, false))
    else if key == "-startDate" then Some(SortSpec(ByStartDate, true))
    else if key == "endDate" then Some(SortSpec(ByEndDate, false))
    else if key == "-endDate" then Some(SortSpec(ByEndDate, true))
    else if key == "createdAt" then Some(SortSpec(ByCreatedAt, false))
    else if key == "-createdAt" then Some(SortSpec(ByCreatedAt, true))
    else None
  }

  /** The eight selectable keys are exactly the two directions of the four
      fields: every key parses, every sort has its key in the list, and no key
      is listed twice. */
  lemma SortKeysAreAllSorts()
    ensures forall k :: k in SortKeys ==> ParseSortKey(k).Some?
    ensures forall s: SortSpec :: SortKeyOf(s) in SortKeys && ParseSortKey(SortKeyOf(s)) == Some(s)
    ensures forall i, j :: 0 <= i < j < |SortKeys| ==> SortKeys[i] != SortKeys[j]
  {
    forall s: SortSpec
      ensures SortKeyOf(s) in SortKeys && ParseSortKey(SortKeyOf(s)) == Some(s)
    {
      SortRoundTrip(s);
    }
  }

  lemma SortRoundTrip(s: SortSpec)
    ensures SortKeyOf(s) in SortKeys && ParseSortKey(SortKeyOf(s)) == Some(s)
  {
    var key := SortKeyOf(s);
    match s
    case SortSpec(ByName, false) => assert key == "name" == SortKeys[0];
    case SortSpec(ByName, true) => assert key == "-name" == SortKeys[1];
    case SortSpec(ByStartDate, false) => assert key == "startDate" == SortKeys[2];
    case SortSpec(ByStartDate, true) => assert key == "-startDate" == SortKeys[3];
    case SortSpec(ByEndDate, false) => assert key == "endDate" == SortKeys[4];
    case SortSpec(ByEndDate, true) => assert key == "-endDate" == SortKeys[5];
    case SortSpec(ByCreatedAt, true) => assert key == "-createdAt" == SortKeys[6];
    case SortSpec(ByCreatedAt, false) => assert key == "createdAt" == SortKeys[7];
  }

  // ---------------------------------------------------------------------------
  // Expand / collapse

  datatype Control = ShowFilters | StatusSelect | DateRangePicker | SortSelect | ApplyButton | ResetButton | HideButton

  datatype Panel = Panel(expanded: bool)

  const InitialPanel := Panel(false)

  /** Both "Show Filters" and "Hide" flip the flag. */
  function Toggle(p: Panel): (q: Panel)
    ensures q.expanded == !p.expanded
  {
    Panel(!p.expanded)
  }

  /** What the panel renders: the single reveal button when collapsed, the form
      with its three fields and three buttons otherwise. */
  function Controls(p: Panel): (cs: seq<Control>)
    ensures !p.expanded <==> cs == [ShowFilters]
    ensures p.expanded <==> ApplyButton in cs
    ensures ShowFilters in cs <==> HideButton !in cs
    ensures p.expanded ==> HideButton in cs && ShowFilters !in cs
    ensures p.expanded ==> StatusSelect in cs && DateRangePicker in cs && SortSelect in cs && ResetButton in cs
  {
    if p.expanded then [StatusSelect, DateRangePicker, SortSelect, ApplyButton, ResetButton, HideButton]
    else [ShowFilters]
  }

  /** After `n` toggles from the initial collapsed panel, the panel is expanded
      exactly when `n` is odd. */
  lemma {:induction false} ToggleParity(n: nat)
    ensures Toggles(InitialPanel, n).expanded <==> n % 2 == 1
  {
    if n > 0 {
      ToggleParity(n - 1);
    }
  }

  function Toggles(p: Panel, n: nat): Panel {
    if n == 0 then p else Toggle(Toggles(p, n - 1))
  }
}
