/**
 * The filter panel: one value per filter group (disaster type, severity, time frame).
 * Clicking a button selects its value, and clicking the selected value again clears the
 * group to the empty string. The panel does not own the selection: it passes the new
 * selection to its parent.
 */
module FilterSystem {
  /** The selection: a value per filter group; a group never clicked has no entry. */
  type Filters = map<string, string>

  /** `selectedFilters[filterType] === value`: a group with no entry reads as `undefined`, never equal to a value. */
  predicate IsSelected(filters: Filters, group: string, value: string) {
    group in filters && filters[group] == value
  }

  /**
   * `handleFilterClick`: the selection handed to `onFilterChange`, a copy of the current one
   * with the clicked group toggled.
   */
  function HandleFilterClick(filters: Filters, group: string, value: string): (r: Filters)
    ensures r.Keys == filters.Keys + {group}
    ensures forall g :: g in filters && g != group ==> r[g] == filters[g]
  {
    filters[group := if IsSelected(filters, group, value) then "" else value]
  }

  /** The clicked button is selected afterwards exactly when it was not selected before (for a non-empty value). */
  lemma ClickToggles(filters: Filters, group: string, value: string)
    requires value != ""
    ensures IsSelected(HandleFilterClick(filters, group, value), group, value) <==> !IsSelected(filters, group, value)
    ensures IsSelected(filters, group, value) ==> HandleFilterClick(filters, group, value)[group] == ""
  {
  }

  /** Clicking selects one value per group: the other buttons of the group are not selected afterwards. */
  lemma ClickSelectsOne(filters: Filters, group: string, value: string, other: string)
    requires value != "" && other != value && other != ""
    ensures !IsSelected(HandleFilterClick(filters, group, value), group, other)
  {
  }

  /** Clicking an unselected button twice leaves its group cleared to the empty string. */
  lemma ClickTwiceClears(filters: Filters, group: string, value: string)
    requires value != ""
    requires group in filters && filters[group] != value
    ensures HandleFilterClick(HandleFilterClick(filters, group, value), group, value)[group] == ""
    ensures HandleFilterClick(HandleFilterClick(filters, group, value), group, value) == filters[group := ""]
  {
  }

  /** A button of another group keeps its state. */
  lemma ClickLeavesOtherGroups(filters: Filters, group: string, value: string, g: string, v: string)
    requires g != group
    ensures IsSelected(HandleFilterClick(filters, group, value), g, v) <==> IsSelected(filters, g, v)
  {
  }

  const ButtonBase: string := "px-4 py-2 rounded-lg text-sm font-medium transition-colors "
  const SelectedStyle: string := "bg-yellow-500 text-white"
  const UnselectedStyle: string := "bg-white text-gray-700 hover:bg-yellow-100"
  const ButtonBorder: string := " border border-yellow-300"

  /** The class list of a button with the given selection state. */
  function Styled(selected: bool): string {
    ButtonBase + (if selected then SelectedStyle else UnselectedStyle) + ButtonBorder
  }

  /** `getButtonClass`: the highlighted style exactly for the group's selected value. */
  function ButtonClass(filters: Filters, group: string, value: string): (c: string)
    ensures c == Styled(true) <==> IsSelected(filters, group, value)
    ensures c == Styled(true) || c == Styled(false)
  {
    StylesDiffer();
    Styled(IsSelected(filters, group, value))
  }

  /** The two styles differ, so the class list tells whether a button is selected. */
  lemma StylesDiffer()
    ensures Styled(true) != Styled(false)
  {
    var t, f := Styled(true), Styled(false);
    assert t[|ButtonBase| + 3] == 'y' && f[|ButtonBase| + 3] == 'w';
  }

  /**
   * After a click the clicked button is highlighted exactly when it was not selected
   * before, and every other button of the group is plain.
   */
  lemma ClickHighlights(filters: Filters, group: string, value: string, other: string)
    requires value != "" && other != ""
    ensures ButtonClass(HandleFilterClick(filters, group, value), group, value) == Styled(!IsSelected(filters, group, value))
    ensures other != value ==> ButtonClass(HandleFilterClick(filters, group, value), group, other) == Styled(false)
  {
  }
}
