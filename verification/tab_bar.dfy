/** The icon names of the bottom tab bar of the main screen. */
module TabBar {

  import opened Wrappers

  /** The tabs of the main screen, in order. */
  const Tabs: seq<string> := ["Home", "Workout", "Progress", "Profile"]

  const OutlineSuffix: string := "-outline"

  predicate IsOutline(name: string)
  {
    |name| >= |OutlineSuffix| && name[|name| - |OutlineSuffix|..] == OutlineSuffix
  }

  /**
   * The icon for a tab: the filled icon when the tab is focused, its outline
   * variant otherwise; no icon name for a route that is not one of the tabs.
   */
  function TabIcon(routeName: string, focused: bool): (icon: Option<string>)
    ensures icon.Some? <==> routeName in Tabs
    ensures icon.Some? ==> (IsOutline(icon.value) <==> !focused)
  {
    if routeName == "Home" then
      Some(if focused then "home" else "home-outline")
    else if routeName == "Workout" then
      Some(if focused then "barbell" else "barbell-outline")
    else if routeName == "Progress" then
      Some(if focused then "stats-chart" else "stats-chart-outline")
    else if routeName == "Profile" then
      Some(if focused then "person" else "person-outline")
    else
      None
  }

  /** The unfocused icon of every tab is its focused icon with the outline suffix. */
  lemma UnfocusedIsOutlineOfFocused(routeName: string)
    requires routeName in Tabs
    ensures TabIcon(routeName, false) == Some(TabIcon(routeName, true).value + OutlineSuffix)
  {
    if routeName == "Home" {
      assert "home" + OutlineSuffix == "home-outline";
    } else if routeName == "Workout" {
      assert "barbell" + OutlineSuffix == "barbell-outline";
    } else if routeName == "Progress" {
      assert "stats-chart" + OutlineSuffix == "stats-chart-outline";
    } else {
      assert "person" + OutlineSuffix == "person-outline";
    }
  }

  /** Different tabs never share an icon, focused or not. */
  lemma TabIconsDistinct(a: string, b: string, focusedA: bool, focusedB: bool)
    requires a in Tabs && b in Tabs && a != b
    ensures TabIcon(a, focusedA) != TabIcon(b, focusedB)
  {
  }

}
