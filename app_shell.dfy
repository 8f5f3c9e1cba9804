/**
 * The application shell: the top menu chosen from the path, the sidebar
 * groups shown for it, the open/closed state of each group, and the
 * collapsed sidebar setting remembered in browser storage under
 * `appShell.sidebarCollapsed`.
 */
module AppShell {
  import opened Wrappers
  import opened Text

  datatype NavItem = NavItem(href: string, caption: string)
  datatype NavGroup = NavGroup(key: string, title: string, items: seq<NavItem>)

  const EmployeesKey: string := "employees"
  const StaffKey: string := "staff"
  const StaffPrefix: string := "/medical-staff"
  const StorageKey: string := "appShell.sidebarCollapsed"

  /** `NAV_GROUPS`: one group per top menu, each with its list and its second page. */
  function NavGroups(): (r: seq<NavGroup>)
    ensures |r| == 2 && r[0].key == EmployeesKey && r[1].key == StaffKey
    ensures forall i :: 0 <= i < |r| ==> |r[i].items| == 2
    ensures r[0].items[0].href == "/employees" && r[1].items[0].href == StaffPrefix
  {
    [NavGroup(EmployeesKey, "직원",
       [NavItem("/employees", "직원 목록"), NavItem("/employees/register", "직원 등록")]),
     NavGroup(StaffKey, "의료진",
       [NavItem("/medical-staff", "목록"), NavItem("/medical-staff/settings", "부서 및 직책 관리")])]
  }

  /** `activeTopMenu`: `"staff"` under `/medical-staff`, `"employees"` everywhere else. */
  function ActiveTopMenu(pathname: string): (r: string)
    ensures r == StaffKey <==> StartsWith(pathname, StaffPrefix)
    ensures r == EmployeesKey <==> !StartsWith(pathname, StaffPrefix)
  {
    if StartsWith(pathname, StaffPrefix) then StaffKey else EmployeesKey
  }

  /** `NAV_GROUPS.filter(group => group.key === activeTopMenu)`: the groups with that key, in order. */
  function FilteredGroups(groups: seq<NavGroup>, active: string): (r: seq<NavGroup>)
    ensures forall g :: g in r <==> g in groups && g.key == active
    ensures |r| <= |groups|
    ensures |groups| == 1 ==> r == (if groups[0].key == active then groups else [])
  {
    if groups == [] then []
    else if groups[0].key == active then [groups[0]] + FilteredGroups(groups[1..], active)
    else FilteredGroups(groups[1..], active)
  }

  /** The filter works group by group: the groups it keeps stay in their order. */
  lemma {:induction false} FilteredGroupsDistributes(a: seq<NavGroup>, b: seq<NavGroup>, active: string)
    ensures FilteredGroups(a + b, active) == FilteredGroups(a, active) + FilteredGroups(b, active)
  {
    if a == [] {
      assert a + b == b;
    } else {
      assert (a + b)[0] == a[0] && (a + b)[1..] == a[1..] + b;
      FilteredGroupsDistributes(a[1..], b, active);
    }
  }

  /** Whatever the path, the sidebar shows exactly one group: the active top menu's. */
  lemma {:induction false} OneGroupPerPath(pathname: string)
    ensures var r := FilteredGroups(NavGroups(), ActiveTopMenu(pathname));
      |r| == 1 && r[0].key == ActiveTopMenu(pathname)
  {
    var gs := NavGroups();
    assert gs[1..] == [gs[1]] && gs[1..][1..] == [];
    var active := ActiveTopMenu(pathname);
    assert FilteredGroups(gs[1..][1..], active) == [];
  }

  /** `prev[key]` read as a boolean: an absent key is closed. */
  predicate IsOpen(open: map<string, bool>, key: string) {
    key in open && open[key]
  }

  /** The reset on a new top menu: `{ [activeTopMenu]: true }`. */
  function ResetOpenGroups(active: string): (r: map<string, bool>)
    ensures forall k :: IsOpen(r, k) <==> k == active
    ensures r.Keys == {active}
  {
    map[active := true]
  }

  /** `toggleGroup(key)`: `{ ...prev, [key]: !prev[key] }`. */
  function ToggleGroup(open: map<string, bool>, key: string): (r: map<string, bool>)
    ensures IsOpen(r, key) == !IsOpen(open, key)
    ensures forall k :: k != key ==> (k in r <==> k in open) && (k in open ==> r[k] == open[k])
    ensures r.Keys == open.Keys + {key}
  {
    open[key := !IsOpen(open, key)]
  }

  /** Toggling a group twice restores which groups are open. */
  lemma ToggleGroupTwice(open: map<string, bool>, key: string)
    ensures forall k :: IsOpen(ToggleGroup(ToggleGroup(open, key), key), k) == IsOpen(open, k)
  {
  }

  /** The mount effect's reading: the stored setting is collapsed exactly when it is `"1"`. */
  function SavedCollapsed(saved: Option<string>): (r: bool)
    ensures saved.None? ==> !r
    ensures saved == Some("1") ==> r
    ensures r ==> saved.Some? && saved.value == StoredValue(true)
  {
    saved == Some("1")
  }

  /** What `toggleSidebarCollapsed` writes for the new setting. */
  function StoredValue(collapsed: bool): (r: string)
    ensures r == "1" || r == "0"
  {
    if collapsed then "1" else "0"
  }

  /** The value written for a setting reads back as that setting. */
  lemma StoredValueReadsBack(collapsed: bool)
    ensures SavedCollapsed(Some(StoredValue(collapsed))) == collapsed
  {
  }

  /** `effectiveSidebarCollapsed`: small screens always collapse; larger ones follow the setting. */
  function EffectiveCollapsed(isSmDown: bool, collapsed: bool): (r: bool)
    ensures isSmDown ==> r
    ensures !isSmDown ==> r == collapsed
  {
    if isSmDown then true else collapsed
  }

  /** What the shell renders once mounted: the active top menu, the sidebar groups and whether it is collapsed. */
  datatype View = View(activeKey: string, groups: seq<NavGroup>, openGroups: map<string, bool>, collapsed: bool)

  /** The shell's state; `stored` is the storage entry under `StorageKey`. */
  class Shell {
    var mounted: bool
    var openGroups: map<string, bool>
    var sidebarCollapsed: bool
    var stored: Option<string>

    /** The first render, before effects run, with the storage entry as found. */
    constructor (saved: Option<string>)
      ensures !mounted && openGroups == map[] && !sidebarCollapsed && stored == saved
    {
      mounted := false;
      openGroups := map[];
      sidebarCollapsed := false;
      stored := saved;
    }

    /** The mount effect: mark mounted, and collapse when the stored entry is `"1"`. */
    method Mount()
      modifies this
      ensures mounted
      ensures sidebarCollapsed == (old(sidebarCollapsed) || SavedCollapsed(stored))
      ensures openGroups == old(openGroups) && stored == old(stored)
    {
      mounted := true;
      if stored == Some("1") {
        sidebarCollapsed := true;
      }
    }

    /** The effect on `activeTopMenu`: only the new top menu's group is open. */
    method ActiveTopMenuChanged(pathname: string)
      modifies this
      ensures openGroups == ResetOpenGroups(ActiveTopMenu(pathname))
      ensures mounted == old(mounted) && sidebarCollapsed == old(sidebarCollapsed) && stored == old(stored)
    {
      openGroups := map[ActiveTopMenu(pathname) := true];
    }

    method Toggle(key: string)
      modifies this
      ensures openGroups == ToggleGroup(old(openGroups), key)
      ensures mounted == old(mounted) && sidebarCollapsed == old(sidebarCollapsed) && stored == old(stored)
    {
      openGroups := ToggleGroup(openGroups, key);
    }

    /** `toggleSidebarCollapsed`: flip the setting and store it as `"1"` or `"0"`. */
    method ToggleSidebarCollapsed()
      modifies this
      ensures sidebarCollapsed == !old(sidebarCollapsed)
      ensures stored == Some(StoredValue(sidebarCollapsed))
      ensures SavedCollapsed(stored) == sidebarCollapsed
      ensures mounted == old(mounted) && openGroups == old(openGroups)
    {
      var next := !sidebarCollapsed;
      stored := Some(if next then "1" else "0");
      sidebarCollapsed := next;
      StoredValueReadsBack(next);
    }

    /** The render: nothing before mounting, otherwise the active menu, its group and the effective setting. */
    method Render(pathname: string, isSmDown: bool) returns (r: Option<View>)
      ensures !mounted ==> r == None
      ensures mounted ==> r.Some? && r.value.activeKey == ActiveTopMenu(pathname)
      ensures mounted ==> r.value.groups == FilteredGroups(NavGroups(), ActiveTopMenu(pathname))
      ensures mounted ==> r.value.openGroups == openGroups
      ensures mounted ==> r.value.collapsed == EffectiveCollapsed(isSmDown, sidebarCollapsed)
    {
      if !mounted {
        return None;
      }
      var active := ActiveTopMenu(pathname);
      var collapsed := if isSmDown then true else sidebarCollapsed;
      r := Some(View(active, FilteredGroups(NavGroups(), active), openGroups, collapsed));
    }
  }
}
