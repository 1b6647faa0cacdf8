/** The sidebar: the menu of the five tools, the lookup from the current path
    to the highlighted item, and the state its effects and clicks update. */
module Sidebar {
  import opened Common

  /** `toolsIndexArray`: the path of each tool, at the index it maps to. */
  const ToolNames: seq<string> := ["habits", "attendance", "expense", "budget", "settings"]

  /** `menuItems`: label (here `caption`) and page of each entry, in display order. */
  datatype MenuItem = MenuItem(caption: string, page: string)

  const MenuItems: seq<MenuItem> := [
    MenuItem("Habit Tracker", "/habits"),
    MenuItem("Attendance Tracker", "/attendance"),
    MenuItem("Money Tracker", "/expense"),
    MenuItem("Budget Tracker", "/budget"),
    MenuItem("Settings", "/settings")
  ]

  /** `toolsIndexMap.get(path) ?? null`. */
  function ToolIndex(path: string): (r: Option<nat>)
    ensures r.Some? ==> r.value < |ToolNames| && ToolNames[r.value] == path
    ensures r.None? <==> path !in ToolNames
  {
    if path == "habits" then Some(0)
    else if path == "attendance" then Some(1)
    else if path == "expense" then Some(2)
    else if path == "budget" then Some(3)
    else if path == "settings" then Some(4)
    else None
  }

  /** `pathname?.slice(1)`: the pathname without its leading character. */
  function PathOf(pathname: Option<string>): (r: Option<string>)
    ensures pathname.None? <==> r.None?
    ensures pathname.Some? && pathname.value != [] ==> r == Some(pathname.value[1..])
    ensures pathname == Some([]) ==> r == Some([])
  {
    match pathname
    case None => None
    case Some(p) => if p == [] then Some([]) else Some(p[1..])
  }

  datatype ScreenType = Laptop | Tablet | Mobile

  /** Each entry's page is `/` and the tool name its index maps to, so the
      item clicked and the item the path effect highlights agree. */
  lemma MenuOrderMatchesTable()
    ensures |MenuItems| == |ToolNames|
    ensures forall i :: 0 <= i < |MenuItems| ==>
              MenuItems[i].page == "/" + ToolNames[i]
              && ToolIndex(PathOf(Some(MenuItems[i].page)).value) == Some(i)
  {
    forall i | 0 <= i < |MenuItems|
      ensures MenuItems[i].page == "/" + ToolNames[i]
      ensures ToolIndex(PathOf(Some(MenuItems[i].page)).value) == Some(i)
    {
      assert MenuItems[i].page[1..] == ToolNames[i];
    }
  }

  class SidebarState {
    var screenType: ScreenType
    var isCollapsed: bool
    var activeItem: Option<nat>

    /** The initial `useState` values. */
    constructor ()
      ensures screenType == Laptop && !isCollapsed && activeItem.None?
    {
      screenType := Laptop;
      isCollapsed := false;
      activeItem := None;
    }

    /** The path effect: a non-empty path sets the highlighted item to its
        index, or to none for a path outside the table; an empty or missing
        path leaves it as it was. */
    method OnPath(pathname: Option<string>)
      modifies this
      ensures var path := PathOf(pathname);
              if path.Some? && path.value != [] then activeItem == ToolIndex(path.value)
              else activeItem == old(activeItem)
      ensures screenType == old(screenType) && isCollapsed == old(isCollapsed)
    {
      var path := PathOf(pathname);
      if path.Some? && path.value != [] {
        activeItem := ToolIndex(path.value);
      }
    }

    /** `handleResize`: the screen type by width; a mobile width leaves the
        collapsed flag as it was. */
    method HandleResize(width: int)
      modifies this
      ensures width >= 1024 ==> screenType == Laptop && !isCollapsed
      ensures 768 <= width < 1024 ==> screenType == Tablet && isCollapsed
      ensures width < 768 ==> screenType == Mobile && isCollapsed == old(isCollapsed)
      ensures activeItem == old(activeItem)
    {
      if width >= 1024 {
        screenType := Laptop;
        isCollapsed := false;
      } else if width >= 768 {
        screenType := Tablet;
        isCollapsed := true;
      } else {
        screenType := Mobile;
      }
    }

    /** Clicking menu entry `index`. */
    method Click(index: nat)
      requires index < |MenuItems|
      modifies this
      ensures activeItem == Some(index)
      ensures screenType == old(screenType) && isCollapsed == old(isCollapsed)
    {
      activeItem := Some(index);
    }
  }
}
