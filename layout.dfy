/** The dashboard shell: a navigation drawer with one item per view, a
    drawer toggle for small screens, and the view chosen by the selection. */
module Layout {

  /** The three views the shell can show. */
  datatype View = UsersView | PostsView | ProfileView

  datatype MenuItem = MenuItem(text: string, component: string)

  /** The drawer's items, in order. */
  const MenuItems: seq<MenuItem> :=
    [MenuItem("Users", "users"), MenuItem("Posts", "posts"), MenuItem("Profile", "profile")]

  /** The selection keys the menu items carry. */
  predicate IsMenuKey(component: string)
  {
    component == "users" || component == "posts" || component == "profile"
  }

  /** `renderContent`: "posts" and "profile" pick their views, and every
      other string, "users" included, picks the Users view. */
  function RenderContent(selectedComponent: string): (v: View)
    ensures v == PostsView <==> selectedComponent == "posts"
    ensures v == ProfileView <==> selectedComponent == "profile"
    ensures v == UsersView <==> selectedComponent != "posts" && selectedComponent != "profile"
  {
    match selectedComponent
    case "users" => UsersView
    case "posts" => PostsView
    case "profile" => ProfileView
    case _ => UsersView
  }

  /** The menu text naming a view. */
  function Title(v: View): string
  {
    match v
    case UsersView => "Users"
    case PostsView => "Posts"
    case ProfileView => "Profile"
  }

  /** Which drawer items are marked selected. */
  function SelectedMarks(selectedComponent: string): (marks: seq<bool>)
    ensures |marks| == |MenuItems|
    ensures forall i :: 0 <= i < |marks| ==> (marks[i] <==> MenuItems[i].component == selectedComponent)
  {
    seq(|MenuItems|, i requires 0 <= i < |MenuItems| => MenuItems[i].component == selectedComponent)
  }

  function CountMarked(marks: seq<bool>): (n: nat)
    ensures n <= |marks|
    ensures n == 0 <==> forall i :: 0 <= i < |marks| ==> !marks[i]
  {
    if marks == [] then 0 else (if marks[0] then 1 else 0) + CountMarked(marks[1..])
  }

  /** A menu key marks exactly one item, the one titled after the view that
      is shown; any other selection marks none. */
  lemma SelectionMarksOneItem(selectedComponent: string)
    ensures IsMenuKey(selectedComponent) ==> CountMarked(SelectedMarks(selectedComponent)) == 1
    ensures !IsMenuKey(selectedComponent) ==> CountMarked(SelectedMarks(selectedComponent)) == 0
    ensures forall i :: 0 <= i < |MenuItems| && SelectedMarks(selectedComponent)[i] ==>
              MenuItems[i].text == Title(RenderContent(selectedComponent))
  {
    var marks := SelectedMarks(selectedComponent);
    assert marks[1..][1..] == marks[2..];
    assert marks[2..][1..] == [];
    assert CountMarked(marks) == (if marks[0] then 1 else 0) + (if marks[1] then 1 else 0)
                                 + (if marks[2] then 1 else 0);
    assert "users" != "posts" && "users" != "profile" && "posts" != "profile" by {
      assert "users"[0] != "posts"[0] && "users"[0] != "profile"[0];
      assert "posts"[1] != "profile"[1];
    }
  }

  /** The shell's state cells. */
  datatype LayoutState = LayoutState(mobileOpen: bool, selectedComponent: string)

  /** The state before the first render: drawer closed, Users selected. */
  const Initial: LayoutState := LayoutState(false, "users")

  /** `handleDrawerToggle` flips the drawer and keeps the selection. */
  function AfterDrawerToggle(s: LayoutState): (t: LayoutState)
    ensures t.mobileOpen == !s.mobileOpen && t.selectedComponent == s.selectedComponent
  {
    s.(mobileOpen := !s.mobileOpen)
  }

  /** `handleMenuItemClick(component)`: the selection becomes `component`; on
      a small screen the drawer closes, otherwise it stays as it was. */
  function AfterMenuItemClick(s: LayoutState, component: string, isMobile: bool): (t: LayoutState)
    ensures t.selectedComponent == component
    ensures isMobile ==> !t.mobileOpen
    ensures !isMobile ==> t.mobileOpen == s.mobileOpen
  {
    if isMobile then LayoutState(false, component) else s.(selectedComponent := component)
  }

  /** What the user can do in the shell: open or close the drawer, or click
      one of the items (by its position); `isMobile` is the screen size at
      the time of the click. */
  datatype Event = DrawerToggle | MenuItemClick(index: nat, isMobile: bool)

  function Step(s: LayoutState, e: Event): LayoutState
  {
    match e
    case DrawerToggle => AfterDrawerToggle(s)
    case MenuItemClick(i, isMobile) =>
      if i < |MenuItems| then AfterMenuItemClick(s, MenuItems[i].component, isMobile) else s
  }

  function Run(s: LayoutState, events: seq<Event>): LayoutState
    decreases |events|
  {
    if events == [] then s else Run(Step(s, events[0]), events[1..])
  }

  /** From a state whose selection is a menu key, the initial one included,
      every run of events leaves a menu key selected, so exactly one drawer
      item is marked at all times. */
  lemma {:induction false} RunKeepsMenuKeySelected(s: LayoutState, events: seq<Event>)
    requires IsMenuKey(s.selectedComponent)
    ensures IsMenuKey(Run(s, events).selectedComponent)
    ensures CountMarked(SelectedMarks(Run(s, events).selectedComponent)) == 1
    decreases |events|
  {
    if events == [] {
      SelectionMarksOneItem(s.selectedComponent);
    } else {
      RunKeepsMenuKeySelected(Step(s, events[0]), events[1..]);
    }
  }

  /** Toggling the drawer twice restores it. */
  lemma {:induction false} ToggleTwiceRestores(s: LayoutState)
    ensures Run(s, [DrawerToggle, DrawerToggle]) == s
  {
    assert [DrawerToggle, DrawerToggle][1..] == [DrawerToggle];
  }

  /** The shell component: its state cells are the fields. */
  class DashboardLayout {
    var mobileOpen: bool
    var selectedComponent: string

    function State(): LayoutState
      reads this
    {
      LayoutState(mobileOpen, selectedComponent)
    }

    constructor ()
      ensures State() == Initial
    {
      mobileOpen, selectedComponent := false, "users";
    }

    method HandleDrawerToggle()
      modifies this
      ensures State() == AfterDrawerToggle(old(State()))
    {
      mobileOpen := !mobileOpen;
    }

    method HandleMenuItemClick(component: string, isMobile: bool)
      modifies this
      ensures State() == AfterMenuItemClick(old(State()), component, isMobile)
    {
      selectedComponent := component;
      if isMobile {
        mobileOpen := false;
      }
    }
  }
}
