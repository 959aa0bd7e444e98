/**
 * The navigation bar: two panel flags (hamburger menu and user menu) changed by event
 * handlers, and the permission-gated links it renders.
 */
module Navbar {
  import opened Wrappers
  import opened Seqs

  /** The two panel flags. */
  datatype Panels = Panels(mobileOpen: bool, userOpen: bool)

  /** At most one panel is open. */
  predicate Exclusive(p: Panels) {
    !(p.mobileOpen && p.userOpen)
  }

  /**
   * Where a mousedown landed, relative to the four elements the handler inspects; `attached`
   * is false while the elements are not mounted (their refs are null).
   */
  datatype Target = Target(attached: bool, inMobilePanel: bool, inHamburger: bool, inUserPanel: bool, inAvatar: bool)

  /** What can happen to the panels. */
  datatype Event =
    | ToggleMobile           // hamburger button
    | ToggleUser             // avatar in the mobile bar
    | CloseAll               // route change, a link in either panel, the logo, the backdrop, logout
    | MouseDown(t: Target)   // any mousedown in the document
    | SetUserMenu(isOpen: bool)  // the desktop dropdown reporting its own state

  /** The effect of one event. */
  function Step(p: Panels, e: Event): Panels {
    match e
    case ToggleMobile =>
      if !p.mobileOpen then Panels(true, false) else p.(mobileOpen := false)
    case ToggleUser =>
      if !p.userOpen then Panels(false, true) else p.(userOpen := false)
    case CloseAll => Panels(false, false)
    case MouseDown(t) =>
      Panels(
        if p.mobileOpen && t.attached && !t.inMobilePanel && !t.inHamburger then false else p.mobileOpen,
        if p.userOpen && t.attached && !t.inUserPanel && !t.inAvatar then false else p.userOpen)
    case SetUserMenu(isOpen) => p.(userOpen := isOpen)
  }

  /** The effect of a sequence of events, first to last. */
  function Run(p: Panels, events: seq<Event>): Panels
    decreases |events|
  {
    if events == [] then p else Run(Step(p, events[0]), events[1..])
  }

  /** No event opens the user panel directly. */
  predicate ThroughToggles(events: seq<Event>) {
    forall i :: 0 <= i < |events| ==> events[i] != SetUserMenu(true)
  }

  /** Opening a panel through its toggle closes the other; closing leaves the other alone. */
  lemma ToggleSpec(p: Panels)
    ensures Step(p, ToggleMobile).mobileOpen == !p.mobileOpen
    ensures !p.mobileOpen ==> !Step(p, ToggleMobile).userOpen
    ensures p.mobileOpen ==> Step(p, ToggleMobile).userOpen == p.userOpen
    ensures Step(p, ToggleUser).userOpen == !p.userOpen
    ensures !p.userOpen ==> !Step(p, ToggleUser).mobileOpen
    ensures p.userOpen ==> Step(p, ToggleUser).mobileOpen == p.mobileOpen
  {
  }

  /**
   * A mousedown closes a panel only when it lands outside both the panel and its trigger;
   * it never opens anything.
   */
  lemma MouseDownSpec(p: Panels, t: Target)
    ensures Step(p, MouseDown(t)).mobileOpen <==> p.mobileOpen && !(t.attached && !t.inMobilePanel && !t.inHamburger)
    ensures Step(p, MouseDown(t)).userOpen <==> p.userOpen && !(t.attached && !t.inUserPanel && !t.inAvatar)
  {
  }

  /** Every event except the direct setter opening the user panel keeps at most one panel open. */
  lemma StepKeepsExclusive(p: Panels, e: Event)
    requires Exclusive(p) && e != SetUserMenu(true)
    ensures Exclusive(Step(p, e))
  {
  }

  /**
   * Starting from at most one open panel, toggles, close-all, mousedowns and the setter
   * closing the user panel never open both.
   */
  lemma {:induction false} RunKeepsExclusive(p: Panels, events: seq<Event>)
    requires Exclusive(p) && ThroughToggles(events)
    ensures Exclusive(Run(p, events))
    decreases |events|
  {
    if events != [] {
      StepKeepsExclusive(p, events[0]);
      assert ThroughToggles(events[1..]) by {
        forall i | 0 <= i < |events[1..]| ensures events[1..][i] != SetUserMenu(true) {
          assert events[1..][i] == events[i + 1];
        }
      }
      RunKeepsExclusive(Step(p, events[0]), events[1..]);
    }
  }

  /** The direct setter opening the user panel is outside that guarantee: it can open it over the hamburger. */
  lemma SetUserMenuBreaksExclusive()
    ensures !Exclusive(Run(Panels(false, false), [ToggleMobile, SetUserMenu(true)]))
  {
    assert [ToggleMobile, SetUserMenu(true)][1..] == [SetUserMenu(true)];
  }

  /**
   * The events the two user dropdowns send when they mount: the desktop one, first in the
   * tree, reports its closed state through the setter; the mobile one calls the user-menu
   * toggle from the same reporting effect.
   */
  function DropdownMountEvents(): seq<Event> {
    [SetUserMenu(false), ToggleUser]
  }

  /**
   * Mounting the dropdowns opens the user panel and closes the hamburger from any state. On
   * the navbar's own first mount its path effect runs afterwards and closes both again; when
   * a user appears under an already mounted navbar and the path does not change, the user
   * panel stays open without a click.
   */
  lemma DropdownMountOpensUserPanel(p: Panels)
    ensures Run(p, DropdownMountEvents()) == Panels(false, true)
    ensures Run(p, DropdownMountEvents() + [CloseAll]) == Panels(false, false)
    ensures Exclusive(p) ==> Exclusive(Run(p, DropdownMountEvents()))
  {
    var evs := DropdownMountEvents() + [CloseAll];
    assert evs == [SetUserMenu(false), ToggleUser, CloseAll];
    var q := Step(Step(p, SetUserMenu(false)), ToggleUser);
    assert evs[1..] == [ToggleUser, CloseAll] && evs[1..][1..] == [CloseAll];
    assert Run(p, evs) == Run(q, [CloseAll]);
    assert DropdownMountEvents()[1..] == [ToggleUser];
  }

  /** The panel state of the navbar component. */
  class NavMenus {
    var isMobileMenuOpen: bool
    var isUserMenuOpen: bool

    function State(): Panels
      reads this
    {
      Panels(isMobileMenuOpen, isUserMenuOpen)
    }

    /** Both panels start closed. */
    constructor ()
      ensures State() == Panels(false, false)
    {
      isMobileMenuOpen, isUserMenuOpen := false, false;
    }

    /** `toggleMobileMenu` */
    method ToggleMobileMenu()
      modifies this
      ensures State() == Step(old(State()), ToggleMobile)
      ensures Exclusive(State())
    {
      if !isMobileMenuOpen {
        isUserMenuOpen := false;
      }
      isMobileMenuOpen := !isMobileMenuOpen;
    }

    /** `toggleUserMenu` */
    method ToggleUserMenu()
      modifies this
      ensures State() == Step(old(State()), ToggleUser)
      ensures Exclusive(State())
    {
      if !isUserMenuOpen {
        isMobileMenuOpen := false;
      }
      isUserMenuOpen := !isUserMenuOpen;
    }

    /** `closeAllMenus` */
    method CloseAllMenus()
      modifies this
      ensures State() == Step(old(State()), CloseAll) == Panels(false, false)
    {
      isMobileMenuOpen := false;
      isUserMenuOpen := false;
    }

    /** `handleClickOutside` */
    method HandleClickOutside(t: Target)
      modifies this
      ensures State() == Step(old(State()), MouseDown(t))
      ensures old(Exclusive(State())) ==> Exclusive(State())
    {
      if isMobileMenuOpen && t.attached && !t.inMobilePanel && !t.inHamburger {
        isMobileMenuOpen := false;
      }
      if isUserMenuOpen && t.attached && !t.inUserPanel && !t.inAvatar {
        isUserMenuOpen := false;
      }
    }

    /** The effect keyed on the path: runs on mount and whenever the path differs from the last one. */
    method OnPathChange(previous: Option<string>, path: string)
      modifies this
      ensures previous != Some(path) ==> State() == Panels(false, false)
      ensures previous == Some(path) ==> State() == old(State())
    {
      if previous != Some(path) {
        CloseAllMenus();
      }
    }

    /**
     * The mount effects of the two user dropdowns (`onMenuToggle(isOpen)` on mount), in tree
     * order: `handleUserMenuToggle(false)` from the desktop one, then `toggleUserMenu()` from
     * the mobile one.
     */
    method OnUserDropdownsMounted()
      modifies this
      ensures State() == Run(old(State()), DropdownMountEvents())
      ensures State() == Panels(false, true)
    {
      HandleUserMenuToggle(false);
      ToggleUserMenu();
      DropdownMountOpensUserPanel(old(State()));
    }

    /** `handleUserMenuToggle` */
    method HandleUserMenuToggle(isOpen: bool)
      modifies this
      ensures State() == Step(old(State()), SetUserMenu(isOpen))
    {
      isUserMenuOpen := isOpen;
    }
  }

  /** The permissions the navbar asks about. */
  datatype Permission = ManageUsers | ValidateResults

  /** The signed-in user, as far as the navbar shows it. */
  datatype User = User(username: string, firstName: string, lastName: string)

  datatype NavItem = NavItem(path: string, text: string)

  /** A right-hand item and whether it is shown. */
  datatype GatedItem = GatedItem(item: NavItem, condition: bool)

  const Ingreso := NavItem("/ingreso", "Ingreso")
  const Protocolos := NavItem("/protocolos", "Protocolos")
  const Pacientes := NavItem("/pacientes", "Pacientes")
  const Resultados := NavItem("/resultados", "Resultados")
  const Validacion := NavItem("/validacion", "Validación")
  const Profile := NavItem("/profile", "Mi Perfil")
  const Management := NavItem("/management", "Gestion de Usuarios")
  const Settings := NavItem("/configuracion", "Configuracion")

  function LeftNavItems(): seq<NavItem> {
    [Ingreso, Protocolos, Pacientes]
  }

  function RightNavItems(hasPermission: Permission -> bool): seq<GatedItem> {
    [GatedItem(Resultados, true), GatedItem(Validacion, hasPermission(ValidateResults))]
  }

  /** What the navbar renders: its links and the links of the mobile user panel. */
  datatype NavView = NavView(left: seq<NavItem>, right: seq<NavItem>, userPanel: seq<NavItem>)

  /** The navbar, or nothing when no user is signed in. */
  function Render(user: Option<User>, hasPermission: Permission -> bool): (v: Option<NavView>)
    ensures v.None? <==> user.None?
  {
    if user.None? then None
    else
      var shown := Filter(RightNavItems(hasPermission), (g: GatedItem) => g.condition);
      Some(NavView(
        LeftNavItems(),
        seq(|shown|, i requires 0 <= i < |shown| => shown[i].item),
        [Profile] + (if hasPermission(ManageUsers) then [Management] else []) + [Settings]))
  }

  /**
   * For a signed-in user the left items and "Resultados" are always shown, "Validación"
   * exactly with the result-validation permission, and the management link exactly with the
   * user-management permission.
   */
  lemma RenderGating(user: User, hasPermission: Permission -> bool)
    ensures var v := Render(Some(user), hasPermission).value;
      && v.left == [Ingreso, Protocolos, Pacientes]
      && Resultados in v.right
      && (Validacion in v.right <==> hasPermission(ValidateResults))
      && (Management in v.userPanel <==> hasPermission(ManageUsers))
      && Profile in v.userPanel && Settings in v.userPanel
  {
    var keep := (g: GatedItem) => g.condition;
    var items := RightNavItems(hasPermission);
    var tail := items[1..];
    assert tail[1..] == [];
    assert Filter(tail, keep) == if hasPermission(ValidateResults) then [items[1]] else [];
    assert Filter(items, keep) == [items[0]] + Filter(tail, keep);
    var v := Render(Some(user), hasPermission).value;
    assert v.right == if hasPermission(ValidateResults) then [Resultados, Validacion] else [Resultados];
  }
}
