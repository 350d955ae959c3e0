/** The navigation shell around every protected page: a drawer listing the menu
    entries (the one for the current path highlighted), a toggle for the drawer on
    small screens, and an account menu whose only action is logging out. */
module Layout {
  import opened Session

  /** A menu entry; its icon is presentation and is not modelled. */
  datatype MenuItem = MenuItem(text: string, path: string)

  /** The drawer's entries, in display order. */
  const MenuItems: seq<MenuItem> := [
    MenuItem("Tổng quan", "/dashboard"),
    MenuItem("Quản lý bệnh nhân", "/patients"),
    MenuItem("Khám chữa bệnh", "/examinations"),
    MenuItem("Phòng bệnh & Dịch bệnh", "/disease-prevention"),
    MenuItem("Chăm sóc Bà mẹ & Trẻ em", "/maternal-childcare"),
    MenuItem("Quản lý dân số", "/population"),
    MenuItem("Quản lý thuốc", "/medications"),
    MenuItem("Thiết bị y tế", "/medical-equipment"),
    MenuItem("An toàn thực phẩm", "/food-safety"),
    MenuItem("Lịch hẹn", "/appointments"),
    MenuItem("Hồ sơ bệnh án", "/medical-records")
  ]

  /** An entry is highlighted when the current path is exactly its path. */
  predicate IsActive(pathname: string, item: MenuItem) {
    pathname == item.path
  }

  /** The highlight flag of each entry of `items`, in order (the drawer's `map`
      over the entries): the flag of an entry is set exactly when the current path
      equals that entry's path, character for character. */
  function ActiveFlags(items: seq<MenuItem>, pathname: string): (flags: seq<bool>)
    ensures |flags| == |items|
    ensures forall i :: 0 <= i < |items| ==> (flags[i] <==> items[i].path == pathname)
  {
    if items == [] then []
    else [IsActive(pathname, items[0])] + ActiveFlags(items[1..], pathname)
  }

  /** No two entries share a path. */
  predicate PathsDistinct(items: seq<MenuItem>) {
    forall i, j :: 0 <= i < j < |items| ==> items[i].path != items[j].path
  }

  /** The drawer's eleven paths are pairwise distinct. */
  lemma MenuPathsDistinct()
    ensures |MenuItems| == 11
    ensures PathsDistinct(MenuItems)
  {
  }

  /** With pairwise distinct paths, at most one entry is highlighted, whatever the
      current path. */
  lemma AtMostOneActive(items: seq<MenuItem>, pathname: string)
    requires PathsDistinct(items)
    ensures forall i, j :: (0 <= i < |items| && 0 <= j < |items|
              && ActiveFlags(items, pathname)[i] && ActiveFlags(items, pathname)[j]) ==> i == j
  {
  }

  /** The index of the highlighted drawer entry for `pathname`, if any: the entry
      whose path equals `pathname`; `None` exactly when no entry's path does. */
  function ActiveIndex(items: seq<MenuItem>, pathname: string): (r: Option<nat>)
    ensures r.Some? ==> r.value < |items| && items[r.value].path == pathname
    ensures r.None? <==> forall i :: 0 <= i < |items| ==> items[i].path != pathname
  {
    if items == [] then None
    else if IsActive(pathname, items[0]) then Some(0)
    else match ActiveIndex(items[1..], pathname)
         case None => None
         case Some(k) => Some(k + 1)
  }

  /** The highlight flags and the highlighted index agree: for the drawer's
      entries, entry `i` is highlighted exactly when it is the highlighted index. */
  lemma ActiveIndexMatchesFlags(pathname: string, i: nat)
    requires i < |MenuItems|
    ensures ActiveFlags(MenuItems, pathname)[i] <==> ActiveIndex(MenuItems, pathname) == Some(i)
  {
    MenuPathsDistinct();
    AtMostOneActive(MenuItems, pathname);
    var r := ActiveIndex(MenuItems, pathname);
    if r.Some? && r.value != i {
      assert ActiveFlags(MenuItems, pathname)[r.value];
    }
  }

  /** Matching is exact, not by prefix: a path below an entry's path (such as
      "/population/households" below "/population") highlights no entry. */
  lemma SubpathHighlightsNothing()
    ensures MenuItems[5].path == "/population"
    ensures ActiveIndex(MenuItems, "/population/households") == None
  {
    var p := "/population/households";
    forall i | 0 <= i < |MenuItems| ensures MenuItems[i].path != p {
      assert |MenuItems[i].path| < |p|;
    }
  }

  /** A stand-in for the DOM element the account menu is anchored to. */
  datatype Anchor = Anchor(id: nat)

  /** The shell's calls into the router and the auth service, in order. */
  datatype ShellEffect = LogoutCalled | Navigated(target: string)

  /** The shell only navigates to a drawer entry's path or to the sign-in page,
      and every logout call is immediately followed by the navigation to the
      sign-in page. */
  ghost predicate WellFormedShellLog(log: seq<ShellEffect>) {
    && (forall i :: 0 <= i < |log| && log[i].Navigated? ==>
          log[i].target == SignInRoute || ActiveIndex(MenuItems, log[i].target).Some?)
    && (forall i :: 0 <= i < |log| && log[i].LogoutCalled? ==>
          i + 1 < |log| && log[i + 1] == Navigated(SignInRoute))
  }

  class DashboardShell {
    var mobileOpen: bool
    var anchorEl: Option<Anchor>
    var log: seq<ShellEffect>

    ghost predicate Valid()
      reads this
    {
      WellFormedShellLog(log)
    }

    /** A freshly mounted shell: drawer closed, account menu closed, no effects. */
    constructor ()
      ensures Valid()
      ensures !mobileOpen && anchorEl == None && log == []
    {
      mobileOpen := false;
      anchorEl := None;
      log := [];
    }

    /** The account menu is open exactly while it has an anchor element. */
    predicate AccountMenuOpen()
      reads this
    {
      anchorEl.Some?
    }

    /** The drawer toggle flips the mobile drawer's open flag and nothing else. */
    method HandleDrawerToggle()
      requires Valid()
      modifies this
      ensures Valid()
      ensures mobileOpen == !old(mobileOpen)
      ensures anchorEl == old(anchorEl) && log == old(log)
    {
      mobileOpen := !mobileOpen;
    }

    /** Clicking the account icon anchors (and so opens) the account menu there. */
    method HandleMenuOpen(target: Anchor)
      requires Valid()
      modifies this
      ensures Valid()
      ensures anchorEl == Some(target) && AccountMenuOpen()
      ensures mobileOpen == old(mobileOpen) && log == old(log)
    {
      anchorEl := Some(target);
    }

    /** Closing the account menu drops its anchor. */
    method HandleMenuClose()
      modifies this
      ensures old(Valid()) ==> Valid()
      ensures anchorEl == None && !AccountMenuOpen()
      ensures mobileOpen == old(mobileOpen) && log == old(log)
    {
      anchorEl := None;
    }

    /** Logging out calls the auth service's `logout`, closes the account menu and
        then navigates to the sign-in page, in that order. */
    method HandleLogout()
      requires Valid()
      modifies this
      ensures Valid()
      ensures log == old(log) + [LogoutCalled, Navigated(SignInRoute)]
      ensures anchorEl == None
      ensures mobileOpen == old(mobileOpen)
    {
      log := log + [LogoutCalled];
      HandleMenuClose();
      log := log + [Navigated(SignInRoute)];
    }

    /** Clicking drawer entry `i` navigates to its path; on a small screen it also
        closes the mobile drawer, otherwise the drawer flag is left alone. */
    method HandleItemClick(i: nat, isMobile: bool)
      requires Valid()
      requires i < |MenuItems|
      modifies this
      ensures Valid()
      ensures log == old(log) + [Navigated(MenuItems[i].path)]
      ensures mobileOpen == if isMobile then false else old(mobileOpen)
      ensures anchorEl == old(anchorEl)
    {
      assert ActiveIndex(MenuItems, MenuItems[i].path).Some?;
      log := log + [Navigated(MenuItems[i].path)];
      if isMobile {
        mobileOpen := false;
      }
    }
  }

  /** Toggling the drawer twice restores its open flag. */
  method ToggleTwice(shell: DashboardShell)
    requires shell.Valid()
    modifies shell
    ensures shell.Valid()
    ensures shell.mobileOpen == old(shell.mobileOpen)
    ensures shell.anchorEl == old(shell.anchorEl) && shell.log == old(shell.log)
  {
    shell.HandleDrawerToggle();
    shell.HandleDrawerToggle();
  }
}
