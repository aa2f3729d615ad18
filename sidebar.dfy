/** The navigation of the clinic area (components/layout/sidebar.tsx) and of
    the platform owner's area (components/layout/admin-sidebar.tsx): an item
    is highlighted when the path is its link, or, for every item but the
    area's root, when the path starts with its link as a plain string. Each
    menu also has a collapse toggle; the owner's menu has a mobile drawer
    that closes whenever the path changes. */
module Sidebar {
  import opened Base

  const DashboardRoot: string := "/dashboard"
  const Estoque: string := "/dashboard/estoque"
  const Fichas: string := "/dashboard/fichas"
  const Configuracoes: string := "/dashboard/configuracoes"

  const AdminRoot: string := "/admin"
  const Clinicas: string := "/admin/clinicas"
  const AdminConfiguracoes: string := "/admin/configuracoes"

  /** The `href`s of the two `menuItems` lists, in order. */
  function ClinicMenu(): (r: seq<string>) {
    [DashboardRoot, Estoque, Fichas, Configuracoes]
  }

  function AdminMenu(): (r: seq<string>) {
    [AdminRoot, Clinicas, AdminConfiguracoes]
  }

  /** `pathname === href || (href !== root && pathname.startsWith(href))`. */
  predicate IsActive(pathname: string, href: string, root: string) {
    pathname == href || (href != root && href <= pathname)
  }

  /** The highlighted items of a menu. */
  function ActiveItems(pathname: string, menu: seq<string>, root: string): (r: seq<string>)
    ensures forall i :: 0 <= i < |r| ==> IsActive(pathname, r[i], root) && r[i] in menu
  {
    FilterMembers(menu, (href: string) => IsActive(pathname, href, root));
    Filter(menu, (href: string) => IsActive(pathname, href, root))
  }

  /** The root is highlighted only on itself. */
  lemma RootOnlyExact(pathname: string, root: string)
    ensures IsActive(pathname, root, root) <==> pathname == root
  {
  }

  /** A link that prefixes the path as a string highlights its item even
      when the path only continues the last word. */
  lemma RawPrefixActivates()
    ensures IsActive("/dashboard/estoque-x", Estoque, DashboardRoot)
  {
    var p := "/dashboard/estoque-x";
    assert p == Estoque + "-x";
  }

  /** Two prefixes of one string: the shorter is a prefix of the longer. */
  lemma PrefixesNest(a: string, b: string, p: string)
    requires a <= p && b <= p && |a| <= |b|
    ensures a <= b
  {
    assert a == p[..|a|] && b == p[..|b|];
    assert b[..|a|] == p[..|a|];
  }

  /** Among links of which none prefixes another and none is a prefix of the
      root, at most one item is highlighted for any path. */
  lemma AtMostOneActive(pathname: string, menu: seq<string>, root: string)
    requires |menu| >= 1 && menu[0] == root
    requires forall i, j :: 1 <= i < |menu| && 1 <= j < |menu| && i != j ==> !(menu[i] <= menu[j])
    requires forall i :: 1 <= i < |menu| ==> |menu[i]| > |root|
    ensures |ActiveItems(pathname, menu, root)| <= 1
  {
    var rest := menu[1..];
    assert menu == [root] + rest;
    FilterConcat([root], rest, (h: string) => IsActive(pathname, h, root));
    AtMostOnePrefix(pathname, rest, root);
    if pathname == root {
      forall k | 0 <= k < |rest| ensures !IsActive(pathname, rest[k], root) {
        LongerNotPrefix(rest[k], pathname);
      }
      FilterKeepsNone(rest, (h: string) => IsActive(pathname, h, root));
    }
  }

  /** A string longer than another is not a prefix of it. */
  lemma LongerNotPrefix(a: string, p: string)
    requires |a| > |p|
    ensures !(a <= p) && a != p
  {
  }

  /** Of two prefixes of one string, one is a prefix of the other. */
  lemma PrefixesComparable(a: string, b: string, p: string)
    ensures a <= p && b <= p ==> a <= b || b <= a
  {
    if a <= p && b <= p {
      if |a| <= |b| {
        PrefixesNest(a, b, p);
      } else {
        PrefixesNest(b, a, p);
      }
    }
  }

  /** Of links none of which prefixes another, at most one prefixes the path. */
  lemma {:induction false} AtMostOnePrefix(pathname: string, s: seq<string>, root: string)
    requires forall i, j :: 0 <= i < |s| && 0 <= j < |s| && i != j ==> !(s[i] <= s[j])
    requires forall i :: 0 <= i < |s| ==> |s[i]| > |root|
    ensures |Filter(s, (h: string) => IsActive(pathname, h, root))| <= 1
  {
    if s != [] {
      var rest := s[1..];
      assert forall i :: 0 <= i < |rest| ==> rest[i] == s[i + 1];
      AtMostOnePrefix(pathname, rest, root);
      if IsActive(pathname, s[0], root) {
        forall k | 0 <= k < |rest| ensures !IsActive(pathname, rest[k], root) {
          assert rest[k] == s[k + 1];
          PrefixesComparable(s[0], rest[k], pathname);
        }
        FilterKeepsNone(rest, (h: string) => IsActive(pathname, h, root));
      }
    }
  }

  lemma ClinicMenuShape()
    ensures forall i, j :: 1 <= i < 4 && 1 <= j < 4 && i != j ==> !(ClinicMenu()[i] <= ClinicMenu()[j])
    ensures forall i :: 1 <= i < 4 ==> |ClinicMenu()[i]| > |DashboardRoot|
  {
    assert Estoque[11] == 'e' && Fichas[11] == 'f' && Configuracoes[11] == 'c';
  }

  lemma AdminMenuShape()
    ensures forall i, j :: 1 <= i < 3 && 1 <= j < 3 && i != j ==> !(AdminMenu()[i] <= AdminMenu()[j])
    ensures forall i :: 1 <= i < 3 ==> |AdminMenu()[i]| > |AdminRoot|
  {
    assert Clinicas[7] == 'c' && AdminConfiguracoes[7] == 'c';
    assert Clinicas[8] == 'l' && AdminConfiguracoes[8] == 'o';
  }

  /** At most one of the four clinic items is highlighted, whatever the path. */
  lemma ClinicMenuOneActive(pathname: string)
    ensures |ActiveItems(pathname, ClinicMenu(), DashboardRoot)| <= 1
  {
    ClinicMenuShape();
    AtMostOneActive(pathname, ClinicMenu(), DashboardRoot);
  }

  /** At most one of the three owner items is highlighted, whatever the path. */
  lemma AdminMenuOneActive(pathname: string)
    ensures |ActiveItems(pathname, AdminMenu(), AdminRoot)| <= 1
  {
    AdminMenuShape();
    AtMostOneActive(pathname, AdminMenu(), AdminRoot);
  }

  /** The clinic menu's state. */
  class ClinicSidebar {
    var isCollapsed: bool

    constructor ()
      ensures !isCollapsed
    {
      isCollapsed := false;
    }

    method ToggleCollapse()
      modifies this
      ensures isCollapsed == !old(isCollapsed)
    {
      isCollapsed := !isCollapsed;
    }
  }

  /** The owner's menu state; `pathname` is the path the drawer last saw. */
  class AdminSidebar {
    var isCollapsed: bool
    var isMobileOpen: bool
    var pathname: string

    constructor (pathname: string)
      ensures !isCollapsed && !isMobileOpen && this.pathname == pathname
    {
      isCollapsed := false;
      isMobileOpen := false;
      this.pathname := pathname;
    }

    method ToggleCollapse()
      modifies this
      ensures isCollapsed == !old(isCollapsed) && isMobileOpen == old(isMobileOpen) && pathname == old(pathname)
    {
      isCollapsed := !isCollapsed;
    }

    /** The menu button. */
    method OpenMobile()
      modifies this
      ensures isMobileOpen && isCollapsed == old(isCollapsed) && pathname == old(pathname)
    {
      isMobileOpen := true;
    }

    /** The overlay and the close button. */
    method CloseMobile()
      modifies this
      ensures !isMobileOpen && isCollapsed == old(isCollapsed) && pathname == old(pathname)
    {
      isMobileOpen := false;
    }

    /** A render with a new path runs the effect that closes the drawer; the
        same path does not rerun it. */
    method Navigate(newPath: string)
      modifies this
      ensures pathname == newPath && isCollapsed == old(isCollapsed)
      ensures newPath != old(pathname) ==> !isMobileOpen
      ensures newPath == old(pathname) ==> isMobileOpen == old(isMobileOpen)
    {
      if newPath != pathname {
        isMobileOpen := false;
      }
      pathname := newPath;
    }
  }
}
