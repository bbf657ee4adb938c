/** The admin sidebar's active-link rule (src/components/ui/admin-sidebar.tsx). */
module AdminSidebar {
  import opened Types

  datatype NavLink = NavLink(href: string, caption: string)

  const DashboardHref := "/admin/dashboard"

  const NavLinks: seq<NavLink> := [
    NavLink("/admin/dashboard", "Dashboard"),
    NavLink("/admin/models", "Modelos"),
    NavLink("/admin/media-search", "Mídias"),
    NavLink("/admin/media-import", "Importar Mídias"),
    NavLink("/admin/banners", "Banners"),
    NavLink("/admin/config", "Configurar"),
    NavLink("/admin/tutorial", "Tutorial")
  ]

  /** `usePathname() || ""`. */
  function PathnameOrEmpty(p: Option<string>): string
  {
    if p.Some? then p.value else ""
  }

  /** `isActive`: an exact match, or a plain string prefix for every link but the dashboard. */
  predicate IsActive(pathname: string, href: string)
  {
    pathname == href || (href != DashboardHref && href <= pathname)
  }

  /** The rule read link by link. */
  lemma ActiveRule(pathname: string, href: string)
    ensures pathname == href ==> IsActive(pathname, href)
    ensures IsActive(pathname, DashboardHref) <==> pathname == DashboardHref
    ensures href != DashboardHref ==> (IsActive(pathname, href) <==> href <= pathname)
  {
  }

  /** Child routes light up their section. */
  lemma ChildRouteActivatesSection()
    ensures IsActive("/admin/models/3", NavLinks[1].href)
    ensures !IsActive("/admin/dashboard/x", NavLinks[0].href)
  {
    assert NavLinks[1].href == "/admin/models";
    assert "/admin/models/3"[..13] == "/admin/models";
  }

  /** Without a pathname nothing is highlighted. */
  lemma NullPathnameNothingActive()
    ensures forall i :: 0 <= i < |NavLinks| ==> !IsActive(PathnameOrEmpty(None), NavLinks[i].href)
  {
  }

  /** No link's href is a prefix of another's. */
  lemma HrefsPrefixFree()
    ensures forall i, j :: 0 <= i < |NavLinks| && 0 <= j < |NavLinks| && i != j ==>
      !(NavLinks[i].href <= NavLinks[j].href)
  {
    forall i, j | 0 <= i < |NavLinks| && 0 <= j < |NavLinks| && i != j
      ensures !(NavLinks[i].href <= NavLinks[j].href)
    {
      var a, b := NavLinks[i].href, NavLinks[j].href;
      if a[7] != b[7] {
        DifferAt(a, b, 7);
      } else if a[8] != b[8] {
        DifferAt(a, b, 8);
      } else {
        DifferAt(a, b, 13);
      }
    }
  }

  lemma DifferAt(a: string, b: string, k: nat)
    requires k < |a| && k < |b| && a[k] != b[k]
    ensures !(a <= b)
  {
  }

  lemma {:induction false} PrefixesComparable(a: string, b: string, p: string)
    requires a <= p && b <= p && |a| <= |b|
    ensures a <= b
  {
    assert a == p[..|a|] && b == p[..|b|];
    assert b[..|a|] == p[..|a|];
  }

  /** For any pathname at most one link is active. */
  lemma AtMostOneActive(pathname: string)
    ensures forall i, j ::
      (0 <= i < |NavLinks| && 0 <= j < |NavLinks| &&
       IsActive(pathname, NavLinks[i].href) && IsActive(pathname, NavLinks[j].href)) ==> i == j
  {
    HrefsPrefixFree();
    forall i, j | 0 <= i < |NavLinks| && 0 <= j < |NavLinks| &&
      IsActive(pathname, NavLinks[i].href) && IsActive(pathname, NavLinks[j].href)
      ensures i == j
    {
      var a, b := NavLinks[i].href, NavLinks[j].href;
      assert a <= pathname && b <= pathname;
      if |a| <= |b| {
        PrefixesComparable(a, b, pathname);
      } else {
        PrefixesComparable(b, a, pathname);
      }
    }
  }
}
