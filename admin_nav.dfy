/**
 * The admin sidebar of `src/components/admin-nav.tsx`: which of the four
 * links is highlighted for the current path.
 */
module AdminNav {

  /** The dashboard link, which is only active on its exact path. */
  const Dashboard: string := "/admin"

  /** The sidebar's links, in display order. */
  const AdminNavLinks: seq<string> := [Dashboard, "/admin/products", "/admin/orders", "/admin/customers"]

  /** `pathname === href || (href !== "/admin" && pathname.startsWith(href))`; `startsWith` is a raw string prefix. */
  predicate IsActive(pathname: string, href: string)
  {
    pathname == href || (href != Dashboard && href <= pathname)
  }

  /** The dashboard is active on its own path and nowhere else. */
  lemma DashboardExactOnly(pathname: string)
    ensures IsActive(pathname, Dashboard) <==> pathname == Dashboard
  {
  }

  /** Any other link is active on its path and on every path that starts with it, even without a '/' after it. */
  lemma OtherLinksByPrefix(pathname: string, href: string)
    requires href != Dashboard
    ensures IsActive(pathname, href) <==> href <= pathname
  {
  }

  /** The raw prefix test lights Products on `/admin/productsX`, which is not one of its pages. */
  lemma ProductsXActivatesProducts()
    ensures IsActive("/admin/productsX", "/admin/products")
    ensures !IsActive("/admin/productsX", Dashboard)
  {
    assert "/admin/productsX" == "/admin/products" + "X";
  }

  /** Two prefixes of one path are prefixes of each other. */
  lemma PrefixesNest(a: string, b: string, path: string)
    ensures a <= path && b <= path && |a| <= |b| ==> a <= b
  {
    if a <= path && b <= path && |a| <= |b| {
      assert forall k :: 0 <= k < |a| ==> a[k] == path[k] == b[k];
    }
  }

  /** At most one of the four links is active for any path. */
  lemma AtMostOneActive(pathname: string)
    ensures forall i, j :: 0 <= i < j < |AdminNavLinks| ==>
      !(IsActive(pathname, AdminNavLinks[i]) && IsActive(pathname, AdminNavLinks[j]))
  {
    var links := AdminNavLinks;
    assert links[1][7] == 'p' && links[2][7] == 'o' && links[3][7] == 'c';
    assert |links[0]| == 6 && |links[1]| == 15 && |links[2]| == 13 && |links[3]| == 16;
    forall i, j | 0 <= i < j < |links|
      ensures !(IsActive(pathname, links[i]) && IsActive(pathname, links[j]))
    {
      if i == 0 {
        DashboardExactOnly(pathname);
        assert !(links[j] <= Dashboard);
      } else {
        PrefixesNest(links[i], links[j], pathname);
        PrefixesNest(links[j], links[i], pathname);
        assert !(links[i] <= links[j]) && !(links[j] <= links[i]);
      }
    }
  }
}
