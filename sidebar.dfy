/**
 * The navigation decisions of the sidebar (frontend/src/components/layout/Sidebar.tsx):
 * which entries are highlighted for the current path, whether the administration menu
 * is shown, and what the footer shows for the signed-in user.
 */
module Sidebar {
  import opened Wrappers

  datatype NavItem = NavItem(name: string, href: string)

  /** The main menu, in display order. */
  const Navigation: seq<NavItem> := [
    NavItem("ダッシュボード", "/"),
    NavItem("在庫参照", "/inventory"),
    NavItem("入出庫管理", "/transactions"),
    NavItem("棚卸管理", "/stocktaking"),
    NavItem("マスタ管理", "/master"),
    NavItem("ロット履歴", "/lot-history"),
    NavItem("期限切迫一覧", "/expiring"),
    NavItem("レポート", "/reports")
  ]

  /** The administration menu, in display order. */
  const AdminNavigation: seq<NavItem> := [
    NavItem("ユーザー管理", "/admin/users"),
    NavItem("ロール管理", "/admin/roles"),
    NavItem("監査ログ", "/admin/audit-logs")
  ]

  /** The signed-in user as the sidebar reads it. */
  datatype SessionUser = SessionUser(name: string, role: string)

  /** JavaScript's `s.startsWith(prefix)`. */
  predicate StartsWith(s: string, prefix: string)
  {
    |prefix| <= |s| && s[..|prefix|] == prefix
  }

  /** `user?.role === 'SYSTEM_ADMIN'`: a missing user is not an administrator. */
  predicate IsAdmin(user: Option<SessionUser>)
  {
    user.Some? && user.value.role == "SYSTEM_ADMIN"
  }

  /** A main entry is highlighted on its own path and, except the dashboard, on every path it prefixes. */
  predicate IsMainActive(pathname: string, href: string)
  {
    pathname == href || (href != "/" && StartsWith(pathname, href))
  }

  /** An administration entry is highlighted on every path it prefixes. */
  predicate IsAdminActive(pathname: string, href: string)
  {
    StartsWith(pathname, href)
  }

  /** The dashboard entry is highlighted on "/" and nowhere else. */
  lemma DashboardOnlyAtRoot(pathname: string)
    ensures IsMainActive(pathname, Navigation[0].href) <==> pathname == "/"
  {
  }

  /**
   * The prefix test knows no segment boundary: a path that merely begins with an
   * entry's text highlights it.
   */
  lemma PrefixWithoutBoundary()
    ensures IsMainActive("/inventory-archive", "/inventory")
    ensures IsMainActive("/inventory/abc/history", "/inventory")
    ensures IsAdminActive("/admin/users/42", "/admin/users")
    ensures !IsMainActive("/", "/inventory")
  {
    assert "/inventory-archive"[..|"/inventory"|] == "/inventory";
    assert "/inventory/abc/history"[..|"/inventory"|] == "/inventory";
    assert "/admin/users/42"[..|"/admin/users"|] == "/admin/users";
  }

  /** Every main entry but the dashboard is told apart from the others by its second character. */
  lemma MainHrefsSecondChar()
    ensures forall a :: 1 <= a < |Navigation| ==> |Navigation[a].href| >= 2
    ensures forall a, b :: 1 <= a < |Navigation| && 1 <= b < |Navigation| ==>
      Navigation[a].href[1] == Navigation[b].href[1] ==> a == b
  {
  }

  /** For any path at most one main entry is highlighted. */
  lemma AtMostOneMainActive(pathname: string, i: int, j: int)
    requires 0 <= i < |Navigation| && 0 <= j < |Navigation|
    requires IsMainActive(pathname, Navigation[i].href) && IsMainActive(pathname, Navigation[j].href)
    ensures i == j
  {
    MainHrefsSecondChar();
    if i != 0 && j != 0 {
      var hi, hj := Navigation[i].href, Navigation[j].href;
      assert pathname[..|hi|][1] == hi[1];
      assert pathname[..|hj|][1] == hj[1];
    }
  }

  /** The administration entries are told apart by their eighth character, the one after "/admin/". */
  lemma AdminHrefsEighthChar()
    ensures forall a :: 0 <= a < |AdminNavigation| ==> |AdminNavigation[a].href| >= 8
    ensures forall a, b :: 0 <= a < |AdminNavigation| && 0 <= b < |AdminNavigation| ==>
      AdminNavigation[a].href[7] == AdminNavigation[b].href[7] ==> a == b
  {
  }

  /** For any path at most one administration entry is highlighted. */
  lemma AtMostOneAdminActive(pathname: string, i: int, j: int)
    requires 0 <= i < |AdminNavigation| && 0 <= j < |AdminNavigation|
    requires IsAdminActive(pathname, AdminNavigation[i].href) && IsAdminActive(pathname, AdminNavigation[j].href)
    ensures i == j
  {
    AdminHrefsEighthChar();
    var hi, hj := AdminNavigation[i].href, AdminNavigation[j].href;
    assert pathname[..|hi|][7] == hi[7];
    assert pathname[..|hj|][7] == hj[7];
  }

  /** The highlight of each main entry, in menu order. */
  function MainHighlights(pathname: string): (lit: seq<bool>)
    ensures |lit| == |Navigation|
    ensures forall i, j :: 0 <= i < |lit| && 0 <= j < |lit| && lit[i] && lit[j] ==> i == j
  {
    var lit := seq(|Navigation|, i requires 0 <= i < |Navigation| => IsMainActive(pathname, Navigation[i].href));
    assert forall i, j :: 0 <= i < |lit| && 0 <= j < |lit| && lit[i] && lit[j] ==> i == j by {
      forall i, j | 0 <= i < |lit| && 0 <= j < |lit| && lit[i] && lit[j] ensures i == j {
        AtMostOneMainActive(pathname, i, j);
      }
    }
    lit
  }

  /** The administration menu: shown only to an administrator, with at most one entry highlighted. */
  function AdminHighlights(user: Option<SessionUser>, pathname: string): (lit: Option<seq<bool>>)
    ensures lit.Some? <==> IsAdmin(user)
    ensures lit.Some? ==> |lit.value| == |AdminNavigation|
    ensures lit.Some? ==> forall i, j :: 0 <= i < |lit.value| && 0 <= j < |lit.value| && lit.value[i] && lit.value[j] ==> i == j
  {
    if !IsAdmin(user) then None
    else
      var lit := seq(|AdminNavigation|, i requires 0 <= i < |AdminNavigation| => IsAdminActive(pathname, AdminNavigation[i].href));
      assert forall i, j :: 0 <= i < |lit| && 0 <= j < |lit| && lit[i] && lit[j] ==> i == j by {
        forall i, j | 0 <= i < |lit| && 0 <= j < |lit| && lit[i] && lit[j] ensures i == j {
          AtMostOneAdminActive(pathname, i, j);
        }
      }
      Some(lit)
  }

  const FallbackName := "ユーザー"
  const FallbackRole := "権限なし"

  /** `user?.name || 'ユーザー'`: the name, or the fallback when there is no user or the name is empty. */
  function FooterName(user: Option<SessionUser>): (shown: string)
    ensures shown != ""
    ensures user.Some? && user.value.name != "" ==> shown == user.value.name
    ensures user.None? || user.value.name == "" ==> shown == FallbackName
  {
    if user.Some? && user.value.name != "" then user.value.name else FallbackName
  }

  /** `user?.role || '権限なし'`: the raw role code, or the fallback when there is none. */
  function FooterRole(user: Option<SessionUser>): (shown: string)
    ensures shown != ""
    ensures user.Some? && user.value.role != "" ==> shown == user.value.role
    ensures user.None? || user.value.role == "" ==> shown == FallbackRole
  {
    if user.Some? && user.value.role != "" then user.value.role else FallbackRole
  }
}
