/** The navigation shell of frontend/src/components/layout/Layout.tsx: the role-based sidebar
    items with their "current" flags, and the sign-out button's handler. */
module Layout {
  import opened Wrappers
  import opened Text
  import opened ApiClient
  import opened Session
  import Routing
  import AuthStore

  datatype NavItem = NavItem(name: string, href: string, current: bool)

  const DashboardHref: string := "/dashboard"

  /** An item that is current while the path starts with its href. */
  function PrefixItem(name: string, href: string, pathname: string): NavItem {
    NavItem(name, href, StartsWith(pathname, href))
  }

  function ClientItems(pathname: string): seq<NavItem> {
    [PrefixItem("Mes livraisons", "/client/deliveries", pathname),
     PrefixItem("Suivi en temps réel", "/client/tracking", pathname)]
  }

  function DriverItems(pathname: string): seq<NavItem> {
    [PrefixItem("Mes livraisons", "/driver/deliveries", pathname),
     PrefixItem("Statut", "/driver/status", pathname)]
  }

  function StaffItems(pathname: string): seq<NavItem> {
    [PrefixItem("Livraisons", "/admin/deliveries", pathname),
     PrefixItem("Chauffeurs", "/admin/drivers", pathname),
     PrefixItem("Véhicules", "/admin/vehicles", pathname),
     PrefixItem("Statistiques", "/admin/stats", pathname)]
  }

  /** The role items for a user, without the dashboard. */
  function RoleItems(user: Option<User>, pathname: string): seq<NavItem> {
    if user.Some? && user.value.role == Client then ClientItems(pathname)
    else if user.Some? && user.value.role == Driver then DriverItems(pathname)
    else if user.Some? && (user.value.role == Admin || user.value.role == Manager) then StaffItems(pathname)
    else []
  }

  /** The href prefix of a user's role items. */
  function AreaOf(user: Option<User>): string {
    if user.Some? && user.value.role == Client then "/client/"
    else if user.Some? && user.value.role == Driver then "/driver/"
    else "/admin/"
  }

  /** `getNavigationItems`: the dashboard first (current on its exact path), then the items of
      the user's role (current on any path under their href). */
  function NavigationItems(user: Option<User>, pathname: string): (items: seq<NavItem>)
    ensures |items| >= 1 && items[0] == NavItem("Tableau de bord", DashboardHref, pathname == DashboardHref)
    ensures |items| == (if user.None? then 1
                        else match user.value.role
                             case Client => 3
                             case Driver => 3
                             case Admin => 5
                             case Manager => 5)
    ensures forall k :: 1 <= k < |items| ==> items[k].current == StartsWith(pathname, items[k].href)
    ensures forall k :: 1 <= k < |items| ==> StartsWith(items[k].href, AreaOf(user))
  {
    [NavItem("Tableau de bord", DashboardHref, pathname == DashboardHref)] + RoleItems(user, pathname)
  }

  /** ADMIN and MANAGER share one list. */
  lemma AdminAndManagerShareItems(u: User, pathname: string)
    ensures NavigationItems(Some(u.(role := Admin)), pathname) == NavigationItems(Some(u.(role := Manager)), pathname)
  {
  }

  /** No href of a list, the dashboard's included, is a prefix of another href of the list. */
  predicate PrefixFree(items: seq<NavItem>) {
    forall k, l :: 0 <= k < |items| && 0 <= l < |items| && k != l ==> !StartsWith(items[l].href, items[k].href)
  }

  lemma {:induction false} ItemsArePrefixFree(user: Option<User>, pathname: string)
    ensures PrefixFree(NavigationItems(user, pathname))
  {
    var items := NavigationItems(user, pathname);
    forall k, l | 0 <= k < |items| && 0 <= l < |items| && k != l
      ensures !StartsWith(items[l].href, items[k].href)
    {
      HrefsDiffer(user, pathname, k, l);
    }
  }

  /** Two hrefs of one list differ at a position both reach. */
  lemma {:induction false} HrefsDiffer(user: Option<User>, pathname: string, k: nat, l: nat)
    requires k < |NavigationItems(user, pathname)| && l < |NavigationItems(user, pathname)| && k != l
    ensures var items := NavigationItems(user, pathname);
            !StartsWith(items[l].href, items[k].href)
  {
    var items := NavigationItems(user, pathname);
    var a, b := items[k].href, items[l].href;
    if k == 0 {
      DashboardApart(user, b);
    } else if l == 0 {
      DashboardApart(user, a);
    } else {
      RoleHrefsDiffer(user, pathname, k - 1, l - 1);
    }
  }

  /** Two role items of one list have hrefs that are not prefixes of one another. */
  lemma RoleHrefsDiffer(user: Option<User>, pathname: string, k: nat, l: nat)
    requires k < |RoleItems(user, pathname)| && l < |RoleItems(user, pathname)| && k != l
    ensures var items := RoleItems(user, pathname);
            !StartsWith(items[l].href, items[k].href)
  {
    if user.Some? && user.value.role == Client {
      PairDiffers(ClientItems(pathname), k, l, 8);
    } else if user.Some? && user.value.role == Driver {
      PairDiffers(DriverItems(pathname), k, l, 8);
    } else {
      StaffHrefsDiffer(pathname, k, l);
    }
  }

  /** The dashboard href and an href under a role's area differ at position 2. */
  lemma DashboardApart(user: Option<User>, href: string)
    requires StartsWith(href, AreaOf(user))
    ensures !StartsWith(href, DashboardHref) && !StartsWith(DashboardHref, href)
  {
    var area := AreaOf(user);
    assert area[2] != DashboardHref[2];
    assert href[2] == area[2];
    DifferAt(href, DashboardHref, 2);
  }

  /** The two items of a two-item list differ at position `i`. */
  lemma PairDiffers(items: seq<NavItem>, k: nat, l: nat, i: nat)
    requires |items| == 2 && k < 2 && l < 2 && k != l
    requires i < |items[0].href| && i < |items[1].href| && items[0].href[i] != items[1].href[i]
    ensures !StartsWith(items[l].href, items[k].href)
  {
    DifferAt(items[k].href, items[l].href, i);
  }

  /** Two staff hrefs differ at position 7 or, for the two starting with "/admin/d", at 8. */
  lemma {:induction false} StaffHrefsDiffer(pathname: string, k: nat, l: nat)
    requires k < 4 && l < 4 && k != l
    ensures !StartsWith(StaffItems(pathname)[l].href, StaffItems(pathname)[k].href)
  {
    var items := StaffItems(pathname);
    var a, b := items[k].href, items[l].href;
    if a[7] != b[7] {
      DifferAt(a, b, 7);
    } else {
      DifferAt(a, b, 8);
    }
  }

  /** Strings that differ at a position both reach are not prefixes of one another. */
  lemma DifferAt(a: string, b: string, i: nat)
    ensures i < |a| && i < |b| && a[i] != b[i] ==> !StartsWith(a, b) && !StartsWith(b, a)
  {
  }

  /** Whatever the path, at most one item of a list is current. */
  lemma {:induction false} AtMostOneCurrent(user: Option<User>, pathname: string)
    ensures var items := NavigationItems(user, pathname);
            forall k, l :: 0 <= k < l < |items| ==> !(items[k].current && items[l].current)
  {
    var items := NavigationItems(user, pathname);
    ItemsArePrefixFree(user, pathname);
    forall k, l | 0 <= k < l < |items|
      ensures !(items[k].current && items[l].current)
    {
      var a, b := items[k].href, items[l].href;
      if k == 0 {
        assert a == DashboardHref;
      } else {
        PrefixesOfOnePath(pathname, a, b);
      }
    }
  }

  /** Two prefixes of one path are prefixes of one another. */
  lemma PrefixesOfOnePath(pathname: string, a: string, b: string)
    ensures StartsWith(pathname, a) && StartsWith(pathname, b) ==> StartsWith(a, b) || StartsWith(b, a)
  {
    if StartsWith(pathname, a) && StartsWith(pathname, b) {
      if |a| <= |b| { PrefixesAreComparable(pathname, a, b); } else { PrefixesAreComparable(pathname, b, a); }
    }
  }

  /** A CLIENT, DRIVER or ADMIN reaches every page its items link to. */
  lemma {:induction false} ItemsLeadToAdmittedPages(s: State, pathname: string, k: nat)
    requires Routing.SettledIn(s) && s.user.Some? && s.user.value.role != Manager
    requires 1 <= k < |NavigationItems(s.user, pathname)|
    ensures var href := NavigationItems(s.user, pathname)[k].href;
            Routing.Navigate(s, href) == Routing.Show(Routing.Match(href))
  {
    var items := NavigationItems(s.user, pathname);
    var href := items[k].href;
    var area := AreaOf(s.user);
    Routing.AreasCoverTheirPrefixes(href[|area|..]);
    assert href == area + href[|area|..];
  }

  /** A MANAGER's role items all lead to the unauthorized page. */
  lemma {:induction false} ManagerItemsAreDenied(s: State, pathname: string, k: nat)
    requires Routing.SettledIn(s) && s.user.Some? && s.user.value.role == Manager
    requires 1 <= k < |NavigationItems(s.user, pathname)|
    ensures Routing.Navigate(s, NavigationItems(s.user, pathname)[k].href) == Routing.GoTo(Routing.UnauthorizedRoute)
  {
    var href := NavigationItems(s.user, pathname)[k].href;
    Routing.ManagerDeniedAdmin(s, href[7..]);
    assert href == "/admin/" + href[7..];
  }

  // ----- Which user the shell sees -----

  /** The `user` the shell reads as written: it is destructured from the object `useAuthActions`
      returns, which has no such member, so it is undefined whatever the session holds. */
  function ShellUserAsWritten(s: State): (u: Option<User>)
    ensures u.None?
  {
    if "user" in AuthActionMembers then s.user else None
  }

  /** The sidebar as written: the dashboard item only, for every session. */
  function NavigationAsWritten(s: State, pathname: string): (items: seq<NavItem>)
    ensures |items| == 1
  {
    NavigationItems(ShellUserAsWritten(s), pathname)
  }

  /** A signed-in CLIENT gets no client items from the shell as written. */
  lemma {:induction false} ClientSeesOnlyDashboard(u: User, token: string, pathname: string)
    requires u.role == Client
    ensures var s := State(Some(u), Some(token), true, false);
            |NavigationAsWritten(s, pathname)| == 1 && |NavigationItems(s.user, pathname)| == 3
  {
    var s := State(Some(u), Some(token), true, false);
    assert "user" !in AuthActionMembers;
    assert ShellUserAsWritten(s) == None;
  }

  /** The `user` the shell evidently means: the session's user, as `useAuth` hands it out. */
  function ShellUser(s: State): (u: Option<User>)
    ensures u == s.user
  {
    UseAuth(s).user
  }

  /** The sidebar with the session's user: the items of the user's role. */
  function Navigation(s: State, pathname: string): (items: seq<NavItem>)
    ensures items == NavigationItems(s.user, pathname)
    ensures items[1..] == RoleItems(s.user, pathname)
  {
    NavigationItems(ShellUser(s), pathname)
  }

  // ----- Signing out -----

  class Shell {
    const store: AuthStore.Store
    /** The paths `navigate` was called with, in order. */
    var navigations: seq<string>

    constructor (store: AuthStore.Store)
      ensures this.store == store && navigations == []
    {
      this.store := store;
      navigations := [];
    }

    /** `handleLogout`: waits for `logout`, which never rejects, then goes to the sign-in page. */
    method HandleLogout(reply: Reply<()>)
      requires store.Valid()
      modifies this, store, store.storage, store.api
      ensures var s := LogoutStep(old(store.Current()), reply);
              store.Current() == s.after && store.TrafficIs(s)
      ensures navigations == old(navigations) + [Routing.LoginRoute]
    {
      var outcome := store.Logout(reply);
      if !outcome.Rejected? {
        navigations := navigations + [Routing.LoginRoute];
      }
    }
  }
}
