/**
 * The navigation sidebar (app/shared/ui/app-sidebar.tsx): the fixed menu,
 * the permission filter over it, which entry is highlighted, and what a
 * click does to the sidebar's open state.
 */
module AppSidebar {
  import opened Js
  import opened Permissions
  import opened AuthStore
  import opened UsePermissions

  datatype MenuItem = MenuItem(title: string, url: string, permission: Option<Permission>)

  /** `menuItems`, in display order. */
  const MenuItems: seq<MenuItem> := [
    MenuItem("Dashboard", "/", Some(ViewDashboard)),
    MenuItem("Customers", "/customers", Some(ViewCustomers)),
    MenuItem("Transactions", "/transactions", Some(ViewTransactions)),
    MenuItem("Invite Users", "/invite", Some(InviteUsers))
  ]

  /** The filter's test: an item without a permission, or one the user holds. */
  predicate IsVisible(item: MenuItem, user: Option<User>)
    ensures item.permission.None? ==> IsVisible(item, user)
    ensures item.permission.Some? ==>
              (IsVisible(item, user) <==> item.permission.value in GetPermissions(RoleOf(user)))
    ensures user.None? ==> (IsVisible(item, user) <==> item.permission.None?)
  {
    item.permission.None? || Can(user, item.permission.value)
  }

  /** `a` is `b` with some elements left out and the rest in their order. */
  predicate IsSubsequence<T(==)>(a: seq<T>, b: seq<T>)
    decreases |b|
  {
    if b == [] then a == []
    else (a != [] && a[0] == b[0] && IsSubsequence(a[1..], b[1..])) || IsSubsequence(a, b[1..])
  }

  /** `items.filter(item => !item.permission || can(item.permission))`: the
      visible items, in their original order. */
  function VisibleMenuItems(items: seq<MenuItem>, user: Option<User>): (r: seq<MenuItem>)
    ensures IsSubsequence(r, items)
    ensures forall it :: it in r <==> it in items && IsVisible(it, user)
    ensures forall it :: multiset(r)[it] == if IsVisible(it, user) then multiset(items)[it] else 0
    decreases |items|
  {
    if items == [] then []
    else
      var rest := VisibleMenuItems(items[1..], user);
      assert forall it :: it in items <==> it == items[0] || it in items[1..];
      assert items == [items[0]] + items[1..];
      if IsVisible(items[0], user) then
        assert ([items[0]] + rest)[1..] == rest;
        [items[0]] + rest
      else rest
  }

  /** `isActive`: the item whose url is the current path is highlighted. */
  predicate IsActive(pathname: string, item: MenuItem)
  {
    pathname == item.url
  }

  /** Two items active on the same path have the same url. */
  lemma ActiveDeterminesUrl(pathname: string, a: MenuItem, b: MenuItem)
    requires IsActive(pathname, a) && IsActive(pathname, b)
    ensures a.url == b.url
  {
  }

  predicate UrlsDistinct(items: seq<MenuItem>)
  {
    forall i, j :: 0 <= i < j < |items| ==> items[i].url != items[j].url
  }

  lemma {:induction false} SubsequenceMembers<T>(a: seq<T>, b: seq<T>)
    requires IsSubsequence(a, b)
    ensures forall x :: x in a ==> x in b
    decreases |b|
  {
    if b != [] {
      if a != [] && a[0] == b[0] && IsSubsequence(a[1..], b[1..]) {
        SubsequenceMembers(a[1..], b[1..]);
        assert forall x :: x in a ==> x == a[0] || x in a[1..];
      } else {
        SubsequenceMembers(a, b[1..]);
      }
    }
  }

  /** Leaving items out cannot make two urls equal. */
  lemma {:induction false} SubsequenceKeepsUrlsDistinct(a: seq<MenuItem>, b: seq<MenuItem>)
    requires IsSubsequence(a, b) && UrlsDistinct(b)
    ensures UrlsDistinct(a)
    decreases |b|
  {
    if b != [] {
      assert UrlsDistinct(b[1..]) by {
        forall i, j | 0 <= i < j < |b[1..]| ensures b[1..][i].url != b[1..][j].url {
          assert b[1..][i] == b[i + 1] && b[1..][j] == b[j + 1];
        }
      }
      if a != [] && a[0] == b[0] && IsSubsequence(a[1..], b[1..]) {
        SubsequenceKeepsUrlsDistinct(a[1..], b[1..]);
        SubsequenceMembers(a[1..], b[1..]);
        forall i, j | 0 <= i < j < |a| ensures a[i].url != a[j].url {
          if i == 0 {
            assert a[j] == a[1..][j - 1] && a[j] in a[1..];
            assert a[j] in b[1..];
            var k :| 0 <= k < |b[1..]| && b[1..][k] == a[j];
            assert b[k + 1] == a[j];
          } else {
            assert a[i] == a[1..][i - 1] && a[j] == a[1..][j - 1];
          }
        }
      } else {
        SubsequenceKeepsUrlsDistinct(a, b[1..]);
      }
    }
  }

  /** The menu's urls are pairwise distinct. */
  lemma MenuUrlsDistinct()
    ensures UrlsDistinct(MenuItems)
  {
  }

  /** Among the visible items of a menu whose urls are distinct, at most
      one is highlighted. */
  lemma VisibleActiveUnique(items: seq<MenuItem>, user: Option<User>, pathname: string, i: nat, j: nat)
    requires UrlsDistinct(items)
    requires i < |VisibleMenuItems(items, user)| && j < |VisibleMenuItems(items, user)|
    requires IsActive(pathname, VisibleMenuItems(items, user)[i])
    requires IsActive(pathname, VisibleMenuItems(items, user)[j])
    ensures i == j
  {
    SubsequenceKeepsUrlsDistinct(VisibleMenuItems(items, user), items);
  }

  /** At most one visible menu entry is highlighted, whatever the path. */
  lemma AtMostOneActive(user: Option<User>, pathname: string, i: nat, j: nat)
    requires i < |VisibleMenuItems(MenuItems, user)| && j < |VisibleMenuItems(MenuItems, user)|
    requires IsActive(pathname, VisibleMenuItems(MenuItems, user)[i])
    requires IsActive(pathname, VisibleMenuItems(MenuItems, user)[j])
    ensures i == j
  {
    MenuUrlsDistinct();
    VisibleActiveUnique(MenuItems, user, pathname, i, j);
  }

  /** Filtering keeps a menu whose items are all visible as it is. */
  lemma {:induction false} AllVisibleKept(items: seq<MenuItem>, user: Option<User>)
    requires forall it :: it in items ==> IsVisible(it, user)
    ensures VisibleMenuItems(items, user) == items
    decreases |items|
  {
    if items != [] {
      assert items[0] in items;
      assert forall it :: it in items[1..] ==> it in items;
      AllVisibleKept(items[1..], user);
      assert items == [items[0]] + items[1..];
    }
  }

  /** An invisible item at the end of a menu is dropped and changes nothing else. */
  lemma {:induction false} InvisibleLastDropped(items: seq<MenuItem>, last: MenuItem, user: Option<User>)
    requires !IsVisible(last, user)
    ensures VisibleMenuItems(items + [last], user) == VisibleMenuItems(items, user)
    decreases |items|
  {
    if items == [] {
      assert [last][1..] == [];
    } else {
      assert (items + [last])[0] == items[0];
      assert (items + [last])[1..] == items[1..] + [last];
      InvisibleLastDropped(items[1..], last, user);
    }
  }

  /** Admins see the whole menu. */
  lemma AdminSeesAll(user: Option<User>)
    requires IsAdmin(user)
    ensures VisibleMenuItems(MenuItems, user) == MenuItems
  {
    forall it | it in MenuItems ensures IsVisible(it, user) { AdminCanAll(user, it.permission.value); }
    AllVisibleKept(MenuItems, user);
  }

  /** Customer-service agents see every entry but "Invite Users". */
  lemma CustomerServiceSeesAllButInvite(user: Option<User>)
    requires IsCustomerService(user)
    ensures VisibleMenuItems(MenuItems, user) == MenuItems[..3]
    ensures MenuItems[3].title == "Invite Users"
  {
    var head := MenuItems[..3];
    forall it | it in head ensures IsVisible(it, user) { CustomerServiceCan(user, it.permission.value); }
    AllVisibleKept(head, user);
    CustomerServiceCan(user, InviteUsers);
    assert MenuItems == head + [MenuItems[3]];
    InvisibleLastDropped(head, MenuItems[3], user);
  }

  /** Without a role nothing is shown, since every entry needs a permission. */
  lemma NoRoleSeesNothing(user: Option<User>)
    requires RoleOf(user).None?
    ensures VisibleMenuItems(MenuItems, user) == []
  {
    forall it | it in MenuItems ensures !IsVisible(it, user) { }
  }

  /** The sidebar's open flags and the device kind it was given. */
  class SidebarState {
    const isMobile: bool
    var open: bool
    var openMobile: bool

    constructor (isMobile: bool, open: bool, openMobile: bool)
      ensures this.isMobile == isMobile && this.open == open && this.openMobile == openMobile
    {
      this.isMobile, this.open, this.openMobile := isMobile, open, openMobile;
    }

    /** `handleItemClick`: a click closes the mobile sheet on a phone and the
        desktop sidebar otherwise, and leaves the other flag alone. */
    method HandleItemClick()
      modifies this
      ensures isMobile ==> !openMobile && open == old(open)
      ensures !isMobile ==> !open && openMobile == old(openMobile)
    {
      if isMobile {
        openMobile := false;
      } else {
        open := false;
      }
    }
  }
}
