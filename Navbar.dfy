/** The navigation bar of src/components/Navbar.tsx: which links are listed for
    the current auth state, the user label, the dropdown's entries, and the
    dropdown toggle. The avatar upload (a file read) is not modelled. */
module Navbar {
  import opened Json
  import opened AuthService
  import opened App

  const GuestLabel: string := "游客"
  const DefaultUserLabel: string := "QQ用户"

  datatype NavItem = NavItem(name: string, path: string, alwaysVisible: bool)

  /** `navItems` for the given auth state, in declaration order. */
  function NavItems(isAuthenticated: bool): seq<NavItem> {
    [
      NavItem("主页", "/", true),
      NavItem("产品", "/products", true),
      NavItem("关于我们", "/about", true),
      NavItem("登录", "/login", !isAuthenticated),
      NavItem("注册", "/register", !isAuthenticated)
    ]
  }

  /** `items.filter(item => item.alwaysVisible)`. */
  function Visible(items: seq<NavItem>): (r: seq<NavItem>)
    ensures |r| <= |items|
    decreases |items|
  {
    if items == [] then []
    else if items[0].alwaysVisible then [items[0]] + Visible(items[1..])
    else Visible(items[1..])
  }

  /** The filter keeps exactly the visible items. */
  lemma {:induction false} VisibleMembers(items: seq<NavItem>, x: NavItem)
    ensures x in Visible(items) <==> x in items && x.alwaysVisible
    decreases |items|
  {
    if items != [] {
      VisibleMembers(items[1..], x);
      assert x in items <==> x == items[0] || x in items[1..];
    }
  }

  /** `sub` is `s` with some elements left out, the rest in their order. */
  predicate IsSubsequence(sub: seq<NavItem>, s: seq<NavItem>)
    decreases |s|
  {
    if sub == [] then true
    else if s == [] then false
    else if sub[0] == s[0] then IsSubsequence(sub[1..], s[1..])
    else IsSubsequence(sub, s[1..])
  }

  /** The filter keeps the declared order. */
  lemma {:induction false} VisibleKeepsOrder(items: seq<NavItem>)
    ensures IsSubsequence(Visible(items), items)
    decreases |items|
  {
    if items != [] {
      VisibleKeepsOrder(items[1..]);
      if !items[0].alwaysVisible {
        SkipHead(Visible(items[1..]), items);
      }
    }
  }

  /** A subsequence of the tail of `s` is a subsequence of `s`. */
  lemma {:induction false} SkipHead(sub: seq<NavItem>, s: seq<NavItem>)
    requires s != [] && IsSubsequence(sub, s[1..])
    ensures IsSubsequence(sub, s)
    decreases |s|, 0
  {
    if sub != [] && sub[0] == s[0] {
      DropFirst(sub, s[1..]);
    }
  }

  /** Leaving out the first element of a subsequence keeps it a subsequence. */
  lemma {:induction false} DropFirst(sub: seq<NavItem>, t: seq<NavItem>)
    requires sub != [] && IsSubsequence(sub, t)
    ensures IsSubsequence(sub[1..], t)
    decreases |t|, 1
  {
    if sub[0] == t[0] {
      SkipHead(sub[1..], t);
    } else {
      DropFirst(sub, t[1..]);
      SkipHead(sub[1..], t);
    }
  }

  /** The listed links. */
  function VisibleItems(isAuthenticated: bool): seq<NavItem> {
    Visible(NavItems(isAuthenticated))
  }

  function Paths(items: seq<NavItem>): (ps: seq<string>)
    ensures |ps| == |items| && forall k :: 0 <= k < |items| ==> ps[k] == items[k].path
  {
    seq(|items|, k requires 0 <= k < |items| => items[k].path)
  }

  /** One step of the filter. */
  lemma VisibleStep(items: seq<NavItem>)
    requires items != []
    ensures Visible(items) == (if items[0].alwaysVisible then [items[0]] else []) + Visible(items[1..])
  {
  }

  /** Home, Products and About are always listed; Login and Register exactly when
      signed out; in the declared order. */
  lemma VisibleItemsByAuthState(isAuthenticated: bool)
    ensures isAuthenticated ==> Paths(VisibleItems(isAuthenticated)) == ["/", "/products", "/about"]
    ensures !isAuthenticated ==> Paths(VisibleItems(isAuthenticated)) == ["/", "/products", "/about", "/login", "/register"]
  {
    var it := NavItems(isAuthenticated);
    assert it[4..][1..] == [];
    VisibleStep(it[4..]);
    assert it[3..][1..] == it[4..];
    VisibleStep(it[3..]);
    assert it[2..][1..] == it[3..];
    VisibleStep(it[2..]);
    assert it[1..][1..] == it[2..];
    VisibleStep(it[1..]);
    VisibleStep(it);
    var ps := Paths(VisibleItems(isAuthenticated));
    if isAuthenticated {
      assert VisibleItems(isAuthenticated) == [it[0], it[1], it[2]];
      assert |ps| == 3 && ps[0] == "/" && ps[1] == "/products" && ps[2] == "/about";
    } else {
      assert VisibleItems(isAuthenticated) == it;
      assert |ps| == 5 && ps[0] == "/" && ps[1] == "/products" && ps[2] == "/about" && ps[3] == "/login" && ps[4] == "/register";
    }
  }

  /** Every link the bar can list leads to a routed page. */
  lemma NavLinksAreRouted(isAuthenticated: bool, item: NavItem)
    requires item in VisibleItems(isAuthenticated)
    ensures Route(item.path).Some?
  {
    VisibleMembers(NavItems(isAuthenticated), item);
    var k :| 0 <= k < 5 && NavItems(isAuthenticated)[k] == item;
    if k == 0 { assert Routes[0].0 == item.path; }
    else if k == 1 { assert Routes[1].0 == item.path; }
    else if k == 2 { assert Routes[4].0 == item.path; }
    else if k == 3 { assert Routes[5].0 == item.path; }
    else { assert Routes[6].0 == item.path; }
  }

  /** `isAuthenticated ? (user?.name || 'QQ用户') : '游客'`. */
  function UserLabel(isAuthenticated: bool, user: Option<UserInfo>): (text: string)
    ensures !isAuthenticated ==> text == GuestLabel
    ensures isAuthenticated && user.Some? && user.value.name.Some? && user.value.name.value != "" ==> text == user.value.name.value
    ensures isAuthenticated && !(user.Some? && user.value.name.Some? && user.value.name.value != "") ==> text == DefaultUserLabel
  {
    if !isAuthenticated then GuestLabel
    else if user.Some? && user.value.name.Some? && user.value.name.value != "" then user.value.name.value
    else DefaultUserLabel
  }

  /** A signed-in user is never labelled as a guest, unless that is their name. */
  lemma LabelTellsSignedInFromGuest(user: Option<UserInfo>)
    requires user.None? || user.value.name != Some(GuestLabel)
    ensures UserLabel(true, user) != GuestLabel
    ensures UserLabel(false, user) == GuestLabel
  {
  }

  /** An entry of the open dropdown. */
  datatype DropdownEntry = ChangeAvatar | LinkTo(path: string)

  /** The path the logout entry links to. */
  const LogoutPath: string := "/logout"

  /** The entries of the dropdown: nothing while closed; when open, the avatar
      change and the logout link for a signed-in user, nothing for a guest. */
  function DropdownEntries(showDropdown: bool, isAuthenticated: bool): (entries: seq<DropdownEntry>)
    ensures entries != [] <==> showDropdown && isAuthenticated
    ensures entries != [] ==> entries == [ChangeAvatar, LinkTo(LogoutPath)]
  {
    if showDropdown && isAuthenticated then [ChangeAvatar, LinkTo(LogoutPath)] else []
  }

  /** The logout entry links to a path no route serves. */
  lemma LogoutEntryIsUnrouted(entry: DropdownEntry)
    requires entry in DropdownEntries(true, true) && entry.LinkTo?
    ensures Route(entry.path) == None
  {
    LogoutIsNotRouted();
  }

  /** The bar's own state. */
  class NavbarState {
    var showDropdown: bool
    var avatar: string

    constructor ()
      ensures !showDropdown && avatar == ""
    {
      showDropdown := false;
      avatar := "";
    }

    /** A click on the user area. */
    method ToggleDropdown()
      modifies this
      ensures showDropdown == !old(showDropdown) && avatar == old(avatar)
    {
      showDropdown := !showDropdown;
    }
  }

  /** Two clicks restore the dropdown. */
  method ToggleTwice(bar: NavbarState)
    modifies bar
    ensures bar.showDropdown == old(bar.showDropdown) && bar.avatar == old(bar.avatar)
  {
    bar.ToggleDropdown();
    bar.ToggleDropdown();
  }
}
