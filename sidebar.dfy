/** The slide-in side menu (src/Sidebar.js): its entries filtered by the
    user's role, and whether it is open. */
module Sidebar {
  import opened Common

  /** An entry of the menu (its `label` is `caption` here); `roles` is None
      when every user may see it. */
  datatype Item = Item(id: string, caption: string, roles: Option<seq<string>>, comingSoon: bool)

  const Items: seq<Item> := [
    Item("settings", "Settings", Some(["admin"]), false),
    Item("users", "Users", Some(["admin"]), false),
    Item("stations", "Other Stations", None, true)]

  /** `!item.roles || item.roles.includes(role)`. */
  predicate Shown(item: Item, role: string)
  {
    item.roles.None? || role in item.roles.value
  }

  /** `items.filter(...)`: the entries a user with `role` sees, in order. */
  function Visible(items: seq<Item>, role: string): (r: seq<Item>)
    ensures |r| <= |items|
    ensures forall it :: it in r <==> it in items && Shown(it, role)
  {
    if |items| == 0 then []
    else
      var last := items[|items| - 1];
      var rest := Visible(items[..|items| - 1], role);
      assert forall it :: it in items <==> it in items[..|items| - 1] || it == last;
      if Shown(last, role) then rest + [last] else rest
  }


  /** A single entry stays exactly when it is shown. */
  lemma VisibleOne(it: Item, role: string)
    ensures Visible([it], role) == if Shown(it, role) then [it] else []
  {
    assert [it][..0] == [];
  }

  /** Filtering a list extended by one element filters the element alone. */
  lemma VisibleSnoc(items: seq<Item>, x: Item, role: string)
    ensures Visible(items + [x], role) == Visible(items, role) + Visible([x], role)
  {
    var s := items + [x];
    assert s[..|s| - 1] == items;
    assert s[|s| - 1] == x;
    VisibleOne(x, role);
  }

  /** The filter keeps the order of the menu: it works piecewise. */
  lemma {:induction false} VisibleKeepsOrder(a: seq<Item>, b: seq<Item>, role: string)
    ensures Visible(a + b, role) == Visible(a, role) + Visible(b, role)
  {
    if |b| == 0 {
      assert a + b == a;
    } else {
      var init, last := b[..|b| - 1], b[|b| - 1];
      calc {
        Visible(a + b, role);
        { SplitLast(a, b); }
        Visible((a + init) + [last], role);
        { VisibleSnoc(a + init, last, role); }
        Visible(a + init, role) + Visible([last], role);
        { VisibleKeepsOrder(a, init, role); }
        Visible(a, role) + Visible(init, role) + Visible([last], role);
        { VisibleSnoc(init, last, role); SplitLast(a, b); }
        Visible(a, role) + Visible(b, role);
      }
    }
  }

  /** The menu's entries, or None when the component renders nothing. */
  function Rendered(role: string): (r: Option<seq<Item>>)
    ensures r.None? <==> |Visible(Items, role)| == 0
    ensures r.Some? ==> r.value == Visible(Items, role)
  {
    var v := Visible(Items, role);
    if |v| == 0 then None else Some(v)
  }

  /** An admin sees the whole menu; anyone else sees only the stations
      entry. */
  lemma VisibleByRole(role: string)
    ensures role == "admin" ==> Visible(Items, role) == Items
    ensures role != "admin" ==> Visible(Items, role) == [Items[2]]
  {
    var one, two := Items[..1], Items[..2];
    assert one[..0] == [] && two[..1] == one && Items[..2] == two;
    assert Shown(Items[0], role) == Shown(Items[1], role) == (role == "admin");
    var v1 := Visible(one, role);
    var v2 := Visible(two, role);
    assert v1 == if role == "admin" then [Items[0]] else [];
    assert v2 == if role == "admin" then [Items[0], Items[1]] else [];
  }

  /** The stations entry is shown to everyone, so the menu is always
      rendered and the empty branch is never taken. */
  lemma AlwaysRendered(role: string)
    ensures Rendered(role).Some?
    ensures Items[2] in Rendered(role).value
  {
    VisibleByRole(role);
  }

  /** The ids a click on an entry passes to `onPageChange`: none for a
      coming-soon entry. */
  function ClickedPages(item: Item): (ids: seq<string>)
    ensures |ids| <= 1
    ensures ids == [] <==> item.comingSoon
  {
    if item.comingSoon then [] else [item.id]
  }

  /** Entries that are not coming soon are exactly the admin's; so a plain
      user can open no page from the menu. */
  lemma UserMenuOpensNothing(role: string, item: Item)
    requires role != "admin" && item in Visible(Items, role)
    ensures ClickedPages(item) == []
  {
    VisibleByRole(role);
  }

  /** The side menu's state: whether it is open, and the page ids it has
      passed to `onPageChange`, oldest first. */
  class SidebarView {
    var isOpen: bool
    var pageChanges: seq<string>

    constructor()
      ensures !isOpen && pageChanges == []
    {
      isOpen := false;
      pageChanges := [];
    }

    /** `toggleSidebar`. */
    method Toggle()
      modifies this
      ensures isOpen == !old(isOpen) && pageChanges == old(pageChanges)
    {
      isOpen := !isOpen;
    }

    /** `closeSidebar`: the close button and the overlay. */
    method Close()
      modifies this
      ensures !isOpen && pageChanges == old(pageChanges)
    {
      isOpen := false;
    }

    /** `handlePageChange`: forwards the id and closes the menu. */
    method HandlePageChange(pageId: string)
      modifies this
      ensures pageChanges == old(pageChanges) + [pageId]
      ensures !isOpen
    {
      pageChanges := pageChanges + [pageId];
      isOpen := false;
    }

    /** A click on an entry: a coming-soon entry does nothing, any other
        changes the page. */
    method ClickItem(item: Item)
      modifies this
      ensures pageChanges == old(pageChanges) + ClickedPages(item)
      ensures isOpen == (old(isOpen) && item.comingSoon)
    {
      if !item.comingSoon {
        HandlePageChange(item.id);
      }
    }
  }
}
