/** The sidebar (components/layout/Sidebar.tsx): its menu entries, which one
    is highlighted, the list of expanded bottom entries and what a click on
    a bottom entry does. */
module Sidebar {
  import opened Types
  import opened Lists

  datatype MenuItem = MenuItem(id: string, heading: string, hasDropdown: bool)

  const MenuItems: seq<MenuItem> := [
    MenuItem("my-task", "My Task", false),
    MenuItem("my-inbox", "My Inbox", false),
    MenuItem("insight360", "Insight360", false),
    MenuItem("dashboard", "Dashboard", false),
    MenuItem("payment", "Payment", false),
    MenuItem("contract", "Contract", false),
    MenuItem("opportunity", "Opportunity", false),
    MenuItem("customers", "Customers", false),
    MenuItem("health", "Health", false),
    MenuItem("nps", "NPS", false),
    MenuItem("tickets", "Tickets", false)
  ]

  const BottomItems: seq<MenuItem> := [
    MenuItem("views", "Views", true),
    MenuItem("help", "Help", false)
  ]

  /** An entry is highlighted exactly when it is the page's active item. */
  predicate IsActive(activeItem: string, item: MenuItem) {
    activeItem == item.id
  }

  /** The entry ids are pairwise distinct, so at most one entry is
      highlighted at a time. */
  lemma AtMostOneActive(activeItem: string)
    ensures forall i, j :: 0 <= i < j < |MenuItems + BottomItems| ==>
      (MenuItems + BottomItems)[i].id != (MenuItems + BottomItems)[j].id
    ensures forall i, j :: 0 <= i < j < |MenuItems + BottomItems| ==>
      !(IsActive(activeItem, (MenuItems + BottomItems)[i]) && IsActive(activeItem, (MenuItems + BottomItems)[j]))
  {
  }

  /** `toggleExpanded`'s new list: a listed id is removed, every occurrence;
      an unlisted one is appended. */
  function Toggled(items: seq<string>, id: string): (r: seq<string>)
    ensures id in r <==> id !in items
  {
    if id in items then RemoveAll(items, id) else items + [id]
  }

  /** The entries other than the toggled id are untouched: same values,
      same multiplicity, same relative order. */
  lemma ToggleKeepsOthers(items: seq<string>, id: string)
    ensures RemoveAll(Toggled(items, id), id) == RemoveAll(items, id)
  {
    if id in items {
      RemoveAllAbsent(RemoveAll(items, id), id);
    } else {
      RemoveAllAppend(items, [id], id);
      assert RemoveAll([id], id) == [];
    }
  }

  /** An unlisted id is appended at the end. */
  lemma ToggleAppendsAtEnd(items: seq<string>, id: string)
    requires id !in items
    ensures Toggled(items, id) == items + [id]
  {
  }

  /** Expanding and then collapsing an entry restores the list. */
  lemma ToggleTwice(items: seq<string>, id: string)
    requires id !in items
    ensures Toggled(Toggled(items, id), id) == items
  {
    ToggleKeepsOthers(items, id);
    RemoveAllAbsent(items, id);
  }

  /** The sidebar's own state. */
  class SidebarState {
    var expandedItems: seq<string>

    constructor ()
      ensures expandedItems == []
    {
      expandedItems := [];
    }

    /** `toggleExpanded`. */
    method ToggleExpanded(id: string)
      modifies this
      ensures expandedItems == Toggled(old(expandedItems), id)
    {
      if id in expandedItems {
        expandedItems := RemoveAll(expandedItems, id);
      } else {
        expandedItems := expandedItems + [id];
      }
    }

    /** A click on a bottom entry: an entry with a dropdown expands or
        collapses and is not reported to the page; any other entry is
        reported through `onItemClick` and the expansions stay. */
    method BottomClick(item: MenuItem) returns (reported: Option<string>)
      modifies this
      ensures item.hasDropdown ==> reported == None && expandedItems == Toggled(old(expandedItems), item.id)
      ensures !item.hasDropdown ==> reported == Some(item.id) && expandedItems == old(expandedItems)
    {
      if item.hasDropdown {
        ToggleExpanded(item.id);
        reported := None;
      } else {
        reported := Some(item.id);
      }
    }
  }

  /** "Views" only expands; "Help" goes to the page. */
  lemma BottomItemKinds()
    ensures BottomItems[0].hasDropdown && !BottomItems[1].hasDropdown
    ensures forall i :: 0 <= i < |MenuItems| ==> !MenuItems[i].hasDropdown
  {
  }
}
