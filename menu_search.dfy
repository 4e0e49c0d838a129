/**
 * The menu search page (src/components/menu/menu-search.tsx): the flattened
 * item list, the text and category filters, the keys handed to the reveal
 * grid, and the page's state with its category toggle and clear-all.
 *
 * The page's list of categories is a parameter of every function here.
 */
module MenuSearch {
  import opened Text
  import opened Seqs
  import opened MenuData
  import opened MenuSearchGrid
  import FlipReveal

  /** Each category's item list, in category order. */
  function ItemLists(categories: seq<MenuCategory>): seq<seq<MenuItem>>
  {
    seq(|categories|, k requires 0 <= k < |categories| => categories[k].items)
  }

  /** `getAllItems`: every category's items, in category order (`categories.flatMap(c => c.items)`). */
  function AllItems(categories: seq<MenuCategory>): seq<MenuItem>
  {
    Flatten(ItemLists(categories))
  }

  /** A single category flattens to its own items. */
  lemma AllItemsOne(c: MenuCategory)
    ensures AllItems([c]) == c.items
  {
    assert ItemLists([c]) == [c.items];
    assert Flatten([c.items]) == c.items + Flatten([]);
  }

  /** The items of two category lists side by side are the first list's items, then the second's. */
  lemma AllItemsAppend(categories: seq<MenuCategory>, more: seq<MenuCategory>)
    ensures AllItems(categories + more) == AllItems(categories) + AllItems(more)
  {
    assert ItemLists(categories + more) == ItemLists(categories) + ItemLists(more);
    FlattenAppend(ItemLists(categories), ItemLists(more));
  }

  /** An item is listed exactly when some category holds it. */
  lemma AllItemsMembership(categories: seq<MenuCategory>, item: MenuItem)
    ensures item in AllItems(categories) <==> exists k | 0 <= k < |categories| :: item in categories[k].items
  {
    FlattenMembership(ItemLists(categories), item);
    assert forall k | 0 <= k < |categories| :: ItemLists(categories)[k] == categories[k].items;
  }

  // ---------------------------------------------------------------------------
  // The filters
  // ---------------------------------------------------------------------------

  /** The text filter: an empty query, or the lower-cased name contains the lower-cased query. */
  predicate MatchesSearch(query: string, item: MenuItem)
  {
    |query| == 0 || Contains(ToLower(item.name), ToLower(query))
  }

  /** Some item of `category` has the same id as `item`. */
  predicate HoldsId(category: MenuCategory, item: MenuItem)
  {
    exists j | 0 <= j < |category.items| :: category.items[j].id == item.id
  }

  /** The category filter: nothing selected, or a selected category holds an item with this id. */
  predicate MatchesCategory(categories: seq<MenuCategory>, selected: seq<string>, item: MenuItem)
  {
    |selected| == 0 || exists k | 0 <= k < |categories| :: categories[k].id in selected && HoldsId(categories[k], item)
  }

  function Passes(categories: seq<MenuCategory>, query: string, selected: seq<string>): MenuItem -> bool
  {
    (item: MenuItem) => MatchesSearch(query, item) && MatchesCategory(categories, selected, item)
  }

  /** `filteredItems` */
  function Filtered(categories: seq<MenuCategory>, query: string, selected: seq<string>): (r: seq<MenuItem>)
    ensures |r| <= |AllItems(categories)|
  {
    Filter(AllItems(categories), Passes(categories, query, selected))
  }

  /** The filtered list keeps the order of the full list. */
  lemma FilteredKeepsOrder(categories: seq<MenuCategory>, query: string, selected: seq<string>)
    ensures Subsequence(Filtered(categories, query, selected), AllItems(categories))
  {
    FilterIsSubsequence(AllItems(categories), Passes(categories, query, selected));
  }

  /** An item is in the filtered list exactly when it is listed and passes both filters. */
  lemma FilteredMembership(categories: seq<MenuCategory>, query: string, selected: seq<string>, item: MenuItem)
    ensures item in Filtered(categories, query, selected) <==>
      && (exists k | 0 <= k < |categories| :: item in categories[k].items)
      && (|query| == 0 || Contains(ToLower(item.name), ToLower(query)))
      && (|selected| == 0 || exists k | 0 <= k < |categories| :: categories[k].id in selected && HoldsId(categories[k], item))
  {
    FilterMembership(AllItems(categories), Passes(categories, query, selected), item);
    AllItemsMembership(categories, item);
  }

  /** With no query and no selection nothing is filtered out. */
  lemma NoFilterKeepsAll(categories: seq<MenuCategory>)
    ensures Filtered(categories, "", []) == AllItems(categories)
  {
    FilterAll(AllItems(categories), Passes(categories, "", []));
  }

  /** Typing more of the query can only narrow the results. */
  lemma LongerQueryNarrows(categories: seq<MenuCategory>, query: string, more: string, selected: seq<string>, item: MenuItem)
    requires item in Filtered(categories, query + more, selected)
    ensures item in Filtered(categories, query, selected)
  {
    FilteredMembership(categories, query + more, selected, item);
    FilteredMembership(categories, query, selected, item);
    if |query| > 0 {
      ToLowerAppend(query, more);
      ContainsPrefix(ToLower(item.name), ToLower(query), ToLower(more));
    }
  }

  /** Once at least one category is selected, selecting another never removes a result. */
  lemma MoreCategoriesWiden(categories: seq<MenuCategory>, query: string, selected: seq<string>, id: string, item: MenuItem)
    requires |selected| > 0
    requires item in Filtered(categories, query, selected)
    ensures item in Filtered(categories, query, selected + [id])
  {
    FilteredMembership(categories, query, selected, item);
    FilteredMembership(categories, query, selected + [id], item);
    var k :| 0 <= k < |categories| && categories[k].id in selected && HoldsId(categories[k], item);
    assert categories[k].id in selected + [id];
  }

  // ---------------------------------------------------------------------------
  // The keys handed to the grid
  // ---------------------------------------------------------------------------

  /** `visibleKeys`: the sentinel "all" when nothing is searched or selected, else the filtered ids. */
  function VisibleKeys(categories: seq<MenuCategory>, query: string, selected: seq<string>): (r: seq<string>)
  {
    if query == "" && |selected| == 0 then ["all"] else Ids(Filtered(categories, query, selected))
  }

  /** No listed item is called "all". */
  predicate NoAllId(categories: seq<MenuCategory>)
  {
    forall k, i | 0 <= k < |categories| && 0 <= i < |categories[k].items| :: categories[k].items[i].id != "all"
  }

  /**
   * When no item is called "all", the keys are the sentinel exactly when the
   * query is empty and nothing is selected; otherwise a key is visible exactly
   * when a filtered item has it.
   */
  lemma VisibleKeysIsAllIff(categories: seq<MenuCategory>, query: string, selected: seq<string>)
    requires NoAllId(categories)
    ensures VisibleKeys(categories, query, selected) == ["all"] <==> query == "" && |selected| == 0
  {
    if !(query == "" && |selected| == 0) {
      var f := Filtered(categories, query, selected);
      if |f| == 1 {
        assert f[0] in f;
        FilteredIdIsNotAll(categories, query, selected, f[0]);
        assert Ids(f)[0] == f[0].id;
      }
    }
  }

  lemma FilteredIdIsNotAll(categories: seq<MenuCategory>, query: string, selected: seq<string>, item: MenuItem)
    requires NoAllId(categories)
    requires item in Filtered(categories, query, selected)
    ensures item.id != "all"
  {
    FilteredMembership(categories, query, selected, item);
    var k :| 0 <= k < |categories| && item in categories[k].items;
    var i :| 0 <= i < |categories[k].items| && categories[k].items[i] == item;
  }

  lemma VisibleKeyIff(categories: seq<MenuCategory>, query: string, selected: seq<string>, key: string)
    requires !(query == "" && |selected| == 0)
    ensures key in VisibleKeys(categories, query, selected) <==>
      exists item | item in Filtered(categories, query, selected) :: item.id == key
  {
    var f := Filtered(categories, query, selected);
    if key in Ids(f) {
      var i :| 0 <= i < |Ids(f)| && Ids(f)[i] == key;
      assert f[i] in f;
    }
    if exists item | item in f :: item.id == key {
      var item :| item in f && item.id == key;
      var i :| 0 <= i < |f| && f[i] == item;
      assert Ids(f)[i] == key;
    }
  }

  /**
   * The grid shows "No items found" exactly when something is searched or
   * selected and no item passes the filters.
   */
  lemma NoItemsFoundIff(categories: seq<MenuCategory>, query: string, selected: seq<string>)
    ensures ShowsNoItems(VisibleKeys(categories, query, selected)) <==>
      !(query == "" && |selected| == 0) && Filtered(categories, query, selected) == []
  {
    ShowsNoItemsIffEmpty(VisibleKeys(categories, query, selected));
  }

  /**
   * What the reveal grid shows: every item when nothing is searched or
   * selected, otherwise exactly the items whose id a filtered item has.
   */
  lemma RevealedIff(categories: seq<MenuCategory>, query: string, selected: seq<string>, id: string)
    requires NoAllId(categories)
    ensures FlipReveal.IsVisible(VisibleKeys(categories, query, selected), id) <==>
      (query == "" && |selected| == 0) || exists item | item in Filtered(categories, query, selected) :: item.id == id
  {
    if !(query == "" && |selected| == 0) {
      VisibleKeyIff(categories, query, selected, id);
      VisibleKeyIff(categories, query, selected, "all");
      forall item | item in Filtered(categories, query, selected) ensures item.id != "all" {
        FilteredIdIsNotAll(categories, query, selected, item);
      }
    }
  }

  // ---------------------------------------------------------------------------
  // Toggling a category
  // ---------------------------------------------------------------------------

  function Other(id: string): string -> bool
  {
    (x: string) => x != id
  }

  /** `handleCategoryToggle`'s update: drop every copy of a selected id, else append it. */
  function Toggle(selected: seq<string>, id: string): (r: seq<string>)
  {
    if id in selected then Filter(selected, Other(id)) else selected + [id]
  }

  /** After the toggle, `id` is selected exactly when it was not before; no other id changes. */
  lemma ToggleMembership(selected: seq<string>, id: string, x: string)
    ensures x in Toggle(selected, id) <==> if x == id then id !in selected else x in selected
  {
    FilterMembership(selected, Other(id), x);
  }

  /** Toggling an unselected category twice restores the selection exactly. */
  lemma ToggleTwiceUnselected(selected: seq<string>, id: string)
    requires id !in selected
    ensures Toggle(Toggle(selected, id), id) == selected
  {
    assert id in selected + [id];
    FilterAppend(selected, [id], Other(id));
    FilterAll(selected, Other(id));
    assert Filter([id], Other(id)) == [];
  }

  /** Toggling a selected category twice restores which categories are selected (the id moves to the end). */
  lemma ToggleTwiceSelected(selected: seq<string>, id: string, x: string)
    requires id in selected
    ensures x in Toggle(Toggle(selected, id), id) <==> x in selected
  {
    ToggleMembership(selected, id, x);
    ToggleMembership(Toggle(selected, id), id, x);
    ToggleMembership(selected, id, id);
  }

  lemma ToggleTwiceMovesToEnd()
    ensures Toggle(Toggle(["pizza", "burgers"], "pizza"), "pizza") == ["burgers", "pizza"]
  {
    var s := ["pizza", "burgers"];
    assert "pizza" in s;
    assert Filter(s, Other("pizza")) == ["burgers"] by {
      assert s[1..] == ["burgers"];
      assert Filter(["burgers"], Other("pizza")) == ["burgers"] by {
        assert ["burgers"][1..] == [];
      }
    }
    assert "pizza" !in ["burgers"];
  }

  /** A selection without repeats stays without repeats. */
  lemma ToggleKeepsDistinct(selected: seq<string>, id: string)
    requires Distinct(selected)
    ensures Distinct(Toggle(selected, id))
  {
    if id in selected {
      FilterDistinct(selected, Other(id));
    } else {
      var r := selected + [id];
      forall i, j | 0 <= i < j < |r| ensures r[i] != r[j] {
        if j == |selected| {
          assert r[i] == selected[i];
        } else {
          assert r[i] == selected[i] && r[j] == selected[j];
        }
      }
    }
  }

  // ---------------------------------------------------------------------------
  // The page state
  // ---------------------------------------------------------------------------

  /** The page's three pieces of state. */
  class MenuSearchPage {
    var searchQuery: string
    var selectedCategories: seq<string>
    var sortOption: SortOption

    /** Selections are built by toggles, so no category is selected twice. */
    predicate Valid()
      reads this
    {
      Distinct(selectedCategories)
    }

    constructor ()
      ensures searchQuery == "" && selectedCategories == [] && sortOption == Default
      ensures Valid()
    {
      searchQuery, selectedCategories, sortOption := "", [], Default;
    }

    /** `setSearchQuery`, as the sidebar's search box calls it. */
    method SetSearchQuery(query: string)
      modifies this
      ensures searchQuery == query
      ensures selectedCategories == old(selectedCategories) && sortOption == old(sortOption)
    {
      searchQuery := query;
    }

    /** `setSortOption`, as the grid's sort buttons call it. */
    method SetSortOption(option: SortOption)
      modifies this
      ensures sortOption == option
      ensures searchQuery == old(searchQuery) && selectedCategories == old(selectedCategories)
    {
      sortOption := option;
    }

    method HandleCategoryToggle(categoryId: string)
      requires Valid()
      modifies this
      ensures selectedCategories == Toggle(old(selectedCategories), categoryId)
      ensures searchQuery == old(searchQuery) && sortOption == old(sortOption)
      ensures Valid()
    {
      ToggleKeepsDistinct(selectedCategories, categoryId);
      selectedCategories := Toggle(selectedCategories, categoryId);
    }

    /** Clear-all: every filter and the sort are back to their initial values, so every item is shown again. */
    method HandleClearAll(categories: seq<MenuCategory>)
      modifies this
      ensures searchQuery == "" && selectedCategories == [] && sortOption == Default
      ensures VisibleKeys(categories, searchQuery, selectedCategories) == ["all"]
      ensures Filtered(categories, searchQuery, selectedCategories) == AllItems(categories)
      ensures Valid()
    {
      searchQuery := "";
      selectedCategories := [];
      sortOption := Default;
      NoFilterKeepsAll(categories);
    }
  }
}
