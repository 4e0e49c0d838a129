/**
 * The product dialog (src/components/menu/product-modal.tsx): the size chosen
 * when it opens, the extras the customer toggles, and the total shown in its
 * footer. Prices are integer cents.
 */
module ProductModal {
  import opened Wrappers
  import opened Seqs
  import opened Catalog

  // ---------------------------------------------------------------------------
  // Selection
  // ---------------------------------------------------------------------------

  /** The size picked when the dialog opens: the first one when the item is sold in sizes. */
  function InitialVariant(item: MenuItem): (r: Option<Variant>)
    ensures r.Some? <==> HasSizes(item)
    ensures r.Some? ==> r.value == item.variants[0]
  {
    if item.hasVariants && |item.variants| > 0 then Some(item.variants[0]) else None
  }

  /** A size button is highlighted when its size is the chosen one. */
  predicate IsVariantSelected(selected: Option<Variant>, variant: Variant)
  {
    selected.Some? && selected.value.size == variant.size
  }

  /** An extra's button is highlighted when a chosen extra has its id. */
  predicate IsAddOnSelected(chosen: seq<AddOn>, addOn: AddOn)
  {
    exists i | 0 <= i < |chosen| :: chosen[i].id == addOn.id
  }

  function OtherId(id: string): AddOn -> bool
  {
    (a: AddOn) => a.id != id
  }

  function HasId(id: string): AddOn -> bool
  {
    (a: AddOn) => a.id == id
  }

  /** `handleAddOnToggle`'s update: drop every extra with this id if one is chosen, else append this one. */
  function ToggleAddOn(chosen: seq<AddOn>, addOn: AddOn): (r: seq<AddOn>)
  {
    if IsAddOnSelected(chosen, addOn) then Filter(chosen, OtherId(addOn.id)) else chosen + [addOn]
  }

  /** No two chosen extras share an id. */
  predicate DistinctIds(chosen: seq<AddOn>)
  {
    forall i, j | 0 <= i < j < |chosen| :: chosen[i].id != chosen[j].id
  }

  // ---------------------------------------------------------------------------
  // Prices
  // ---------------------------------------------------------------------------

  /** `selectedVariant?.price ?? item.price` */
  function BasePrice(item: MenuItem, selected: Option<Variant>): (r: nat)
    ensures selected.None? ==> r == item.price
  {
    if selected.Some? then selected.value.price else item.price
  }

  /** The sum of the chosen extras' prices (the order of the additions does not change a sum of cents). */
  function AddOnsPrice(chosen: seq<AddOn>): (r: nat)
    ensures chosen == [] ==> r == 0
  {
    if chosen == [] then 0 else chosen[0].price + AddOnsPrice(chosen[1..])
  }

  function TotalPrice(item: MenuItem, selected: Option<Variant>, chosen: seq<AddOn>): (r: nat)
    ensures r >= BasePrice(item, selected)
  {
    BasePrice(item, selected) + AddOnsPrice(chosen)
  }

  lemma {:induction false} AddOnsPriceAppend(a: seq<AddOn>, b: seq<AddOn>)
    ensures AddOnsPrice(a + b) == AddOnsPrice(a) + AddOnsPrice(b)
  {
    if a == [] {
      assert a + b == b;
    } else {
      assert (a + b)[1..] == a[1..] + b;
      AddOnsPriceAppend(a[1..], b);
    }
  }

  /** The extras with an id and those without it share out the whole sum. */
  lemma {:induction false} AddOnsPriceSplit(chosen: seq<AddOn>, id: string)
    ensures AddOnsPrice(chosen) == AddOnsPrice(Filter(chosen, HasId(id))) + AddOnsPrice(Filter(chosen, OtherId(id)))
  {
    if chosen != [] {
      AddOnsPriceSplit(chosen[1..], id);
      var rest := chosen[1..];
      if chosen[0].id == id {
        assert Filter(chosen, HasId(id)) == [chosen[0]] + Filter(rest, HasId(id));
        assert Filter(chosen, OtherId(id)) == Filter(rest, OtherId(id));
      } else {
        assert Filter(chosen, HasId(id)) == Filter(rest, HasId(id));
        assert Filter(chosen, OtherId(id)) == [chosen[0]] + Filter(rest, OtherId(id));
      }
    }
  }

  /** When the dialog opens, a catalogue item's total is its listed price. */
  lemma InitialTotalIsListedPrice(menu: seq<MenuCategory>, k: nat, i: nat)
    requires StartingPrices(menu)
    requires k < |menu| && i < |menu[k].items|
    ensures TotalPrice(menu[k].items[i], InitialVariant(menu[k].items[i]), []) == menu[k].items[i].price
  {
  }

  /** Choosing a size sets the base to that size's price, whatever the item's own price. */
  lemma SelectedSizeSetsBase(item: MenuItem, variant: Variant, chosen: seq<AddOn>)
    ensures TotalPrice(item, Some(variant), chosen) == variant.price + AddOnsPrice(chosen)
  {
  }

  // ---------------------------------------------------------------------------
  // Properties of the toggle
  // ---------------------------------------------------------------------------

  /** After the toggle, the toggled extra is chosen exactly when it was not; every other extra keeps its state. */
  lemma ToggleSelection(chosen: seq<AddOn>, addOn: AddOn, other: AddOn)
    ensures IsAddOnSelected(ToggleAddOn(chosen, addOn), other) <==>
      if other.id == addOn.id then !IsAddOnSelected(chosen, addOn) else IsAddOnSelected(chosen, other)
  {
    var r := ToggleAddOn(chosen, addOn);
    if IsAddOnSelected(chosen, addOn) {
      if IsAddOnSelected(r, other) {
        var i :| 0 <= i < |r| && r[i].id == other.id;
        assert r[i] in r;
        FilterMembership(chosen, OtherId(addOn.id), r[i]);
        var j :| 0 <= j < |chosen| && chosen[j] == r[i];
      }
      if other.id != addOn.id && IsAddOnSelected(chosen, other) {
        var j :| 0 <= j < |chosen| && chosen[j].id == other.id;
        FilterMembership(chosen, OtherId(addOn.id), chosen[j]);
        var i :| 0 <= i < |r| && r[i] == chosen[j];
      }
    } else {
      assert r[|chosen|] == addOn;
      if IsAddOnSelected(r, other) && other.id != addOn.id {
        var i :| 0 <= i < |r| && r[i].id == other.id;
        assert i < |chosen| && chosen[i] == r[i];
      }
      if IsAddOnSelected(chosen, other) {
        var j :| 0 <= j < |chosen| && chosen[j].id == other.id;
        assert r[j] == chosen[j];
      }
    }
  }

  /** Toggling keeps every id chosen at most once. */
  lemma ToggleKeepsDistinctIds(chosen: seq<AddOn>, addOn: AddOn)
    requires DistinctIds(chosen)
    ensures DistinctIds(ToggleAddOn(chosen, addOn))
  {
    if IsAddOnSelected(chosen, addOn) {
      FilterKeepsDistinctIds(chosen, OtherId(addOn.id));
    } else {
      var r := chosen + [addOn];
      forall i, j | 0 <= i < j < |r| ensures r[i].id != r[j].id {
        assert r[i] == chosen[i];
        if j < |chosen| {
          assert r[j] == chosen[j];
        }
      }
    }
  }

  lemma {:induction false} FilterKeepsDistinctIds(chosen: seq<AddOn>, p: AddOn -> bool)
    requires DistinctIds(chosen)
    ensures DistinctIds(Filter(chosen, p))
  {
    if chosen != [] {
      var rest := chosen[1..];
      assert DistinctIds(rest) by {
        forall i, j | 0 <= i < j < |rest| ensures rest[i].id != rest[j].id {
          assert rest[i] == chosen[i + 1] && rest[j] == chosen[j + 1];
        }
      }
      FilterKeepsDistinctIds(rest, p);
      var f := Filter(rest, p);
      if p(chosen[0]) {
        var r := [chosen[0]] + f;
        forall i, j | 0 <= i < j < |r| ensures r[i].id != r[j].id {
          if i == 0 {
            assert r[j] == f[j - 1];
            assert r[j] in rest by { FilterMembership(rest, p, r[j]); }
            var m :| 0 <= m < |rest| && rest[m] == r[j];
            assert chosen[m + 1] == r[j];
          } else {
            assert r[i] == f[i - 1] && r[j] == f[j - 1];
          }
        }
      }
    }
  }

  /** Toggling an extra that is not chosen twice restores the selection exactly. */
  lemma ToggleTwiceUnchosen(chosen: seq<AddOn>, addOn: AddOn)
    requires !IsAddOnSelected(chosen, addOn)
    ensures ToggleAddOn(ToggleAddOn(chosen, addOn), addOn) == chosen
  {
    var r := chosen + [addOn];
    assert r[|chosen|] == addOn;
    FilterAppend(chosen, [addOn], OtherId(addOn.id));
    assert forall i | 0 <= i < |chosen| :: OtherId(addOn.id)(chosen[i]);
    FilterAll(chosen, OtherId(addOn.id));
    assert Filter([addOn], OtherId(addOn.id)) == [];
  }

  /** A chosen extra is the only one with its id. */
  lemma {:induction false} FilterUniqueId(chosen: seq<AddOn>, addOn: AddOn)
    requires DistinctIds(chosen) && addOn in chosen
    ensures Filter(chosen, HasId(addOn.id)) == [addOn]
  {
    var rest := chosen[1..];
    assert DistinctIds(rest) by {
      forall i, j | 0 <= i < j < |rest| ensures rest[i].id != rest[j].id {
        assert rest[i] == chosen[i + 1] && rest[j] == chosen[j + 1];
      }
    }
    if chosen[0] == addOn {
      forall i | 0 <= i < |rest| ensures !HasId(addOn.id)(rest[i]) {
        assert rest[i] == chosen[i + 1];
      }
      FilterEmpty(rest, HasId(addOn.id));
    } else {
      var j :| 0 <= j < |chosen| && chosen[j] == addOn;
      assert j > 0 && rest[j - 1] == addOn;
      assert chosen[0].id != addOn.id;
      FilterUniqueId(rest, addOn);
    }
  }

  /**
   * Toggling a chosen extra twice restores which extras are chosen and the
   * total (the extra moves to the end of the list).
   */
  lemma ToggleTwiceChosen(item: MenuItem, selected: Option<Variant>, chosen: seq<AddOn>, addOn: AddOn, other: AddOn)
    requires DistinctIds(chosen) && addOn in chosen
    ensures IsAddOnSelected(ToggleAddOn(ToggleAddOn(chosen, addOn), addOn), other) <==> IsAddOnSelected(chosen, other)
    ensures TotalPrice(item, selected, ToggleAddOn(ToggleAddOn(chosen, addOn), addOn)) == TotalPrice(item, selected, chosen)
  {
    var j :| 0 <= j < |chosen| && chosen[j] == addOn;
    assert IsAddOnSelected(chosen, addOn);
    var once := ToggleAddOn(chosen, addOn);
    ToggleSelection(chosen, addOn, addOn);
    ToggleSelection(chosen, addOn, other);
    ToggleSelection(once, addOn, other);
    assert ToggleAddOn(once, addOn) == once + [addOn];
    AddOnsPriceAppend(once, [addOn]);
    AddOnsPriceSplit(chosen, addOn.id);
    FilterUniqueId(chosen, addOn);
  }

  /** The extras on offer have distinct ids, so toggling catalogue extras never leaves two with one id. */
  lemma CatalogueAddOnsAreDistinct()
    ensures DistinctIds(AddOns)
  {
  }

  // ---------------------------------------------------------------------------
  // The dialog's state
  // ---------------------------------------------------------------------------

  /** `ProductModalContent`'s state for one item. */
  class ProductModalContent {
    const item: MenuItem
    var selectedVariant: Option<Variant>
    var selectedAddOns: seq<AddOn>

    predicate Valid()
      reads this
    {
      DistinctIds(selectedAddOns)
    }

    /** The total shown in the footer. */
    function Total(): (r: nat)
      reads this
      ensures r == BasePrice(item, selectedVariant) + AddOnsPrice(selectedAddOns)
    {
      TotalPrice(item, selectedVariant, selectedAddOns)
    }

    constructor (item: MenuItem)
      ensures this.item == item
      ensures selectedVariant == InitialVariant(item) && selectedAddOns == []
      ensures Valid()
    {
      this.item := item;
      selectedVariant := InitialVariant(item);
      selectedAddOns := [];
    }

    /** `setSelectedVariant`, called by a size button. */
    method SelectVariant(variant: Variant)
      modifies this
      ensures selectedVariant == Some(variant) && selectedAddOns == old(selectedAddOns)
      ensures IsVariantSelected(selectedVariant, variant)
      ensures Total() == variant.price + AddOnsPrice(selectedAddOns)
    {
      selectedVariant := Some(variant);
    }

    method HandleAddOnToggle(addOn: AddOn)
      requires Valid()
      modifies this
      ensures selectedAddOns == ToggleAddOn(old(selectedAddOns), addOn)
      ensures selectedVariant == old(selectedVariant)
      ensures IsAddOnSelected(selectedAddOns, addOn) <==> !IsAddOnSelected(old(selectedAddOns), addOn)
      ensures Valid()
    {
      ToggleSelection(selectedAddOns, addOn, addOn);
      ToggleKeepsDistinctIds(selectedAddOns, addOn);
      selectedAddOns := ToggleAddOn(selectedAddOns, addOn);
    }
  }
}
