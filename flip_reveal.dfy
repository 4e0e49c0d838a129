/**
 * The animated reveal grid (src/components/gsap/flip-reveal.tsx): a registry
 * from keys to the page elements of the items, and the effect that gives each
 * registered element the "shown" or the "hidden" class when the visible keys
 * change.
 *
 * The animation itself is left out. `JSON.stringify(a) === JSON.stringify(b)`
 * on two lists of strings holds exactly when the lists are equal, and is
 * modelled as sequence equality.
 */
module FlipReveal {
  import opened Wrappers

  const DefaultShowClass := "block"
  const DefaultHideClass := "hidden"

  /** A key is visible when it is listed, or when the sentinel "all" is. */
  predicate IsVisible(keys: seq<string>, key: string)
  {
    key in keys || "all" in keys
  }

  /** `classList.remove(showClass, hideClass)` followed by `classList.add(...)` for the element's visibility. */
  function ApplyVisibility(classList: set<string>, visible: bool, showClass: string, hideClass: string): (r: set<string>)
    ensures visible ==> showClass in r
    ensures !visible ==> hideClass in r
    ensures forall c | c != showClass && c != hideClass :: c in r <==> c in classList
  {
    (classList - {showClass, hideClass}) + {if visible then showClass else hideClass}
  }

  /** With distinct class names, an element carries exactly one of them, and the shown one exactly when it is visible. */
  lemma ExactlyOneClass(classList: set<string>, visible: bool, showClass: string, hideClass: string)
    requires showClass != hideClass
    ensures var r := ApplyVisibility(classList, visible, showClass, hideClass);
      && (showClass in r <==> visible)
      && (hideClass in r <==> !visible)
  {
  }

  /** Applying the same visibility twice changes nothing more. */
  lemma ApplyVisibilityIdempotent(classList: set<string>, visible: bool, showClass: string, hideClass: string)
    ensures var once := ApplyVisibility(classList, visible, showClass, hideClass);
      ApplyVisibility(once, visible, showClass, hideClass) == once
  {
  }

  /**
   * The class an item renders with: "flex" when it is inside a grid whose
   * visible keys show it, "hidden" otherwise (also outside any grid).
   */
  function ItemClass(visibleKeys: Option<seq<string>>, flipKey: string): (r: string)
    ensures r == "flex" <==> visibleKeys.Some? && IsVisible(visibleKeys.value, flipKey)
  {
    if visibleKeys.Some? && IsVisible(visibleKeys.value, flipKey) then "flex" else "hidden"
  }

  /** A page element, reduced to its class list. */
  class Element {
    var classList: set<string>

    constructor (classList: set<string>)
      ensures this.classList == classList
    {
      this.classList := classList;
    }
  }

  /** `FlipReveal`'s refs: the registered elements, the keys last applied and the first-render flag. */
  class FlipRevealGrid {
    var items: map<string, Element>
    var prevKeys: seq<string>
    var isFirstRender: bool
    const showClass: string
    const hideClass: string

    /** Each item registers its own element, so no element is registered under two keys. */
    predicate Valid()
      reads this
    {
      forall k1, k2 | k1 in items && k2 in items && k1 != k2 :: items[k1] != items[k2]
    }

    constructor (keys: seq<string>, showClass: Option<string>, hideClass: Option<string>)
      ensures items == map[] && prevKeys == keys && isFirstRender
      ensures this.showClass == showClass.GetOr(DefaultShowClass)
      ensures this.hideClass == hideClass.GetOr(DefaultHideClass)
      ensures Valid()
    {
      items := map[];
      prevKeys := keys;
      isFirstRender := true;
      this.showClass := showClass.GetOr(DefaultShowClass);
      this.hideClass := hideClass.GetOr(DefaultHideClass);
    }

    /** `registerItem`: an element is recorded under its key; a missing element removes the key. */
    method RegisterItem(key: string, element: Element?)
      requires Valid()
      requires element != null ==> forall k | k in items && k != key :: items[k] != element
      modifies this
      ensures items == if element != null then old(items)[key := element] else old(items) - {key}
      ensures prevKeys == old(prevKeys) && isFirstRender == old(isFirstRender)
      ensures forall k | k != key :: (k in items <==> k in old(items)) && (k in items ==> items[k] == old(items)[k])
      ensures Valid()
    {
      if element != null {
        items := items[key := element];
      } else {
        items := items - {key};
      }
    }

    /** Every registered element gets the class for its visibility under `keys`; no other element changes. */
    method ApplyAll(keys: seq<string>)
      requires Valid()
      modifies items.Values
      ensures forall k | k in items :: items[k].classList == ApplyVisibility(old(items[k].classList), IsVisible(keys, k), showClass, hideClass)
    {
      var todo := items.Keys;
      while todo != {}
        invariant todo <= items.Keys
        invariant forall k | k in items && k !in todo ::
          items[k].classList == ApplyVisibility(old(items[k].classList), IsVisible(keys, k), showClass, hideClass)
        invariant forall k | k in todo :: items[k].classList == old(items[k].classList)
        decreases todo
      {
        var key :| key in todo;
        var element := items[key];
        element.classList := ApplyVisibility(element.classList, IsVisible(keys, key), showClass, hideClass);
        todo := todo - {key};
      }
    }

    /**
     * The effect run after each render. The first run applies the classes and
     * records the keys; a later run with the same keys, or before the container
     * is mounted, does nothing; any other run applies the classes and records
     * the keys.
     */
    method RunEffect(keys: seq<string>, containerMounted: bool) returns (applied: bool)
      requires Valid()
      modifies this, items.Values
      ensures items == old(items)
      ensures applied <==> old(isFirstRender) || (old(prevKeys) != keys && containerMounted)
      ensures !isFirstRender
      ensures prevKeys == if applied then keys else old(prevKeys)
      ensures applied ==> forall k | k in items ::
        items[k].classList == ApplyVisibility(old(items[k].classList), IsVisible(keys, k), showClass, hideClass)
      ensures !applied ==> forall k | k in items :: items[k].classList == old(items[k].classList)
      ensures applied && showClass != hideClass ==> forall k | k in items ::
        && (showClass in items[k].classList <==> IsVisible(keys, k))
        && (hideClass in items[k].classList <==> !IsVisible(keys, k))
      ensures Valid()
    {
      if isFirstRender {
        isFirstRender := false;
        ApplyAll(keys);
        prevKeys := keys;
        return true;
      }
      if prevKeys == keys {
        return false;
      }
      if !containerMounted {
        return false;
      }
      ApplyAll(keys);
      prevKeys := keys;
      applied := true;
    }
  }

  /** With the sentinel, every key is visible; without it, exactly the listed ones. */
  lemma VisibilityOfKeys(keys: seq<string>, key: string)
    ensures "all" in keys ==> IsVisible(keys, key)
    ensures "all" !in keys ==> (IsVisible(keys, key) <==> key in keys)
  {
  }
}
