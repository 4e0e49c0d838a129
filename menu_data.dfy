/**
 * The item and category records the menu search page works on
 * (src/components/menu/menu-data.ts). The page's own list of categories is
 * static content; the search functions take the categories as a parameter.
 */
module MenuData {
  /** A searchable item; its price is display text. Absent tags are an empty sequence. */
  datatype MenuItem = MenuItem(id: string, name: string, price: string, image: string, tags: seq<string>)

  datatype MenuCategory = MenuCategory(id: string, displayLabel: string, emoji: string, items: seq<MenuItem>)

  /** The ids of `items`, in order (`items.map(item => item.id)`). */
  function Ids(items: seq<MenuItem>): (r: seq<string>)
    ensures |r| == |items| && forall i | 0 <= i < |r| :: r[i] == items[i].id
  {
    if items == [] then [] else [items[0].id] + Ids(items[1..])
  }
}
