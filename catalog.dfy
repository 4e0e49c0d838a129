/**
 * The menu catalogue (src/lib/data.ts): the categories with their items, the
 * sauces and extras, and the lookup and display helpers over them.
 *
 * Money is a whole number of cents. `toFixed(2)` and `toFixed(0)` are written
 * out on cents: two decimals are exact, and no decimals rounds half a dollar up,
 * as `toFixed` does for the exactly representable half-dollar amounts.
 */
module Catalog {
  import opened Wrappers
  import opened Text
  import opened Seqs

  datatype Size = Regular | Medium | Large | Ml350 | Ml500

  /** A size of an item and its price in cents. */
  datatype Variant = Variant(size: Size, displayLabel: string, price: nat)

  /**
   * A menu item. `price` is the price of an item without sizes and the starting
   * price of one with sizes; absent tags and variants are empty sequences.
   */
  datatype MenuItem = MenuItem(
    id: string,
    name: string,
    price: nat,
    tags: seq<string>,
    hasVariants: bool,
    variants: seq<Variant>,
    categoryId: string)

  datatype MenuCategory = MenuCategory(id: string, displayLabel: string, items: seq<MenuItem>)

  /** A sauce or extra, priced in cents. */
  datatype AddOn = AddOn(id: string, name: string, price: nat)

  // ---------------------------------------------------------------------------
  // The catalogue
  // ---------------------------------------------------------------------------

  // Chicken & Sides
  const FullChicken := MenuItem("full-chicken", "Full Chicken", 1200, ["Family Size"], false, [], "chicken-side")
  const FullChickenMeal := MenuItem("full-chicken-meal", "Full Chicken Meal", 1400, ["Family Size", "Meal"], false, [], "chicken-side")
  const QuarterChickenChips := MenuItem("quarter-chicken-chips", "1/4 Chicken & Chips", 400, ["Popular"], false, [], "chicken-side")
  const OnePieceChips := MenuItem("1-piece-chips", "1 Piece & Chips", 300, [], false, [], "chicken-side")
  const TwoPiecesChips := MenuItem("2-pieces-chips", "2 Pieces & Chips", 400, ["Popular"], false, [], "chicken-side")
  const ThreePiecesChips := MenuItem("3-pieces-chips", "3 Pieces & Chips", 600, [], false, [], "chicken-side")
  const ChickenPiece := MenuItem("chicken-piece", "Chicken Piece", 200, [], false, [], "chicken-side")
  const EightPieceBucket := MenuItem("8pc-bucket", "8 Piece Bucket", 1100, ["Family Size"], false, [], "chicken-side")
  const ColeslawSalad := MenuItem("coleslaw-salad", "Coleslaw Salad", 100, ["Healthy"], false, [], "chicken-side")
  const ItalianSalad := MenuItem("italian-salad", "Italian Salad", 200, ["Healthy"], false, [], "chicken-side")
  const ChickenSalad := MenuItem("chicken-salad", "Chicken Salad", 300, ["Healthy", "Popular"], false, [], "chicken-side")
  const LargeChips := MenuItem("large-chips", "Large Chips", 150, [], false, [], "chicken-side")
  const LoadedFries := MenuItem("loaded-fries", "Loaded Fries", 200, ["Popular"], false, [], "chicken-side")
  const ChickenAndSides := MenuCategory("chicken-side", "Chicken & Sides", [
    FullChicken, FullChickenMeal, QuarterChickenChips, OnePieceChips, TwoPiecesChips, ThreePiecesChips,
    ChickenPiece, EightPieceBucket, ColeslawSalad, ItalianSalad, ChickenSalad, LargeChips, LoadedFries
  ])

  // Burgers & Wraps
  const BeefBurger := MenuItem("beef-burger", "Beef Burger", 300, ["Popular"], false, [], "burgers")
  const ChickenBurger := MenuItem("chicken-burger", "Chicken Burger", 250, [], false, [], "burgers")
  const BeefBurgerChips := MenuItem("beef-burger-chips", "Beef Burger & Chips", 400, ["Meal"], false, [], "burgers")
  const ChickenBurgerChips := MenuItem("chicken-burger-chips", "Chicken Burger & Chips", 400, ["Meal"], false, [], "burgers")
  const DoubleBeefBurger := MenuItem("double-beef-burger", "Double Beef Burger", 400, ["Best Seller"], false, [], "burgers")
  const DoubleChickenBurger := MenuItem("double-chicken-burger", "Double Chicken Burger", 400, [], false, [], "burgers")
  const DoubleBeefCheeseBurger := MenuItem("double-beef-cheese-burger", "Double Beef Cheese Burger", 450, ["Best Seller"], false, [], "burgers")
  const DoubleChickenCheeseBurger := MenuItem("double-chicken-cheese-burger", "Double Chicken Cheese Burger", 450, [], false, [], "burgers")
  const PlainWrap := MenuItem("plain-wrap", "Plain Wrap", 300, [], false, [], "burgers")
  const SpicyWrap := MenuItem("spicy-wrap", "Spicy Wrap", 300, ["Spicy"], false, [], "burgers")
  const HawaiianWrap := MenuItem("hawaiian-wrap", "Hawaiian Wrap", 350, ["Popular"], false, [], "burgers")
  const BurgersAndWraps := MenuCategory("burgers", "Burgers & Wraps", [
    BeefBurger, ChickenBurger, BeefBurgerChips, ChickenBurgerChips, DoubleBeefBurger, DoubleChickenBurger,
    DoubleBeefCheeseBurger, DoubleChickenCheeseBurger, PlainWrap, SpicyWrap, HawaiianWrap
  ])

  // Pizza
  const BbqSteakPizza := MenuItem("bbq-steak-pizza", "BBQ Steak Pizza", 400, ["Popular"], true, [Variant(Regular, "R", 400), Variant(Medium, "M", 600), Variant(Large, "L", 900)], "pizza")
  const HawaiianPizza := MenuItem("hawaiian-pizza", "Hawaiian Pizza", 400, [], true, [Variant(Regular, "R", 400), Variant(Medium, "M", 600), Variant(Large, "L", 900)], "pizza")
  const ChickenMushroomPizza := MenuItem("chicken-mushroom-pizza", "Chicken Mushroom Pizza", 400, [], true, [Variant(Regular, "R", 400), Variant(Medium, "M", 600), Variant(Large, "L", 900)], "pizza")
  const TropicalChickenPizza := MenuItem("tropical-chicken-pizza", "Tropical Chicken Pizza", 400, [], true, [Variant(Regular, "R", 400), Variant(Medium, "M", 600), Variant(Large, "L", 900)], "pizza")
  const SweetChilliPizza := MenuItem("sweet-chilli-pizza", "Sweet Chilli Pizza", 400, ["Spicy"], true, [Variant(Regular, "R", 400), Variant(Medium, "M", 600), Variant(Large, "L", 900)], "pizza")
  const BoereworsPizza := MenuItem("boerewors-pizza", "Boerewors Pizza", 400, [], true, [Variant(Regular, "R", 400), Variant(Medium, "M", 600), Variant(Large, "L", 900)], "pizza")
  const PeriChickenPizza := MenuItem("peri-chicken-pizza", "Peri Chicken Pizza", 400, ["Spicy"], true, [Variant(Regular, "R", 400), Variant(Medium, "M", 600), Variant(Large, "L", 900)], "pizza")
  const MeatDeluxePizza := MenuItem("meat-deluxe-pizza", "Meat Deluxe Pizza", 600, ["Deluxe"], true, [Variant(Regular, "R", 600), Variant(Medium, "M", 850), Variant(Large, "L", 1100)], "pizza")
  const FoodiesSupremePizza := MenuItem("foodies-supreme-pizza", "Foodies Supreme Pizza", 800, ["House Special", "Popular"], true, [Variant(Regular, "R", 800), Variant(Medium, "M", 1100), Variant(Large, "L", 1400)], "pizza")
  const CheeseBurgerPizza := MenuItem("cheese-burger-pizza", "Cheese Burger Pizza", 400, [], true, [Variant(Regular, "R", 400), Variant(Medium, "M", 800), Variant(Large, "L", 1000)], "pizza")
  const ChickenHawaiianPizza := MenuItem("chicken-hawaiian-pizza", "Chicken Hawaiian Pizza", 500, [], true, [Variant(Regular, "R", 500), Variant(Medium, "M", 800), Variant(Large, "L", 1000)], "pizza")
  const MargheritaPizza := MenuItem("margherita-pizza", "Margherita Pizza", 400, ["Vegetarian"], true, [Variant(Regular, "R", 400), Variant(Medium, "M", 600), Variant(Large, "L", 900)], "pizza")
  const VeggieFeastPizza := MenuItem("veggie-feast-pizza", "Veggie Feast Pizza", 400, ["Vegetarian"], true, [Variant(Regular, "R", 400), Variant(Medium, "M", 600), Variant(Large, "L", 900)], "pizza")
  const Pizza := MenuCategory("pizza", "Pizza", [
    BbqSteakPizza, HawaiianPizza, ChickenMushroomPizza, TropicalChickenPizza, SweetChilliPizza,
    BoereworsPizza, PeriChickenPizza, MeatDeluxePizza, FoodiesSupremePizza, CheeseBurgerPizza,
    ChickenHawaiianPizza, MargheritaPizza, VeggieFeastPizza
  ])

  // Hot Beverages
  const Americano := MenuItem("americano", "Americano Coffee", 200, [], false, [], "hot-beverages")
  const Cappuccino := MenuItem("cappuccino", "Cappuccino", 300, ["Popular"], false, [], "hot-beverages")
  const Espresso := MenuItem("espresso", "Espresso", 100, [], false, [], "hot-beverages")
  const HotChocolate := MenuItem("hot-chocolate", "Hot Chocolate", 300, [], false, [], "hot-beverages")
  const Latte := MenuItem("latte", "Latte", 300, [], false, [], "hot-beverages")
  const Mocha := MenuItem("mocha", "Mocha", 400, ["Popular"], false, [], "hot-beverages")
  const HotBeverages := MenuCategory("hot-beverages", "Hot Beverages", [
    Americano, Cappuccino, Espresso, HotChocolate, Latte, Mocha
  ])

  // Mocktails
  const BlueberryBoba := MenuItem("blueberry-boba", "Blueberry Boba", 200, ["Popular"], true, [Variant(Ml350, "350ml", 200), Variant(Ml500, "500ml", 300)], "mocktails")
  const SunsetFusion := MenuItem("sunset-fusion", "Sunset Fusion", 200, [], true, [Variant(Ml350, "350ml", 200), Variant(Ml500, "500ml", 300)], "mocktails")
  const MangoTango := MenuItem("mango-tango", "Mango Tango", 200, [], true, [Variant(Ml350, "350ml", 200), Variant(Ml500, "500ml", 300)], "mocktails")
  const PassionFruitBoba := MenuItem("passion-fruit-boba", "Passion Fruit Boba", 200, [], true, [Variant(Ml350, "350ml", 200), Variant(Ml500, "500ml", 300)], "mocktails")
  const Mocktails := MenuCategory("mocktails", "Mocktails", [
    BlueberryBoba, SunsetFusion, MangoTango, PassionFruitBoba
  ])

  // Frezos
  const AeroPeppermint := MenuItem("aero-peppermint", "Aero Peppermint", 200, [], false, [], "frezos")
  const ChocDecadance := MenuItem("choc-decadance", "Choc Decadance", 200, [], false, [], "frezos")
  const IcedCoffee := MenuItem("iced-coffee", "Iced Coffee", 200, ["Popular"], false, [], "frezos")
  const IcedCappuccino := MenuItem("iced-cappuccino", "Iced Cappuccino", 200, [], false, [], "frezos")
  const MangoFrezo := MenuItem("mango-frezo", "Mango Frezo", 200, [], false, [], "frezos")
  const PassionFruitFrezo := MenuItem("passion-fruit-frezo", "Passion Fruit Frezo", 200, [], false, [], "frezos")
  const StrawberryFrezo := MenuItem("strawberry-frezo", "Strawberry Frezo", 200, ["Popular"], false, [], "frezos")
  const Frezos := MenuCategory("frezos", "Frezos", [
    AeroPeppermint, ChocDecadance, IcedCoffee, IcedCappuccino, MangoFrezo, PassionFruitFrezo, StrawberryFrezo
  ])

  /** `menuCategories`, in the order the menu lists them. */
  const MenuCategories: seq<MenuCategory> := [ChickenAndSides, BurgersAndWraps, Pizza, HotBeverages, Mocktails, Frezos]

  const AddOns: seq<AddOn> := [
    AddOn("sweet-chilli-sauce", "Sweet Chilli Sauce", 50),
    AddOn("mayo-sauce", "Mayo Sauce", 50),
    AddOn("bbq-sauce", "BBQ Sauce", 50),
    AddOn("chilli-sauce", "Chilli Sauce", 50),
    AddOn("extra-cheese", "Extra Cheese", 50),
    AddOn("extra-egg", "Extra Egg", 25)
  ]

  // ---------------------------------------------------------------------------
  // Lookups
  // ---------------------------------------------------------------------------

  /** Each category's item list, in category order. */
  function ItemLists(menu: seq<MenuCategory>): seq<seq<MenuItem>>
  {
    seq(|menu|, k requires 0 <= k < |menu| => menu[k].items)
  }

  /** `getAllMenuItems`: every category's items, in category order. */
  function AllItems(menu: seq<MenuCategory>): seq<MenuItem>
  {
    Flatten(ItemLists(menu))
  }

  /** All items are the first category's items followed by the rest's. */
  lemma AllItemsCons(menu: seq<MenuCategory>)
    requires menu != []
    ensures AllItems(menu) == menu[0].items + AllItems(menu[1..])
  {
    assert ItemLists(menu)[1..] == ItemLists(menu[1..]);
  }

  lemma AllItemsAppend(a: seq<MenuCategory>, b: seq<MenuCategory>)
    ensures AllItems(a + b) == AllItems(a) + AllItems(b)
  {
    assert ItemLists(a + b) == ItemLists(a) + ItemLists(b);
    FlattenAppend(ItemLists(a), ItemLists(b));
  }

  /** An item is listed exactly when some category contains it. */
  lemma AllItemsMembership(menu: seq<MenuCategory>, item: MenuItem)
    ensures item in AllItems(menu) <==> exists k | 0 <= k < |menu| :: item in menu[k].items
  {
    FlattenMembership(ItemLists(menu), item);
    assert forall k | 0 <= k < |menu| :: ItemLists(menu)[k] == menu[k].items;
  }

  /** `getMenuItemsByCategory`: the items of the first category with that id, or none. */
  function ItemsByCategory(menu: seq<MenuCategory>, categoryId: string): (r: seq<MenuItem>)
    ensures (forall k | 0 <= k < |menu| :: menu[k].id != categoryId) ==> r == []
    ensures forall k | 0 <= k < |menu| && menu[k].id == categoryId ::
      (forall j | 0 <= j < k :: menu[j].id != categoryId) ==> r == menu[k].items
  {
    if menu == [] then []
    else if menu[0].id == categoryId then menu[0].items
    else
      assert forall k | 1 <= k < |menu| :: menu[k] == menu[1..][k - 1];
      ItemsByCategory(menu[1..], categoryId)
  }

  /** `Array.prototype.find` by id: the first item with that id, or nothing. */
  function FindById(items: seq<MenuItem>, id: string): (r: Option<MenuItem>)
    ensures r.Some? ==> r.value in items && r.value.id == id
    ensures r.None? <==> forall k | 0 <= k < |items| :: items[k].id != id
    ensures forall k | 0 <= k < |items| && items[k].id == id ::
      (forall j | 0 <= j < k :: items[j].id != id) ==> r == Some(items[k])
  {
    if items == [] then None
    else if items[0].id == id then Some(items[0])
    else
      assert forall k | 1 <= k < |items| :: items[k] == items[1..][k - 1];
      FindById(items[1..], id)
  }

  /** `getMenuItemById`: the first item with that id in the flattened catalogue. */
  function ItemById(menu: seq<MenuCategory>, id: string): (r: Option<MenuItem>)
    ensures r.Some? ==> r.value in AllItems(menu) && r.value.id == id
    ensures r.None? <==> forall item | item in AllItems(menu) :: item.id != id
  {
    FindById(AllItems(menu), id)
  }

  const CarouselIds: seq<string> := ["chicken-side", "pizza", "burgers"]

  /** `getCarouselCategories`: the categories whose id is a carousel id, in catalogue order. */
  function CarouselCategories(menu: seq<MenuCategory>): (r: seq<MenuCategory>)
    ensures |r| <= |menu|
    ensures forall k | 0 <= k < |r| :: r[k].id in CarouselIds
  {
    Filter(menu, OnCarousel)
  }

  /** A category is shown in the carousel exactly when it is in the catalogue and its id is a carousel id. */
  lemma OnCarouselIff(menu: seq<MenuCategory>, c: MenuCategory)
    ensures c in CarouselCategories(menu) <==> c in menu && c.id in CarouselIds
  {
    FilterMembership(menu, OnCarousel, c);
  }

  predicate OnCarousel(c: MenuCategory)
  {
    c.id in CarouselIds
  }

  lemma CarouselKeepsOrder(menu: seq<MenuCategory>)
    ensures Subsequence(CarouselCategories(menu), menu)
  {
    FilterIsSubsequence(menu, OnCarousel);
  }

  // ---------------------------------------------------------------------------
  // Prices and labels
  // ---------------------------------------------------------------------------

  /** `toFixed(2)` of `cents / 100`. */
  function Fixed2(cents: nat): (r: string)
    ensures |r| >= 4 && r[|r| - 3] == '.'
    ensures forall i | 0 <= i < |r| && i != |r| - 3 :: '0' <= r[i] <= '9'
  {
    NatToString(cents / 100) + "." + [Digit(cents % 100 / 10), Digit(cents % 10)]
  }

  /** `toFixed(0)` of `cents / 100`: the nearest whole amount, half a dollar rounding up. */
  function Fixed0(cents: nat): (r: string)
  {
    NatToString((cents + 50) / 100)
  }

  /** Reads back a `toFixed(2)` string as cents. */
  function ParseFixed2(s: string): nat
    requires |s| >= 4 && s[|s| - 3] == '.'
    requires forall i | 0 <= i < |s| && i != |s| - 3 :: '0' <= s[i] <= '9'
  {
    ParseNat(s[..|s| - 3]) * 100 + ParseNat(s[|s| - 2..])
  }

  /** `toFixed(2)` loses nothing on whole cents. */
  lemma Fixed2RoundTrip(cents: nat)
    ensures ParseFixed2(Fixed2(cents)) == cents
  {
    var r := Fixed2(cents);
    assert r[..|r| - 3] == NatToString(cents / 100);
    ParseNatToString(cents / 100);
    var tail := r[|r| - 2..];
    assert tail == [Digit(cents % 100 / 10), Digit(cents % 10)];
    assert tail[..1] == [Digit(cents % 100 / 10)];
    assert tail[..1][..0] == [];
    assert Digit(cents % 100 / 10) as int - '0' as int == cents % 100 / 10;
    assert Digit(cents % 10) as int - '0' as int == cents % 10;
    assert ParseNat(tail[..1]) == cents % 100 / 10;
    assert ParseNat(tail) == ParseNat(tail[..1]) * 10 + cents % 10;
  }

  /** `toFixed(0)` yields the whole amount nearest the price; a half rounds up. */
  lemma Fixed0Nearest(cents: nat)
    ensures var whole := ParseNat(Fixed0(cents));
      whole * 100 - 50 <= cents < whole * 100 + 50
  {
    ParseNatToString((cents + 50) / 100);
  }

  /** `formatPrice`: a dollar sign and two decimals. */
  function FormatPrice(cents: nat): (r: string)
    ensures |r| >= 5 && r[0] == '$' && r[1..] == Fixed2(cents)
  {
    "$" + Fixed2(cents)
  }

  /** The prices a formatted price can be read back as: exactly the one formatted. */
  lemma FormatPriceRoundTrip(cents: nat)
    ensures ParseFixed2(FormatPrice(cents)[1..]) == cents
  {
    Fixed2RoundTrip(cents);
  }

  /** The item offers sizes: `hasVariants` is set and there is at least one variant. */
  predicate HasSizes(item: MenuItem)
  {
    item.hasVariants && item.variants != []
  }

  function Prices(variants: seq<Variant>): (r: seq<nat>)
    ensures |r| == |variants| && forall i | 0 <= i < |r| :: r[i] == variants[i].price
  {
    if variants == [] then [] else [variants[0].price] + Prices(variants[1..])
  }

  /** `Math.min(...prices)` */
  function MinPrice(prices: seq<nat>): (m: nat)
    requires prices != []
    ensures m in prices && forall i | 0 <= i < |prices| :: m <= prices[i]
  {
    if |prices| == 1 then prices[0]
    else
      var rest := MinPrice(prices[1..]);
      assert forall i | 1 <= i < |prices| :: prices[i] == prices[1..][i - 1];
      if prices[0] <= rest then prices[0] else rest
  }

  /** `Math.max(...prices)` */
  function MaxPrice(prices: seq<nat>): (m: nat)
    requires prices != []
    ensures m in prices && forall i | 0 <= i < |prices| :: prices[i] <= m
  {
    if |prices| == 1 then prices[0]
    else
      var rest := MaxPrice(prices[1..]);
      assert forall i | 1 <= i < |prices| :: prices[i] == prices[1..][i - 1];
      if prices[0] >= rest then prices[0] else rest
  }

  /**
   * `getDisplayPrice`: for an item with sizes, one price with two decimals when
   * all sizes cost the same, else "$low - $high" without decimals; otherwise the
   * item's own price with two decimals.
   */
  function DisplayPrice(item: MenuItem): (r: string)
    ensures |r| > 1 && r[0] == '$'
    ensures !HasSizes(item) ==> r == FormatPrice(item.price)
    ensures HasSizes(item) && (forall i | 0 <= i < |item.variants| :: item.variants[i].price == item.variants[0].price) ==>
              r == FormatPrice(item.variants[0].price)
  {
    if HasSizes(item) then
      var low := MinPrice(Prices(item.variants));
      var high := MaxPrice(Prices(item.variants));
      if low == high then FormatPrice(low) else "$" + Fixed0(low) + " - $" + Fixed0(high)
    else FormatPrice(item.price)
  }

  /** The lowest and highest size prices decide the range; the item's own price plays no part. */
  lemma DisplayPriceRange(item: MenuItem, low: nat, high: nat)
    requires HasSizes(item)
    requires exists i | 0 <= i < |item.variants| :: item.variants[i].price == low
    requires exists i | 0 <= i < |item.variants| :: item.variants[i].price == high
    requires forall i | 0 <= i < |item.variants| :: low <= item.variants[i].price <= high
    ensures DisplayPrice(item) == if low == high then FormatPrice(low) else "$" + Fixed0(low) + " - $" + Fixed0(high)
  {
    var ps := Prices(item.variants);
    var i :| 0 <= i < |item.variants| && item.variants[i].price == low;
    var j :| 0 <= j < |item.variants| && item.variants[j].price == high;
    assert ps[i] == low && ps[j] == high;
    assert forall k | 0 <= k < |ps| :: low <= ps[k] <= high;
    MinMaxOf(ps, low, high);
  }

  lemma MinMaxOf(ps: seq<nat>, low: nat, high: nat)
    requires low in ps && high in ps
    requires forall k | 0 <= k < |ps| :: low <= ps[k] <= high
    ensures MinPrice(ps) == low && MaxPrice(ps) == high
  {
    var lo := MinPrice(ps);
    var hi := MaxPrice(ps);
    var a :| 0 <= a < |ps| && ps[a] == lo;
    var b :| 0 <= b < |ps| && ps[b] == hi;
    var i :| 0 <= i < |ps| && ps[i] == low;
    var j :| 0 <= j < |ps| && ps[j] == high;
  }

  lemma DisplayPriceIgnoresBasePrice(item: MenuItem, price: nat)
    requires HasSizes(item)
    ensures DisplayPrice(item.(price := price)) == DisplayPrice(item)
  {
  }

  function Labels(variants: seq<Variant>): (r: seq<string>)
    ensures |r| == |variants| && forall i | 0 <= i < |r| :: r[i] == variants[i].displayLabel
  {
    if variants == [] then [] else [variants[0].displayLabel] + Labels(variants[1..])
  }

  /** `getVariantLabels`: the size labels in order, joined by " | ", or null for an item without sizes. */
  function VariantLabels(item: MenuItem): (r: Option<string>)
    ensures r.None? <==> !HasSizes(item)
    ensures r.Some? ==> r.value == Join(Labels(item.variants), " | ")
  {
    if !HasSizes(item) then None else Some(Join(Labels(item.variants), " | "))
  }

  /** The labels text holds every label and one " | " between neighbours. */
  lemma VariantLabelsLength(item: MenuItem)
    requires HasSizes(item)
    ensures |VariantLabels(item).value| == |Concat(Labels(item.variants))| + 3 * (|item.variants| - 1)
  {
    JoinLength(Labels(item.variants), " | ");
  }

  /** One more size adds " | " and its label at the end of the labels text. */
  lemma VariantLabelsSnoc(item: MenuItem, v: Variant)
    requires HasSizes(item)
    ensures VariantLabels(item.(variants := item.variants + [v])) == Some(VariantLabels(item).value + " | " + v.displayLabel)
  {
    var more := item.(variants := item.variants + [v]);
    assert Labels(more.variants) == Labels(item.variants) + [v.displayLabel];
    JoinSnoc(Labels(item.variants), v.displayLabel, " | ");
  }

  /** A single size is labelled by its own label, with no separator. */
  lemma VariantLabelsOne(item: MenuItem)
    requires item.hasVariants && |item.variants| == 1
    ensures VariantLabels(item) == Some(item.variants[0].displayLabel)
  {
    JoinOne(item.variants[0].displayLabel, " | ");
  }

  // ---------------------------------------------------------------------------
  // Catalogue invariants
  // ---------------------------------------------------------------------------

  /** Every item names the category that lists it. */
  predicate CategoryIdsMatch(menu: seq<MenuCategory>)
  {
    forall k, i | 0 <= k < |menu| && 0 <= i < |menu[k].items| :: menu[k].items[i].categoryId == menu[k].id
  }

  predicate DistinctCategoryIds(menu: seq<MenuCategory>)
  {
    forall j, k | 0 <= j < k < |menu| :: menu[j].id != menu[k].id
  }

  /** An item with sizes shows its first (smallest) size's price as its own. */
  predicate StartingPrices(menu: seq<MenuCategory>)
  {
    forall k, i | 0 <= k < |menu| && 0 <= i < |menu[k].items| ::
      HasSizes(menu[k].items[i]) ==> menu[k].items[i].price == menu[k].items[i].variants[0].price
  }

  function IsInCategory(categoryId: string): MenuItem -> bool
  {
    (item: MenuItem) => item.categoryId == categoryId
  }

  /**
   * In a catalogue whose items name their own category and whose category ids
   * are distinct, looking a category up yields exactly the items that name it.
   */
  lemma {:induction false} ItemsByCategoryIsFilter(menu: seq<MenuCategory>, categoryId: string)
    requires CategoryIdsMatch(menu) && DistinctCategoryIds(menu)
    ensures ItemsByCategory(menu, categoryId) == Filter(AllItems(menu), IsInCategory(categoryId))
  {
    if menu != [] {
      var c := menu[0];
      var rest := menu[1..];
      assert CategoryIdsMatch(rest) by {
        forall k, i | 0 <= k < |rest| && 0 <= i < |rest[k].items| ensures rest[k].items[i].categoryId == rest[k].id {
          assert rest[k] == menu[k + 1];
        }
      }
      assert DistinctCategoryIds(rest) by {
        forall j, k | 0 <= j < k < |rest| ensures rest[j].id != rest[k].id {
          assert rest[j] == menu[j + 1] && rest[k] == menu[k + 1];
        }
      }
      AllItemsCons(menu);
      FilterAppend(c.items, AllItems(rest), IsInCategory(categoryId));
      if c.id == categoryId {
        FilterAll(c.items, IsInCategory(categoryId));
        assert forall k | 0 <= k < |rest| :: rest[k].id != categoryId by {
          forall k | 0 <= k < |rest| ensures rest[k].id != categoryId {
            assert rest[k] == menu[k + 1];
          }
        }
        FilterNone(rest, categoryId);
      } else {
        FilterEmpty(c.items, IsInCategory(categoryId));
        ItemsByCategoryIsFilter(rest, categoryId);
      }
    }
  }

  /** No item of a category-consistent catalogue names a category id it does not have. */
  lemma {:induction false} FilterNone(menu: seq<MenuCategory>, categoryId: string)
    requires CategoryIdsMatch(menu)
    requires forall k | 0 <= k < |menu| :: menu[k].id != categoryId
    ensures Filter(AllItems(menu), IsInCategory(categoryId)) == []
  {
    if menu != [] {
      AllItemsCons(menu);
      FilterAppend(menu[0].items, AllItems(menu[1..]), IsInCategory(categoryId));
      FilterEmpty(menu[0].items, IsInCategory(categoryId));
      assert CategoryIdsMatch(menu[1..]) by {
        forall k, i | 0 <= k < |menu[1..]| && 0 <= i < |menu[1..][k].items| ensures menu[1..][k].items[i].categoryId == menu[1..][k].id {
          assert menu[1..][k] == menu[k + 1];
        }
      }
      FilterNone(menu[1..], categoryId);
    }
  }

  // ---------------------------------------------------------------------------
  // Facts about this catalogue
  // ---------------------------------------------------------------------------

  /** The item names the category `categoryId`, and if it has sizes it starts at the first one. */
  predicate ItemIsConsistent(item: MenuItem, categoryId: string)
  {
    item.categoryId == categoryId && (HasSizes(item) ==> item.price == item.variants[0].price)
  }

  predicate CategoryIsConsistent(c: MenuCategory)
  {
    forall i | 0 <= i < |c.items| :: ItemIsConsistent(c.items[i], c.id)
  }

  lemma ChickenAndSidesIsConsistent()
    ensures CategoryIsConsistent(ChickenAndSides)
  {
    assert ItemIsConsistent(FullChicken, "chicken-side");
    assert ItemIsConsistent(FullChickenMeal, "chicken-side");
    assert ItemIsConsistent(QuarterChickenChips, "chicken-side");
    assert ItemIsConsistent(OnePieceChips, "chicken-side");
    assert ItemIsConsistent(TwoPiecesChips, "chicken-side");
    assert ItemIsConsistent(ThreePiecesChips, "chicken-side");
    assert ItemIsConsistent(ChickenPiece, "chicken-side");
    assert ItemIsConsistent(EightPieceBucket, "chicken-side");
    assert ItemIsConsistent(ColeslawSalad, "chicken-side");
    assert ItemIsConsistent(ItalianSalad, "chicken-side");
    assert ItemIsConsistent(ChickenSalad, "chicken-side");
    assert ItemIsConsistent(LargeChips, "chicken-side");
    assert ItemIsConsistent(LoadedFries, "chicken-side");
  }

  lemma BurgersAndWrapsIsConsistent()
    ensures CategoryIsConsistent(BurgersAndWraps)
  {
    assert ItemIsConsistent(BeefBurger, "burgers");
    assert ItemIsConsistent(ChickenBurger, "burgers");
    assert ItemIsConsistent(BeefBurgerChips, "burgers");
    assert ItemIsConsistent(ChickenBurgerChips, "burgers");
    assert ItemIsConsistent(DoubleBeefBurger, "burgers");
    assert ItemIsConsistent(DoubleChickenBurger, "burgers");
    assert ItemIsConsistent(DoubleBeefCheeseBurger, "burgers");
    assert ItemIsConsistent(DoubleChickenCheeseBurger, "burgers");
    assert ItemIsConsistent(PlainWrap, "burgers");
    assert ItemIsConsistent(SpicyWrap, "burgers");
    assert ItemIsConsistent(HawaiianWrap, "burgers");
  }

  lemma PizzaIsConsistent()
    ensures CategoryIsConsistent(Pizza)
  {
    assert ItemIsConsistent(BbqSteakPizza, "pizza");
    assert ItemIsConsistent(HawaiianPizza, "pizza");
    assert ItemIsConsistent(ChickenMushroomPizza, "pizza");
    assert ItemIsConsistent(TropicalChickenPizza, "pizza");
    assert ItemIsConsistent(SweetChilliPizza, "pizza");
    assert ItemIsConsistent(BoereworsPizza, "pizza");
    assert ItemIsConsistent(PeriChickenPizza, "pizza");
    assert ItemIsConsistent(MeatDeluxePizza, "pizza");
    assert ItemIsConsistent(FoodiesSupremePizza, "pizza");
    assert ItemIsConsistent(CheeseBurgerPizza, "pizza");
    assert ItemIsConsistent(ChickenHawaiianPizza, "pizza");
    assert ItemIsConsistent(MargheritaPizza, "pizza");
    assert ItemIsConsistent(VeggieFeastPizza, "pizza");
  }

  lemma HotBeveragesIsConsistent()
    ensures CategoryIsConsistent(HotBeverages)
  {
    assert ItemIsConsistent(Americano, "hot-beverages");
    assert ItemIsConsistent(Cappuccino, "hot-beverages");
    assert ItemIsConsistent(Espresso, "hot-beverages");
    assert ItemIsConsistent(HotChocolate, "hot-beverages");
    assert ItemIsConsistent(Latte, "hot-beverages");
    assert ItemIsConsistent(Mocha, "hot-beverages");
  }

  lemma MocktailsIsConsistent()
    ensures CategoryIsConsistent(Mocktails)
  {
    assert ItemIsConsistent(BlueberryBoba, "mocktails");
    assert ItemIsConsistent(SunsetFusion, "mocktails");
    assert ItemIsConsistent(MangoTango, "mocktails");
    assert ItemIsConsistent(PassionFruitBoba, "mocktails");
  }

  lemma FrezosIsConsistent()
    ensures CategoryIsConsistent(Frezos)
  {
    assert ItemIsConsistent(AeroPeppermint, "frezos");
    assert ItemIsConsistent(ChocDecadance, "frezos");
    assert ItemIsConsistent(IcedCoffee, "frezos");
    assert ItemIsConsistent(IcedCappuccino, "frezos");
    assert ItemIsConsistent(MangoFrezo, "frezos");
    assert ItemIsConsistent(PassionFruitFrezo, "frezos");
    assert ItemIsConsistent(StrawberryFrezo, "frezos");
  }

  /** The catalogue keeps its invariants: items name their category, category ids are distinct, sized items start at their first size. */
  lemma CatalogIsConsistent()
    ensures CategoryIdsMatch(MenuCategories)
    ensures DistinctCategoryIds(MenuCategories)
    ensures StartingPrices(MenuCategories)
  {
    ChickenAndSidesIsConsistent();
    BurgersAndWrapsIsConsistent();
    PizzaIsConsistent();
    HotBeveragesIsConsistent();
    MocktailsIsConsistent();
    FrezosIsConsistent();
    assert forall k | 0 <= k < |MenuCategories| :: CategoryIsConsistent(MenuCategories[k]);
  }

  /** The carousel shows chicken and sides, burgers and pizza, in the catalogue's order (not the order the ids are listed in). */
  lemma CarouselOfThisCatalogue()
    ensures CarouselCategories(MenuCategories) == [ChickenAndSides, BurgersAndWraps, Pizza]
  {
    var shown := [ChickenAndSides, BurgersAndWraps, Pizza];
    var hidden := [HotBeverages, Mocktails, Frezos];
    assert MenuCategories == shown + hidden;
    FilterAppend(shown, hidden, OnCarousel);
    ShownAndHidden(shown, hidden);
    assert shown + [] == shown;
  }

  lemma ShownAndHidden(shown: seq<MenuCategory>, hidden: seq<MenuCategory>)
    requires shown == [ChickenAndSides, BurgersAndWraps, Pizza]
    requires hidden == [HotBeverages, Mocktails, Frezos]
    ensures Filter(shown, OnCarousel) == shown && Filter(hidden, OnCarousel) == []
  {
    CarouselMembership();
    FilterEmpty(hidden, OnCarousel);
    FilterAll(shown, OnCarousel);
  }

  lemma CarouselMembership()
    ensures OnCarousel(ChickenAndSides) && OnCarousel(BurgersAndWraps) && OnCarousel(Pizza)
    ensures !OnCarousel(HotBeverages) && !OnCarousel(Mocktails) && !OnCarousel(Frezos)
  {
    assert ChickenAndSides.id == CarouselIds[0];
    assert Pizza.id == CarouselIds[1];
    assert BurgersAndWraps.id == CarouselIds[2];
    assert HotBeverages.id[0] == 'h';
    assert Mocktails.id[0] == 'm';
    assert Frezos.id[0] == 'f';
    assert forall k | 0 <= k < |CarouselIds| :: CarouselIds[k][0] in {'c', 'p', 'b'};
  }

  /** What the menu shows for a few items: a range without decimals, a single price with two, the size labels. */
  lemma DisplayPriceOfMeatDeluxe()
    ensures DisplayPrice(MeatDeluxePizza) == "$" + Fixed0(600) + " - $" + Fixed0(1100)
  {
    var v := MeatDeluxePizza.variants;
    assert v[0].price == 600 && v[1].price == 850 && v[2].price == 1100;
    DisplayPriceRange(MeatDeluxePizza, 600, 1100);
  }

  /** The range's ends are shown as whole dollars: $6 and $11. */
  lemma WholeDollars()
    ensures Fixed0(600) == "6" && Fixed0(1100) == "11"
  {
    assert NatToString(11) == NatToString(1) + [Digit(1)];
  }

  lemma DisplayPriceOfLargeChips()
    ensures DisplayPrice(LargeChips) == "$1.50"
  {
  }

  lemma VariantLabelsOfPizza()
    ensures VariantLabels(BbqSteakPizza) == Some("R | M | L")
    ensures VariantLabels(FullChicken) == None
  {
    var labels := Labels(BbqSteakPizza.variants);
    assert labels == ["R", "M", "L"];
    assert labels[1..] == ["M", "L"] && labels[1..][1..] == ["L"];
    assert Join(labels[1..][1..], " | ") == "L";
    assert Join(labels[1..], " | ") == "M" + " | " + "L";
    assert Join(labels, " | ") == "R" + " | " + ("M" + " | " + "L");
    assert "R" + " | " + ("M" + " | " + "L") == "R | M | L";
  }
}
