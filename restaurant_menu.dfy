/**
 * The restaurant menu page: a route parameter selects a restaurant from a placeholder
 * table, the page shows either its menu or a not-found message, and an add-to-cart
 * list local to the page grows by one entry per click. Its length is the badge on the
 * navigation bar in both branches.
 *
 * The table is a JavaScript object indexed with an arbitrary string, so a lookup also
 * sees the properties every object inherits. `RenderPageAsWritten` models that lookup;
 * `RenderPage` is the own-key lookup the page evidently intends.
 */
module RestaurantMenu {
  import opened Wrappers
  import Cart

  datatype MenuItemData = MenuItemData(
    id: Cart.ItemId, name: string, description: Option<string>, price: real, imageUrl: Option<string>)

  datatype Category = Category(category: string, items: seq<MenuItemData>)

  datatype Restaurant = Restaurant(
    name: string, logoUrl: string, rating: real, deliveryTime: string,
    cuisine: string, description: string, menu: seq<Category>)

  /** What a menu item hands to the add-to-cart callback. */
  datatype CartEntry = CartEntry(id: Cart.ItemId, name: string, price: real)

  /** The callback payload: id, name and price of the clicked item, nothing else. */
  function AddToCartPayload(item: MenuItemData): (e: CartEntry)
    ensures e.id == item.id && e.name == item.name && e.price == item.price
  {
    CartEntry(item.id, item.name, item.price)
  }

  const GourmetPlace: Restaurant := Restaurant(
    "The Gourmet Place",
    "https://via.placeholder.com/100/FFD700/000000?text=GP",
    4.7,
    "30-40 min",
    "Italian, Fine Dining",
    "Exquisite Italian dishes crafted with the finest ingredients. Perfect for a special occasion.",
    [ Category("Appetizers", [
        MenuItemData(Cart.StrId("m1"), "Bruschetta Classica",
          Some("Toasted bread with fresh tomatoes, garlic, basil, and olive oil."), 8.99,
          Some("https://via.placeholder.com/150/FFC0CB/000000?text=Bruschetta")),
        MenuItemData(Cart.StrId("m2"), "Caprese Salad",
          Some("Fresh mozzarella, tomatoes, basil, and balsamic glaze."), 10.50,
          Some("https://via.placeholder.com/150/98FB98/000000?text=Caprese"))]),
      Category("Main Courses", [
        MenuItemData(Cart.StrId("m3"), "Lasagna Bolognese",
          Some("Classic layered pasta with meat sauce and béchamel."), 18.00,
          Some("https://via.placeholder.com/150/ADD8E6/000000?text=Lasagna")),
        MenuItemData(Cart.StrId("m4"), "Risotto ai Funghi",
          Some("Creamy risotto with porcini mushrooms."), 22.50,
          Some("https://via.placeholder.com/150/E6E6FA/000000?text=Risotto"))]),
      Category("Desserts", [
        MenuItemData(Cart.StrId("m5"), "Tiramisu",
          Some("Ladyfingers dipped in coffee, layered with mascarpone cream."), 9.00,
          Some("https://via.placeholder.com/150/FFFACD/000000?text=Tiramisu"))])
    ])

  /** The own keys of the placeholder table and their records. */
  const PlaceholderRestaurantDetails: map<string, Restaurant> := map["r1" := GourmetPlace]

  /** The properties every plain object inherits from Object.prototype. */
  const ObjectPrototypeMembers: set<string> := {
    "constructor", "hasOwnProperty", "isPrototypeOf", "propertyIsEnumerable",
    "toLocaleString", "toString", "valueOf", "__proto__",
    "__defineGetter__", "__defineSetter__", "__lookupGetter__", "__lookupSetter__" }

  // ---------------------------------------------------------------------------
  // Lookup and page

  /** What `object[key]` yields: an own record, an inherited member (a function, or the
      prototype object itself), or undefined. All but undefined are truthy. */
  datatype Property = Own(restaurant: Restaurant) | Inherited(member: string) | Undefined

  function PropertyLookup(table: map<string, Restaurant>, key: string): (p: Property)
    ensures p.Own? <==> key in table
    ensures p.Own? ==> p.restaurant == table[key]
    ensures p.Inherited? <==> key !in table && key in ObjectPrototypeMembers
    ensures p.Undefined? <==> key !in table && key !in ObjectPrototypeMembers
  {
    if key in table then Own(table[key])
    else if key in ObjectPrototypeMembers then Inherited(key)
    else Undefined
  }

  /** The page as rendered. The menu view opens every category of the accordion. */
  datatype MenuPage =
    | NotFoundView(badge: nat)
    | MenuView(restaurant: Restaurant, badge: nat, openCategories: seq<string>)
    | RenderError

  function CategoryNames(r: Restaurant): seq<string> {
    seq(|r.menu|, i requires 0 <= i < |r.menu| => r.menu[i].category)
  }

  /** The route parameter is truthy when present and non-empty. */
  predicate Truthy(id: Option<string>) {
    id.Some? && id.value != ""
  }

  /** The page as written: a falsy lookup result gives the not-found view and a record its
      menu. An inherited member is truthy, so rendering goes on and throws: an inherited
      function has no `menu` array for `restaurant.menu.map`, and the prototype object itself
      (`__proto__`) already has no `name` for `restaurant.name.substring`. */
  function RenderPageAsWritten(id: Option<string>, entries: seq<CartEntry>): (p: MenuPage)
    ensures p == RenderError <==> id.Some? && id.value in ObjectPrototypeMembers
    ensures p != RenderError ==> p.badge == |entries|
  {
    var restaurant := if Truthy(id) then PropertyLookup(PlaceholderRestaurantDetails, id.value) else Undefined;
    match restaurant
    case Undefined => NotFoundView(|entries|)
    case Own(r) => MenuView(r, |entries|, CategoryNames(r))
    case Inherited(_) => RenderError
  }

  /** An id that names an inherited member crashes the page instead of reporting it missing. */
  lemma ConstructorIdCrashes(entries: seq<CartEntry>)
    ensures RenderPageAsWritten(Some("constructor"), entries) == RenderError
    ensures "constructor" !in PlaceholderRestaurantDetails
  {
  }

  /** The own-key lookup: only `r1` names a restaurant. */
  function LookupRestaurant(id: Option<string>): (r: Option<Restaurant>)
    ensures r.Some? <==> id == Some("r1")
    ensures r.Some? ==> r.value == GourmetPlace
  {
    if Truthy(id) && id.value in PlaceholderRestaurantDetails then
      Some(PlaceholderRestaurantDetails[id.value])
    else None
  }

  /** The page with the own-key lookup: never a crash, not found exactly when the lookup
      finds nothing, and the badge counts the entries in both branches. */
  function RenderPage(id: Option<string>, entries: seq<CartEntry>): (p: MenuPage)
    ensures p.NotFoundView? || p.MenuView?
    ensures p.badge == |entries|
    ensures p.NotFoundView? <==> LookupRestaurant(id).None?
    ensures p.MenuView? ==> p.restaurant == GourmetPlace
  {
    match LookupRestaurant(id)
    case None => NotFoundView(|entries|)
    case Some(r) => MenuView(r, |entries|, CategoryNames(r))
  }

  /** Away from the inherited member names, the page as written and the corrected page agree. */
  lemma AsWrittenAgrees(id: Option<string>, entries: seq<CartEntry>)
    requires id.None? || id.value !in ObjectPrototypeMembers
    ensures RenderPageAsWritten(id, entries) == RenderPage(id, entries)
  {
  }

  /** `r1` shows The Gourmet Place with its three categories open. */
  lemma {:induction false} GourmetPlacePage(entries: seq<CartEntry>)
    ensures RenderPage(Some("r1"), entries)
        == MenuView(GourmetPlace, |entries|, ["Appetizers", "Main Courses", "Desserts"])
  {
    assert CategoryNames(GourmetPlace) == ["Appetizers", "Main Courses", "Desserts"];
  }

  // ---------------------------------------------------------------------------
  // Add-to-cart list

  /** The entries after a run of clicks, one functional update per click. */
  function AfterAdds(entries: seq<CartEntry>, adds: seq<CartEntry>): (r: seq<CartEntry>)
    ensures |r| == |entries| + |adds|
    ensures r[..|entries|] == entries
    decreases |adds|
  {
    if adds == [] then entries else AfterAdds(entries + [adds[0]], adds[1..])
  }

  /** Clicks only append, in click order: earlier entries stay as they were. */
  lemma {:induction false} AfterAddsAppends(entries: seq<CartEntry>, adds: seq<CartEntry>)
    ensures AfterAdds(entries, adds) == entries + adds
    decreases |adds|
  {
    if adds != [] {
      AfterAddsAppends(entries + [adds[0]], adds[1..]);
      assert (entries + [adds[0]]) + adds[1..] == entries + adds;
    }
  }

  /** The badge is the number of clicks since mount, found or not. */
  lemma {:induction false} BadgeCountsClicks(id: Option<string>, adds: seq<CartEntry>)
    ensures RenderPage(id, AfterAdds([], adds)).badge == |adds|
  {
    AfterAddsAppends([], adds);
  }

  /** The same item added twice is listed twice: nothing is merged. */
  lemma {:induction false} NoMerging(entries: seq<CartEntry>, item: CartEntry)
    ensures |AfterAdds(entries, [item, item])| == |entries| + 2
    ensures multiset(AfterAdds(entries, [item, item]))[item] == multiset(entries)[item] + 2
  {
    AfterAddsAppends(entries, [item, item]);
    assert multiset(entries + [item, item]) == multiset(entries) + multiset{item, item};
  }

  /** The page's add-to-cart state. */
  class MenuPageState {
    var cartItems: seq<CartEntry>

    /** The list starts empty on mount. */
    constructor ()
      ensures cartItems == []
    {
      cartItems := [];
    }

    /** `handleAddToCart`: the entry goes at the end and nothing else changes. */
    method HandleAddToCart(item: CartEntry)
      modifies this
      ensures cartItems == old(cartItems) + [item]
      ensures cartItems == AfterAdds(old(cartItems), [item])
    {
      cartItems := cartItems + [item];
    }

    /** A click on a menu item's Add button. */
    method ClickAdd(item: MenuItemData)
      modifies this
      ensures cartItems == old(cartItems) + [CartEntry(item.id, item.name, item.price)]
    {
      HandleAddToCart(AddToCartPayload(item));
    }

    /** The page for a route parameter, as written: it crashes exactly on the inherited
        member names; otherwise it is the corrected page and its badge is the list's length. */
    function Page(id: Option<string>): (p: MenuPage)
      reads this
      ensures p == RenderError <==> id.Some? && id.value in ObjectPrototypeMembers
      ensures p != RenderError ==> p == RenderPage(id, cartItems) && p.badge == |cartItems|
    {
      RenderPageAsWritten(id, cartItems)
    }
  }
}
