/**
 * The cart ledger of the cart page: an ordered list of line items, the two handlers
 * that change it (set a quantity, remove a line), the buttons wired to them, and the
 * derived money values and badge count.
 *
 * Prices are exact reals, so there is no floating-point drift and no rounding: the
 * page rounds only when it displays a value.
 */
module Cart {
  import opened Wrappers

  /** A line id is a string or a number; `===` between a string and a number is false. */
  datatype ItemId = StrId(s: string) | NumId(n: int)

  datatype CartItem = CartItem(id: ItemId, name: string, price: real, quantity: int, imageUrl: Option<string>)

  /** The money values shown in the order summary. */
  datatype Summary = Summary(subtotal: real, taxes: real, deliveryFee: real, total: real)

  const TaxRate: real := 0.08
  const FlatDeliveryFee: real := 5.0

  /** The seed the page starts from. */
  const InitialCartItems: seq<CartItem> := [
    CartItem(StrId("m1"), "Bruschetta Classica", 8.99, 2, Some("https://via.placeholder.com/80?text=Bruschetta")),
    CartItem(StrId("m3"), "Lasagna Bolognese", 18.00, 1, Some("https://via.placeholder.com/80?text=Lasagna")),
    CartItem(StrId("m5"), "Tiramisu", 9.00, 1, Some("https://via.placeholder.com/80?text=Tiramisu"))
  ]

  // ---------------------------------------------------------------------------
  // Predicates on carts

  /** The ledger's invariant: no visible line has a quantity below 1. */
  predicate AllPositive(items: seq<CartItem>) {
    forall i :: 0 <= i < |items| ==> items[i].quantity >= 1
  }

  predicate HasId(items: seq<CartItem>, id: ItemId) {
    exists i :: 0 <= i < |items| && items[i].id == id
  }

  predicate NonNegativePrices(items: seq<CartItem>) {
    forall i :: 0 <= i < |items| ==> items[i].price >= 0.0
  }

  predicate UniqueIds(items: seq<CartItem>) {
    forall i, j :: 0 <= i < j < |items| ==> items[i].id != items[j].id
  }

  // ---------------------------------------------------------------------------
  // The list transformations behind the handlers

  /** `items.filter(item => item.id !== id)`. */
  function Filtered(items: seq<CartItem>, id: ItemId): (r: seq<CartItem>)
    ensures |r| <= |items|
    ensures !HasId(r, id)
    ensures !HasId(items, id) ==> r == items
  {
    if items == [] then []
    else if items[0].id != id then [items[0]] + Filtered(items[1..], id)
    else Filtered(items[1..], id)
  }

  /** The lines the `item.id === id` branch of the quantity map rewrites, and that
      removal drops. */
  function Selected(items: seq<CartItem>, id: ItemId): (r: seq<CartItem>)
    ensures forall i :: 0 <= i < |r| ==> r[i].id == id
  {
    if items == [] then []
    else if items[0].id == id then [items[0]] + Selected(items[1..], id)
    else Selected(items[1..], id)
  }

  /** `items.map(item => item.id === id ? { ...item, quantity: n } : item)`. */
  function WithQuantity(items: seq<CartItem>, id: ItemId, n: int): (r: seq<CartItem>)
    ensures |r| == |items|
  {
    if items == [] then []
    else [if items[0].id == id then items[0].(quantity := n) else items[0]] + WithQuantity(items[1..], id, n)
  }

  /** The new cart after `updateQuantity(id, n)`. */
  function Updated(items: seq<CartItem>, id: ItemId, n: int): (r: seq<CartItem>)
    ensures |r| <= |items|
    ensures n < 1 ==> !HasId(r, id)
    ensures n >= 1 ==> |r| == |items|
  {
    if n < 1 then Filtered(items, id) else WithQuantity(items, id, n)
  }

  // ---------------------------------------------------------------------------
  // Derived values: `reduce` folds from the left, starting at 0

  function LineTotal(item: CartItem): real {
    item.price * item.quantity as real
  }

  /** `cartItems.reduce((sum, item) => sum + item.price * item.quantity, 0)`. */
  function Subtotal(items: seq<CartItem>): (s: real)
    ensures items == [] ==> s == 0.0
  {
    if items == [] then 0.0 else Subtotal(items[..|items| - 1]) + LineTotal(items[|items| - 1])
  }

  /** `cartItems.reduce((sum, item) => sum + item.quantity, 0)`: the navigation badge. */
  function ItemCount(items: seq<CartItem>): (c: int)
    ensures items == [] ==> c == 0
    ensures AllPositive(items) ==> c >= |items|
  {
    if items == [] then 0 else ItemCount(items[..|items| - 1]) + items[|items| - 1].quantity
  }

  /** 8 % of the subtotal, unrounded. */
  function Taxes(subtotal: real): (t: real)
    ensures subtotal >= 0.0 ==> 0.0 <= t <= subtotal
    ensures t > 0.0 <==> subtotal > 0.0
  {
    subtotal * TaxRate
  }

  /** The flat fee, charged only on a positive subtotal. */
  function DeliveryFee(subtotal: real): (f: real)
    ensures f == 0.0 || f == 5.0
    ensures f > 0.0 <==> subtotal > 0.0
  {
    if subtotal > 0.0 then FlatDeliveryFee else 0.0
  }

  /** All four figures of the order summary. */
  function ComputeTotals(items: seq<CartItem>): (s: Summary)
    ensures s.subtotal == Subtotal(items)
    ensures s.taxes == s.subtotal * 0.08
    ensures s.deliveryFee == (if s.subtotal > 0.0 then 5.0 else 0.0)
    ensures s.total == s.subtotal * 1.08 + s.deliveryFee
  {
    var subtotal := Subtotal(items);
    var taxes := Taxes(subtotal);
    var fee := DeliveryFee(subtotal);
    Summary(subtotal, taxes, fee, subtotal + taxes + fee)
  }

  // ---------------------------------------------------------------------------
  // What the page renders

  /** The page body: the empty-cart message, or the items table beside the summary card,
      each under the navigation bar's badge; or a render that throws. */
  datatype CartView =
    | EmptyCartView(badge: int)
    | CartTableView(lines: seq<CartItem>, summary: Summary, badge: int)
    | CartRenderError

  /** The page as written. The summary card of a non-empty cart renders a `Label` the file
      never imports, so that branch throws a ReferenceError and, with no error boundary,
      nothing is shown; the empty-cart branch never reaches it. */
  function RenderCartPageAsWritten(items: seq<CartItem>): (v: CartView)
    ensures v == CartRenderError <==> items != []
    ensures v != CartRenderError ==> v == EmptyCartView(0)
  {
    if |items| == 0 then EmptyCartView(ItemCount(items)) else CartRenderError
  }

  /** The page with the label imported: never a crash, the empty-cart message exactly on
      an empty cart, otherwise every line in order with the four summary figures; the badge
      counts units in both branches. */
  function RenderCartPage(items: seq<CartItem>): (v: CartView)
    ensures v != CartRenderError
    ensures v.EmptyCartView? <==> items == []
    ensures v.CartTableView? ==> v.lines == items && v.summary == ComputeTotals(items)
    ensures v.badge == ItemCount(items)
  {
    if |items| == 0 then EmptyCartView(ItemCount(items))
    else CartTableView(items, ComputeTotals(items), ItemCount(items))
  }

  /** The seed cart is not empty, so the page as written throws on mount and no handler is
      ever reachable; with the label imported it shows the seed's table and totals. */
  lemma SeedCartCrashes()
    ensures RenderCartPageAsWritten(InitialCartItems) == CartRenderError
    ensures RenderCartPage(InitialCartItems)
      == CartTableView(InitialCartItems, Summary(44.98, 3.5984, 5.0, 53.5784), 4)
  {
    InitialTotals();
  }

  /** The two pages agree exactly on the empty cart. */
  lemma AsWrittenCartAgrees(items: seq<CartItem>)
    ensures RenderCartPageAsWritten(items) == RenderCartPage(items) <==> items == []
  {
  }

  // ---------------------------------------------------------------------------
  // The page's state: `cartItems` and the handlers that replace it

  class CartLedger {
    var items: seq<CartItem>

    /** Every line has a positive quantity and no two lines share an id. */
    ghost predicate Valid()
      reads this
    {
      AllPositive(items) && UniqueIds(items)
    }

    /** The page mounts with the seed cart. */
    constructor ()
      ensures items == InitialCartItems
      ensures Valid()
    {
      items := InitialCartItems;
    }

    /** `updateQuantity(id, newQuantity)`. */
    method UpdateQuantity(id: ItemId, newQuantity: int)
      requires Valid()
      modifies this
      ensures Valid()
      ensures items == Updated(old(items), id, newQuantity)
      ensures newQuantity < 1 ==> !HasId(items, id) && |items| <= |old(items)|
      ensures newQuantity >= 1 ==> |items| == |old(items)|
    {
      UpdatedKeepsPositive(items, id, newQuantity);
      UpdatedKeepsUnique(items, id, newQuantity);
      if newQuantity < 1 {
        items := Filtered(items, id);
      } else {
        items := WithQuantity(items, id, newQuantity);
      }
    }

    /** `removeItem(id)`: no error when no line has the id. */
    method RemoveItem(id: ItemId)
      requires Valid()
      modifies this
      ensures Valid()
      ensures items == Filtered(old(items), id)
      ensures !HasId(items, id)
      ensures !old(HasId(items, id)) ==> items == old(items)
    {
      UpdatedKeepsPositive(items, id, 0);
      UpdatedKeepsUnique(items, id, 0);
      items := Filtered(items, id);
    }

    /** The minus button of line `k`: `updateQuantity(item.id, item.quantity - 1)`. */
    method Minus(k: nat)
      requires Valid() && k < |items|
      modifies this
      ensures Valid()
      ensures items == Updated(old(items), old(items[k].id), old(items[k].quantity) - 1)
      ensures old(items[k].quantity) == 1 ==> !HasId(items, old(items[k].id))
    {
      UpdateQuantity(items[k].id, items[k].quantity - 1);
    }

    /** The plus button of line `k`: `updateQuantity(item.id, item.quantity + 1)`. */
    method Plus(k: nat)
      requires Valid() && k < |items|
      modifies this
      ensures Valid()
      ensures items == WithQuantity(old(items), old(items[k].id), old(items[k].quantity) + 1)
      ensures |items| == |old(items)| && items[k].quantity == old(items[k].quantity) + 1
      ensures NavCartItemCount() == old(NavCartItemCount()) + 1
      ensures Totals().subtotal == old(Totals().subtotal) + old(items[k].price)
    {
      PlusEffect(items, k);
      UpdateQuantity(items[k].id, items[k].quantity + 1);
    }

    /** The figures of the order summary card. */
    function Totals(): Summary
      reads this
    {
      ComputeTotals(items)
    }

    /** `navCartItemCount`, the badge on the navigation bar. */
    function NavCartItemCount(): int
      reads this
    {
      ItemCount(items)
    }
  }

  // ---------------------------------------------------------------------------
  // Properties of the handlers

  /** Setting a quantity keeps every line in place and changes only the quantity of the
      lines with the id. */
  lemma {:induction false} WithQuantityAt(items: seq<CartItem>, id: ItemId, n: int)
    ensures forall i :: 0 <= i < |items| ==>
      WithQuantity(items, id, n)[i] == if items[i].id == id then items[i].(quantity := n) else items[i]
  {
    if items != [] {
      WithQuantityAt(items[1..], id, n);
      forall i | 1 <= i < |items|
        ensures WithQuantity(items, id, n)[i] == WithQuantity(items[1..], id, n)[i - 1]
      {
      }
    }
  }

  /** Filtering distributes over concatenation, so the kept lines keep their order. */
  lemma {:induction false} FilteredAppend(a: seq<CartItem>, b: seq<CartItem>, id: ItemId)
    ensures Filtered(a + b, id) == Filtered(a, id) + Filtered(b, id)
  {
    if a == [] {
      assert a + b == b;
    } else {
      assert (a + b)[1..] == a[1..] + b;
      FilteredAppend(a[1..], b, id);
    }
  }

  /** The kept lines are exactly the lines of the cart whose id differs. */
  lemma {:induction false} FilteredMembers(items: seq<CartItem>, id: ItemId)
    ensures forall x :: x in Filtered(items, id) <==> x in items && x.id != id
  {
    if items != [] {
      FilteredMembers(items[1..], id);
      assert items == [items[0]] + items[1..];
    }
  }

  /** Removal drops exactly the lines with the id: the dropped and kept lines together
      account for every line, counted with multiplicity. */
  lemma {:induction false} FilteredSplits(items: seq<CartItem>, id: ItemId)
    ensures multiset(Filtered(items, id)) + multiset(Selected(items, id)) == multiset(items)
    ensures |Filtered(items, id)| + |Selected(items, id)| == |items|
  {
    if items != [] {
      FilteredSplits(items[1..], id);
      assert items == [items[0]] + items[1..];
    }
  }

  /** `updateQuantity` below 1 is `removeItem`; at 1 or more it keeps every line's
      other fields and position. */
  lemma UpdatedCases(items: seq<CartItem>, id: ItemId, n: int)
    ensures n < 1 ==> Updated(items, id, n) == Filtered(items, id)
    ensures n >= 1 ==> |Updated(items, id, n)| == |items|
    ensures n >= 1 ==> forall i :: 0 <= i < |items| ==>
      var r := Updated(items, id, n)[i];
      && r.id == items[i].id && r.name == items[i].name && r.price == items[i].price
      && r.imageUrl == items[i].imageUrl
      && r.quantity == (if items[i].id == id then n else items[i].quantity)
  {
    WithQuantityAt(items, id, n);
  }

  /** `updateQuantity` with an id no line has leaves the cart as it was. */
  lemma UpdatedAbsent(items: seq<CartItem>, id: ItemId, n: int)
    requires !HasId(items, id)
    ensures Updated(items, id, n) == items
  {
    if n >= 1 {
      WithQuantityAt(items, id, n);
    }
  }

  /** The ledger invariant survives every `updateQuantity` call. */
  lemma {:induction false} UpdatedKeepsPositive(items: seq<CartItem>, id: ItemId, n: int)
    requires AllPositive(items)
    ensures AllPositive(Updated(items, id, n))
  {
    var r := Updated(items, id, n);
    if n < 1 {
      FilteredMembers(items, id);
      forall i | 0 <= i < |r| ensures r[i].quantity >= 1 {
        assert r[i] in r;
        assert r[i] in items;
      }
    } else {
      WithQuantityAt(items, id, n);
    }
  }

  /** Removal keeps a sub-list, so distinct ids stay distinct. */
  lemma {:induction false} FilteredKeepsUnique(items: seq<CartItem>, id: ItemId)
    requires UniqueIds(items)
    ensures UniqueIds(Filtered(items, id))
  {
    if items != [] {
      var x, rest := items[0], items[1..];
      assert forall i :: 0 <= i < |rest| ==> rest[i] == items[i + 1];
      FilteredKeepsUnique(rest, id);
      if x.id != id {
        var f := Filtered(rest, id);
        FilteredMembers(rest, id);
        forall j | 0 <= j < |f|
          ensures f[j].id != x.id
        {
          assert f[j] in rest;
        }
        UniqueCons(x, f);
      }
    }
  }

  /** A line whose id no other line has can go in front of a cart with distinct ids. */
  lemma UniqueCons(x: CartItem, f: seq<CartItem>)
    requires UniqueIds(f)
    requires forall j :: 0 <= j < |f| ==> f[j].id != x.id
    ensures UniqueIds([x] + f)
  {
    var r := [x] + f;
    forall i, j | 0 <= i < j < |r|
      ensures r[i].id != r[j].id
    {
      assert r[j] == f[j - 1];
      if i > 0 {
        assert r[i] == f[i - 1];
      }
    }
  }

  /** The ledger's distinct ids survive every `updateQuantity` call. */
  lemma {:induction false} UpdatedKeepsUnique(items: seq<CartItem>, id: ItemId, n: int)
    requires UniqueIds(items)
    ensures UniqueIds(Updated(items, id, n))
  {
    if n < 1 {
      FilteredKeepsUnique(items, id);
    } else {
      WithQuantityAt(items, id, n);
    }
  }

  // ---------------------------------------------------------------------------
  // Properties of the derived values

  lemma {:induction false} SubtotalAppend(a: seq<CartItem>, b: seq<CartItem>)
    ensures Subtotal(a + b) == Subtotal(a) + Subtotal(b)
    decreases |b|
  {
    if b == [] {
      assert a + b == a;
    } else {
      var b' := b[..|b| - 1];
      assert (a + b)[..|a + b| - 1] == a + b';
      SubtotalAppend(a, b');
    }
  }

  lemma {:induction false} ItemCountAppend(a: seq<CartItem>, b: seq<CartItem>)
    ensures ItemCount(a + b) == ItemCount(a) + ItemCount(b)
    decreases |b|
  {
    if b == [] {
      assert a + b == a;
    } else {
      var b' := b[..|b| - 1];
      assert (a + b)[..|a + b| - 1] == a + b';
      ItemCountAppend(a, b');
    }
  }

  /** Prepending a line adds its line total: the fold does not depend on direction. */
  lemma SubtotalCons(x: CartItem, rest: seq<CartItem>)
    ensures Subtotal([x] + rest) == LineTotal(x) + Subtotal(rest)
  {
    SubtotalAppend([x], rest);
    assert [x][..0] == [];
  }

  lemma ItemCountCons(x: CartItem, rest: seq<CartItem>)
    ensures ItemCount([x] + rest) == x.quantity + ItemCount(rest)
  {
    ItemCountAppend([x], rest);
    assert [x][..0] == [];
  }

  /** With non-negative prices and quantities of at least 1, the subtotal is not negative
      and the badge counts at least one per line. */
  lemma {:induction false} SubtotalBounds(items: seq<CartItem>)
    requires AllPositive(items) && NonNegativePrices(items)
    ensures Subtotal(items) >= 0.0
    ensures ItemCount(items) >= |items|
  {
    if items != [] {
      var front := items[..|items| - 1];
      assert AllPositive(front);
      SubtotalBounds(front);
    }
  }

  /** Removing an id takes exactly the removed lines' totals off the subtotal and their
      quantities off the badge. */
  lemma {:induction false} FilteredTotals(items: seq<CartItem>, id: ItemId)
    ensures Subtotal(items) == Subtotal(Filtered(items, id)) + Subtotal(Selected(items, id))
    ensures ItemCount(items) == ItemCount(Filtered(items, id)) + ItemCount(Selected(items, id))
  {
    if items != [] {
      var x, rest := items[0], items[1..];
      assert items == [x] + rest;
      FilteredTotals(rest, id);
      SubtotalCons(x, rest);
      ItemCountCons(x, rest);
      if x.id != id {
        SubtotalCons(x, Filtered(rest, id));
        ItemCountCons(x, Filtered(rest, id));
      } else {
        SubtotalCons(x, Selected(rest, id));
        ItemCountCons(x, Selected(rest, id));
      }
    }
  }

  /** Setting a quantity to n changes only the totals of the lines with that id: the
      subtotal becomes the kept lines' subtotal plus the affected lines at quantity n. */
  lemma {:induction false} WithQuantitySubtotal(items: seq<CartItem>, id: ItemId, n: int)
    ensures Subtotal(WithQuantity(items, id, n)) ==
      Subtotal(Filtered(items, id)) + Subtotal(WithQuantity(Selected(items, id), id, n))
  {
    if items != [] {
      var x, rest := items[0], items[1..];
      var wq, f, sel := WithQuantity(rest, id, n), Filtered(rest, id), Selected(rest, id);
      WithQuantitySubtotal(rest, id, n);
      if x.id != id {
        assert WithQuantity(items, id, n) == [x] + wq;
        assert Filtered(items, id) == [x] + f;
        assert Selected(items, id) == sel;
        SubtotalCons(x, wq);
        SubtotalCons(x, f);
      } else {
        var y := x.(quantity := n);
        assert WithQuantity(items, id, n) == [y] + wq;
        assert Filtered(items, id) == f;
        assert Selected(items, id) == [x] + sel;
        assert WithQuantity([x] + sel, id, n) == [y] + WithQuantity(sel, id, n);
        SubtotalCons(y, wq);
        SubtotalCons(y, WithQuantity(sel, id, n));
      }
    }
  }

  /** The badge after a quantity change: only the lines with that id count differently. */
  lemma {:induction false} WithQuantityItemCount(items: seq<CartItem>, id: ItemId, n: int)
    ensures ItemCount(WithQuantity(items, id, n)) ==
      ItemCount(Filtered(items, id)) + ItemCount(WithQuantity(Selected(items, id), id, n))
  {
    if items != [] {
      var x, rest := items[0], items[1..];
      var wq, f, sel := WithQuantity(rest, id, n), Filtered(rest, id), Selected(rest, id);
      WithQuantityItemCount(rest, id, n);
      if x.id != id {
        assert WithQuantity(items, id, n) == [x] + wq;
        assert Filtered(items, id) == [x] + f;
        assert Selected(items, id) == sel;
        ItemCountCons(x, wq);
        ItemCountCons(x, f);
      } else {
        var y := x.(quantity := n);
        assert WithQuantity(items, id, n) == [y] + wq;
        assert Filtered(items, id) == f;
        assert Selected(items, id) == [x] + sel;
        assert WithQuantity([x] + sel, id, n) == [y] + WithQuantity(sel, id, n);
        ItemCountCons(y, wq);
        ItemCountCons(y, WithQuantity(sel, id, n));
      }
    }
  }

  /** With unique ids, line k's quantity is what removing its id takes off the badge. */
  lemma {:induction false} CountWithoutLine(items: seq<CartItem>, k: nat)
    requires k < |items| && UniqueIds(items)
    ensures ItemCount(items) == ItemCount(Filtered(items, items[k].id)) + items[k].quantity
  {
    var x := items[k];
    SelectedUnique(items, k);
    FilteredTotals(items, x.id);
    ItemCountCons(x, []);
    assert [x] + [] == [x];
  }

  /** With unique ids, after one more unit on line k the badge is the other lines' count
      plus the new quantity. */
  lemma {:induction false} CountAfterPlus(items: seq<CartItem>, k: nat)
    requires k < |items| && UniqueIds(items)
    ensures ItemCount(WithQuantity(items, items[k].id, items[k].quantity + 1))
         == ItemCount(Filtered(items, items[k].id)) + items[k].quantity + 1
  {
    var x := items[k];
    var y := x.(quantity := x.quantity + 1);
    SelectedUnique(items, k);
    WithQuantityItemCount(items, x.id, x.quantity + 1);
    assert WithQuantity([x], x.id, x.quantity + 1) == [y];
    ItemCountCons(y, []);
    assert [y] + [] == [y];
  }

  /** With unique ids, the plus button raises the badge by exactly 1. */
  lemma {:induction false} PlusAddsOne(items: seq<CartItem>, k: nat)
    requires k < |items| && UniqueIds(items) && AllPositive(items)
    ensures ItemCount(Updated(items, items[k].id, items[k].quantity + 1)) == ItemCount(items) + 1
  {
    CountWithoutLine(items, k);
    CountAfterPlus(items, k);
  }

  /** With unique ids, line k's line total is what removing its id takes off the subtotal. */
  lemma {:induction false} SubtotalWithoutLine(items: seq<CartItem>, k: nat)
    requires k < |items| && UniqueIds(items)
    ensures Subtotal(items) == Subtotal(Filtered(items, items[k].id)) + LineTotal(items[k])
  {
    var x := items[k];
    SelectedUnique(items, k);
    FilteredTotals(items, x.id);
    SubtotalCons(x, []);
    assert [x] + [] == [x];
  }

  /** With unique ids, after one more unit on line k the subtotal is the other lines'
      subtotal plus the line at its new quantity. */
  lemma {:induction false} SubtotalAfterPlus(items: seq<CartItem>, k: nat)
    requires k < |items| && UniqueIds(items)
    ensures Subtotal(WithQuantity(items, items[k].id, items[k].quantity + 1))
         == Subtotal(Filtered(items, items[k].id)) + LineTotal(items[k].(quantity := items[k].quantity + 1))
  {
    var x := items[k];
    var y := x.(quantity := x.quantity + 1);
    SelectedUnique(items, k);
    WithQuantitySubtotal(items, x.id, x.quantity + 1);
    assert WithQuantity([x], x.id, x.quantity + 1) == [y];
    SubtotalCons(y, []);
    assert [y] + [] == [y];
  }

  /** With unique ids, the plus button raises the subtotal by exactly the line's unit price. */
  lemma {:induction false} PlusAddsUnitPrice(items: seq<CartItem>, k: nat)
    requires k < |items| && UniqueIds(items) && AllPositive(items)
    ensures Subtotal(Updated(items, items[k].id, items[k].quantity + 1)) == Subtotal(items) + items[k].price
  {
    var x := items[k];
    assert Updated(items, x.id, x.quantity + 1) == WithQuantity(items, x.id, x.quantity + 1);
    SubtotalWithoutLine(items, k);
    SubtotalAfterPlus(items, k);
    LineTotalPlusOne(x);
  }

  /** Everything the plus button does to the cart, in one place for the handler. */
  lemma PlusEffect(items: seq<CartItem>, k: nat)
    requires k < |items| && UniqueIds(items) && AllPositive(items)
    ensures var after := Updated(items, items[k].id, items[k].quantity + 1);
      && after == WithQuantity(items, items[k].id, items[k].quantity + 1)
      && |after| == |items| && after[k].quantity == items[k].quantity + 1
      && ItemCount(after) == ItemCount(items) + 1
      && Subtotal(after) == Subtotal(items) + items[k].price
  {
    WithQuantityAt(items, items[k].id, items[k].quantity + 1);
    PlusAddsOne(items, k);
    PlusAddsUnitPrice(items, k);
  }

  lemma LineTotalPlusOne(x: CartItem)
    ensures LineTotal(x.(quantity := x.quantity + 1)) == LineTotal(x) + x.price
  {
  }

  /** With unique ids, the lines with line k's id are just line k. */
  lemma {:induction false} SelectedUnique(items: seq<CartItem>, k: nat)
    requires k < |items| && UniqueIds(items)
    ensures Selected(items, items[k].id) == [items[k]]
  {
    var id := items[k].id;
    if k == 0 {
      NoneSelected(items[1..], id);
    } else {
      assert UniqueIds(items[1..]);
      SelectedUnique(items[1..], k - 1);
      assert items[1..][k - 1] == items[k];
    }
  }

  lemma {:induction false} NoneSelected(items: seq<CartItem>, id: ItemId)
    requires !HasId(items, id)
    ensures Selected(items, id) == []
  {
    if items != [] {
      assert items[0].id != id;
      assert !HasId(items[1..], id) by {
        forall i | 0 <= i < |items[1..]| ensures items[1..][i].id != id {
          assert items[1..][i] == items[i + 1];
        }
      }
      NoneSelected(items[1..], id);
    }
  }

  /** An empty cart totals 0: no fee, no tax. */
  lemma EmptyCartTotalsZero()
    ensures ComputeTotals([]) == Summary(0.0, 0.0, 0.0, 0.0)
  {
  }

  /** A cart whose subtotal is positive pays the flat fee on top of subtotal and tax. */
  lemma NonEmptyCartTotal(items: seq<CartItem>)
    requires Subtotal(items) > 0.0
    ensures ComputeTotals(items).total == Subtotal(items) * 1.08 + 5.0
  {
  }

  /** The seed cart's figures, exactly (the page displays them rounded to cents). */
  lemma InitialTotals()
    ensures ComputeTotals(InitialCartItems) == Summary(44.98, 3.5984, 5.0, 53.5784)
    ensures ItemCount(InitialCartItems) == 4
  {
    var s := InitialCartItems;
    assert s[..|s| - 1] == s[..2];
    assert s[..2][..1] == s[..1];
    assert s[..1][..0] == [];
    assert Subtotal(s[..1]) == 17.98;
    assert Subtotal(s[..2]) == 35.98;
    assert Subtotal(s) == 44.98;
    assert ItemCount(s[..1]) == 2;
    assert ItemCount(s[..2]) == 3;
  }
}
