/** The dashboard's transaction engine: the shopping cart, its totals with 14 %
    VAT, and checkout into the list of current orders. Money is in cents. */
module Cart {
  import opened Seqs
  import opened Wrappers

  datatype Product = Product(id: int, name: string, price: int, category: string, stock: int)

  datatype CartItem = CartItem(product: Product, quantity: int)

  datatype OrderStatus = Preparing | Ready | Completed

  datatype Order = Order(id: int, customer: string, items: int, total: int, status: OrderStatus)

  /** The names a checkout picks its customer label from. */
  const CustomerNames: seq<string> := ["Thabo Mokoena", "Matseliso Mofokeng", "Lerato Ntai",
    "Teboho Molise", "Lineo Mphuti", "Khotso Motaung", "Maseqobela Molapo"]

  /** The orders the dashboard starts with. */
  const SeedOrders: seq<Order> := [
    Order(1, "Thabo Mokoena", 3, 19500, Preparing),
    Order(2, "Matseliso Mofokeng", 5, 32500, Ready),
    Order(3, "Lerato Ntai", 2, 13000, Completed)]

  function LineId(line: CartItem): int
  {
    line.product.id
  }

  /** The cart invariant: every line holds at least one unit and no two lines
      are for the same product. */
  predicate ValidCart(cart: seq<CartItem>)
  {
    (forall i :: 0 <= i < |cart| ==> cart[i].quantity >= 1) && UniqueBy(cart, LineId)
  }

  predicate InCart(cart: seq<CartItem>, id: int)
  {
    exists i :: 0 <= i < |cart| && cart[i].product.id == id
  }

  // ---------------------------------------------------------------------------
  // Totals

  function LineTotal(line: CartItem): int
  {
    line.product.price * line.quantity
  }

  /** `cart.reduce((sum, item) => sum + item.product.price * item.quantity, 0)`. */
  function Subtotal(cart: seq<CartItem>): int
    decreases |cart|
  {
    if cart == [] then 0 else LineTotal(cart[0]) + Subtotal(cart[1..])
  }

  /** `cart.reduce((sum, item) => sum + item.quantity, 0)`. */
  function ItemCount(cart: seq<CartItem>): int
    decreases |cart|
  {
    if cart == [] then 0 else cart[0].quantity + ItemCount(cart[1..])
  }

  /** The VAT line of the cart panel, `cartTotal * 0.14`. */
  function Vat(cart: seq<CartItem>): real
  {
    Subtotal(cart) as real * 0.14
  }

  /** The total line of the cart panel, `cartTotal * 1.14`. */
  function GrandTotal(cart: seq<CartItem>): real
  {
    Subtotal(cart) as real * 1.14
  }

  /** The three figures agree: total = subtotal + VAT, and nothing is charged
      for an empty cart. */
  lemma GrandTotalIsSubtotalPlusVat(cart: seq<CartItem>)
    ensures GrandTotal(cart) == Subtotal(cart) as real + Vat(cart)
    ensures cart == [] ==> Subtotal(cart) == 0 && Vat(cart) == 0.0 && GrandTotal(cart) == 0.0
  {
  }

  lemma {:induction false} SubtotalAppend(a: seq<CartItem>, b: seq<CartItem>)
    ensures Subtotal(a + b) == Subtotal(a) + Subtotal(b)
    ensures ItemCount(a + b) == ItemCount(a) + ItemCount(b)
    decreases |a|
  {
    if a == [] {
      assert a + b == b;
    } else {
      SubtotalAppend(a[1..], b);
      assert (a + b)[1..] == a[1..] + b;
    }
  }

  /** Replacing one line changes the totals by exactly that line's difference. */
  lemma {:induction false} SubtotalUpdate(cart: seq<CartItem>, k: int, line: CartItem)
    requires 0 <= k < |cart|
    ensures Subtotal(cart[k := line]) == Subtotal(cart) - LineTotal(cart[k]) + LineTotal(line)
    ensures ItemCount(cart[k := line]) == ItemCount(cart) - cart[k].quantity + line.quantity
    decreases |cart|
  {
    if k > 0 {
      SubtotalUpdate(cart[1..], k - 1, line);
      assert cart[k := line][1..] == cart[1..][k - 1 := line];
    }
  }

  /** A valid cart holds at least one unit per line, so a non-empty cart always
      yields an order with at least one item. */
  lemma {:induction false} ItemCountAtLeastLines(cart: seq<CartItem>)
    requires forall i :: 0 <= i < |cart| ==> cart[i].quantity >= 1
    ensures ItemCount(cart) >= |cart|
    decreases |cart|
  {
    if cart != [] {
      assert cart[0].quantity >= 1;
      ItemCountAtLeastLines(cart[1..]);
    }
  }

  /** With non-negative prices the subtotal is non-negative. */
  lemma {:induction false} SubtotalNonNegative(cart: seq<CartItem>)
    requires forall i :: 0 <= i < |cart| ==> cart[i].product.price >= 0 && cart[i].quantity >= 1
    ensures Subtotal(cart) >= 0
    decreases |cart|
  {
    if cart != [] {
      SubtotalNonNegative(cart[1..]);
    }
  }

  /** The cart panel's example: 2 x 65.00 + 1 x 25.00 gives a subtotal of 155.00,
      VAT 21.70 and a total of 176.70. */
  lemma CartTotalsExample()
    ensures var cart := [CartItem(Product(1, "Pap en Vleis", 6500, "Main Dish", 42), 2),
                         CartItem(Product(2, "Moroho", 2500, "Side Dish", 38), 1)];
      Subtotal(cart) == 15500 && Vat(cart) == 2170.0 && GrandTotal(cart) == 17670.0
  {
  }

  // ---------------------------------------------------------------------------
  // Cart transitions

  function Incremented(cart: seq<CartItem>, id: int): (r: seq<CartItem>)
  {
    seq(|cart|, i requires 0 <= i < |cart| =>
      if cart[i].product.id == id then cart[i].(quantity := cart[i].quantity + 1) else cart[i])
  }

  /** `addToCart`: bump the line for this product, or append a new line. */
  function AddedToCart(cart: seq<CartItem>, product: Product): seq<CartItem>
  {
    if InCart(cart, product.id) then Incremented(cart, product.id)
    else cart + [CartItem(product, 1)]
  }

  /** A mapping that touches only lines with key `id` changes only line `k` when
      `k` is the one line with that key. */
  lemma OnlyLineWithId(cart: seq<CartItem>, k: int)
    requires UniqueBy(cart, LineId) && 0 <= k < |cart|
    ensures forall i :: 0 <= i < |cart| && i != k ==> cart[i].product.id != cart[k].product.id
  {
    forall i | 0 <= i < |cart| && i != k ensures cart[i].product.id != cart[k].product.id {
      if i < k {
        assert LineId(cart[i]) != LineId(cart[k]);
      } else {
        assert LineId(cart[k]) != LineId(cart[i]);
      }
    }
  }

  /** With distinct ids, bumping the lines for `cart[k]`'s id bumps line `k` only. */
  lemma IncrementedAt(cart: seq<CartItem>, k: int)
    requires UniqueBy(cart, LineId) && 0 <= k < |cart|
    ensures Incremented(cart, cart[k].product.id) ==
      cart[k := cart[k].(quantity := cart[k].quantity + 1)]
  {
    OnlyLineWithId(cart, k);
  }

  /** Changing the quantity of one line keeps the ids distinct. */
  lemma UpdateKeepsUnique(cart: seq<CartItem>, k: int, q: int)
    requires UniqueBy(cart, LineId) && 0 <= k < |cart|
    ensures UniqueBy(cart[k := cart[k].(quantity := q)], LineId)
  {
    var r := cart[k := cart[k].(quantity := q)];
    forall i, j | 0 <= i < j < |r| ensures LineId(r[i]) != LineId(r[j]) {
      assert LineId(r[i]) == LineId(cart[i]) && LineId(r[j]) == LineId(cart[j]);
    }
  }

  lemma LineTotalBump(line: CartItem)
    ensures LineTotal(line.(quantity := line.quantity + 1)) == LineTotal(line) + line.product.price
  {
    var p, q := line.product.price, line.quantity;
    assert p * (q + 1) == p * q + p;
  }

  /** Bumping line `k` of a valid cart keeps it valid and adds one unit of that
      line to the totals. */
  lemma BumpedLine(cart: seq<CartItem>, k: int)
    requires ValidCart(cart) && 0 <= k < |cart|
    ensures var r := cart[k := cart[k].(quantity := cart[k].quantity + 1)];
      && ValidCart(r)
      && Subtotal(r) == Subtotal(cart) + cart[k].product.price
      && ItemCount(r) == ItemCount(cart) + 1
  {
    UpdateKeepsUnique(cart, k, cart[k].quantity + 1);
    LineTotalBump(cart[k]);
    SubtotalUpdate(cart, k, cart[k].(quantity := cart[k].quantity + 1));
  }

  /** Adding a product already in the cart increments that line by exactly one,
      leaves every other line and the length alone, and raises the totals by
      one unit of that line. */
  lemma AddExisting(cart: seq<CartItem>, product: Product, k: int)
    requires ValidCart(cart) && 0 <= k < |cart| && cart[k].product.id == product.id
    ensures AddedToCart(cart, product) == cart[k := cart[k].(quantity := cart[k].quantity + 1)]
    ensures ValidCart(AddedToCart(cart, product))
    ensures Subtotal(AddedToCart(cart, product)) == Subtotal(cart) + cart[k].product.price
    ensures ItemCount(AddedToCart(cart, product)) == ItemCount(cart) + 1
  {
    assert InCart(cart, product.id);
    IncrementedAt(cart, k);
    BumpedLine(cart, k);
  }

  /** Adding a product not yet in the cart appends one line with quantity 1 at
      the end, keeps the ids distinct, and raises the totals by its price. */
  lemma AddNew(cart: seq<CartItem>, product: Product)
    requires ValidCart(cart) && !InCart(cart, product.id)
    ensures AddedToCart(cart, product) == cart + [CartItem(product, 1)]
    ensures ValidCart(AddedToCart(cart, product))
    ensures Subtotal(AddedToCart(cart, product)) == Subtotal(cart) + product.price
    ensures ItemCount(AddedToCart(cart, product)) == ItemCount(cart) + 1
  {
    var r := cart + [CartItem(product, 1)];
    SubtotalAppend(cart, [CartItem(product, 1)]);
    assert Subtotal([CartItem(product, 1)]) == product.price;
    assert UniqueBy(r, LineId) by {
      forall i, j | 0 <= i < j < |r| ensures LineId(r[i]) != LineId(r[j]) {
        if j == |cart| {
          assert r[i] == cart[i];
        } else {
          assert r[i] == cart[i] && r[j] == cart[j];
        }
      }
    }
  }

  /** Adding keeps the cart invariant whichever branch is taken. */
  lemma AddKeepsValid(cart: seq<CartItem>, product: Product)
    requires ValidCart(cart)
    ensures ValidCart(AddedToCart(cart, product))
    ensures |AddedToCart(cart, product)| == |cart| + (if InCart(cart, product.id) then 0 else 1)
  {
    if InCart(cart, product.id) {
      var k :| 0 <= k < |cart| && cart[k].product.id == product.id;
      AddExisting(cart, product, k);
    } else {
      AddNew(cart, product);
    }
  }

  /** `removeFromCart`: drop the lines for this product id. */
  function RemovedFromCart(cart: seq<CartItem>, id: int): seq<CartItem>
  {
    Filter(cart, KeyIsNot(LineId, id))
  }

  /** Removal drops exactly the lines with that id, keeps the others in order,
      keeps the invariant, and does nothing when the id is absent. */
  lemma RemoveProperties(cart: seq<CartItem>, id: int)
    requires ValidCart(cart)
    ensures var r := RemovedFromCart(cart, id);
      && IsSubsequence(r, cart)
      && !InCart(r, id)
      && (forall line :: line in cart && line.product.id != id ==> line in r)
      && ValidCart(r)
      && (!InCart(cart, id) ==> r == cart)
  {
    var keep := KeyIsNot(LineId, id);
    var r := Filter(cart, keep);
    FilterIsSubsequence(cart, keep);
    FilterKeepsUnique(cart, keep, LineId);
    forall i | 0 <= i < |r| ensures r[i].quantity >= 1 && r[i].product.id != id {
      assert r[i] in r;
      var j :| 0 <= j < |cart| && cart[j] == r[i];
    }
    if !InCart(cart, id) {
      FilterKeepsAll(cart, keep);
    }
  }

  function ClampedLine(line: CartItem, id: int, amount: int): CartItem
  {
    if line.product.id == id then
      line.(quantity := if line.quantity + amount > 1 then line.quantity + amount else 1)
    else line
  }

  /** The filter test at the end of `adjustQuantity`. */
  function PositiveQuantity(line: CartItem): bool
  {
    line.quantity > 0
  }

  /** `adjustQuantity`: set the matching line to `Math.max(1, quantity + amount)`,
      then drop lines whose quantity is not positive. */
  function Adjusted(cart: seq<CartItem>, id: int, amount: int): seq<CartItem>
  {
    Filter(seq(|cart|, i requires 0 <= i < |cart| => ClampedLine(cart[i], id, amount)),
           PositiveQuantity)
  }

  /** On a valid cart the final filter removes nothing: the matching line is set
      to max(1, q + amount), every other line is untouched, and the length, order
      and invariant are kept. */
  lemma AdjustProperties(cart: seq<CartItem>, id: int, amount: int)
    requires ValidCart(cart)
    ensures |Adjusted(cart, id, amount)| == |cart|
    ensures ValidCart(Adjusted(cart, id, amount))
    ensures forall k :: 0 <= k < |cart| && cart[k].product.id == id ==>
      Adjusted(cart, id, amount) == cart[k := cart[k].(quantity :=
        if cart[k].quantity + amount > 1 then cart[k].quantity + amount else 1)]
    ensures !InCart(cart, id) ==> Adjusted(cart, id, amount) == cart
  {
    var mapped := seq(|cart|, i requires 0 <= i < |cart| => ClampedLine(cart[i], id, amount));
    var keep := PositiveQuantity;
    forall line | line in mapped ensures keep(line) {
      var i :| 0 <= i < |mapped| && mapped[i] == line;
    }
    FilterKeepsAll(mapped, keep);
    assert Adjusted(cart, id, amount) == mapped;
    assert UniqueBy(mapped, LineId) by {
      forall i, j | 0 <= i < j < |mapped| ensures LineId(mapped[i]) != LineId(mapped[j]) {
        assert LineId(mapped[i]) == LineId(cart[i]) && LineId(mapped[j]) == LineId(cart[j]);
      }
    }
    forall k | 0 <= k < |cart| && cart[k].product.id == id
      ensures mapped == cart[k := ClampedLine(cart[k], id, amount)]
    {
      OnlyLineWithId(cart, k);
    }
    if !InCart(cart, id) {
      assert mapped == cart;
    }
  }

  /** Decrementing a line of two by five leaves one unit; the line stays. */
  lemma AdjustBelowOneExample()
    ensures var a := CartItem(Product(1, "Pap en Vleis", 6500, "Main Dish", 42), 2);
      Adjusted([a], 1, -5) == [a.(quantity := 1)]
  {
    var a := CartItem(Product(1, "Pap en Vleis", 6500, "Main Dish", 42), 2);
    AdjustProperties([a], 1, -5);
  }

  // ---------------------------------------------------------------------------
  // Checkout

  function OrderId(o: Order): int
  {
    o.id
  }

  /** Order ids are strictly increasing along the list, hence unique. */
  predicate IdsIncreasing(orders: seq<Order>)
  {
    forall i, j :: 0 <= i < j < |orders| ==> orders[i].id < orders[j].id
  }

  /** The order `checkout` builds; its total is the pre-VAT subtotal. */
  function NewOrder(cart: seq<CartItem>, orders: seq<Order>, customer: string): Order
  {
    Order(NextId(Keys(orders, OrderId)), customer, ItemCount(cart), Subtotal(cart), Preparing)
  }

  /** A new order gets an id above every existing one and starts as Preparing;
      appending it keeps the ids increasing; it records the item count and the
      subtotal, which falls short of the displayed total by exactly the VAT. */
  lemma NewOrderProperties(cart: seq<CartItem>, orders: seq<Order>, customer: string)
    requires ValidCart(cart) && cart != [] && IdsIncreasing(orders)
    ensures var o := NewOrder(cart, orders, customer);
      && o.status == Preparing
      && (forall i :: 0 <= i < |orders| ==> orders[i].id < o.id)
      && o.id == (if orders == [] then 1 else Seqs.MaxOrZero(Keys(orders, OrderId)) + 1)
      && IdsIncreasing(orders + [o])
      && o.items >= |cart| >= 1
      && o.total as real == GrandTotal(cart) - Vat(cart)
  {
    var o := NewOrder(cart, orders, customer);
    var ids := Keys(orders, OrderId);
    assert forall i :: 0 <= i < |orders| ==> ids[i] < o.id;
    ItemCountAtLeastLines(cart);
    var all := orders + [o];
    forall i, j | 0 <= i < j < |all| ensures all[i].id < all[j].id {
      if j == |orders| {
        assert all[i] == orders[i];
      } else {
        assert all[i] == orders[i] && all[j] == orders[j];
      }
    }
  }

  /** The seeded dashboard's first checkout is order #4. */
  lemma FirstCheckoutIsOrderFour(cart: seq<CartItem>, customer: string)
    ensures NewOrder(cart, SeedOrders, customer).id == 4
  {
    var ids := Keys(SeedOrders, OrderId);
    assert ids == [1, 2, 3];
    assert 3 in ids;
    assert MaxOrZero(ids) == 3;
  }

  /** After order #4 has been appended to the seeded orders, the next checkout is order #5. */
  lemma SecondCheckoutIsOrderFive(cart: seq<CartItem>, first: Order, customer: string)
    requires first.id == 4
    ensures NewOrder(cart, SeedOrders + [first], customer).id == 5
  {
    var ids := Keys(SeedOrders + [first], OrderId);
    assert ids == [1, 2, 3, 4];
    assert 4 in ids;
    assert MaxOrZero(ids) == 4;
  }

  /** The dashboard state: the cart and the current orders. */
  class Dashboard {
    var cart: seq<CartItem>
    var currentOrders: seq<Order>

    ghost predicate Valid()
      reads this
    {
      ValidCart(cart) && IdsIncreasing(currentOrders)
    }

    constructor ()
      ensures Valid()
      ensures cart == [] && currentOrders == SeedOrders
    {
      cart := [];
      currentOrders := SeedOrders;
    }

    method AddToCart(product: Product)
      requires Valid()
      modifies this
      ensures Valid()
      ensures cart == AddedToCart(old(cart), product)
      ensures currentOrders == old(currentOrders)
    {
      AddKeepsValid(cart, product);
      cart := AddedToCart(cart, product);
    }

    method RemoveFromCart(productId: int)
      requires Valid()
      modifies this
      ensures Valid()
      ensures cart == RemovedFromCart(old(cart), productId)
      ensures currentOrders == old(currentOrders)
    {
      RemoveProperties(cart, productId);
      cart := RemovedFromCart(cart, productId);
    }

    method AdjustQuantity(productId: int, amount: int)
      requires Valid()
      modifies this
      ensures Valid()
      ensures cart == Adjusted(old(cart), productId, amount)
      ensures |cart| == |old(cart)|
      ensures currentOrders == old(currentOrders)
    {
      AdjustProperties(cart, productId, amount);
      cart := Adjusted(cart, productId, amount);
    }

    /** `checkout`, with the random customer choice given as the index `pick`.
        An empty cart is refused and nothing changes; otherwise exactly one
        Preparing order is appended and the cart is emptied, together. */
    method Checkout(pick: nat) returns (placed: Option<Order>)
      requires Valid()
      requires pick < |CustomerNames|
      modifies this
      ensures Valid()
      ensures old(cart) == [] ==>
        placed == None && cart == old(cart) && currentOrders == old(currentOrders)
      ensures old(cart) != [] ==>
        && placed == Some(NewOrder(old(cart), old(currentOrders), CustomerNames[pick]))
        && currentOrders == old(currentOrders) + [placed.value]
        && cart == []
    {
      if cart == [] {
        return None;
      }
      var order := NewOrder(cart, currentOrders, CustomerNames[pick]);
      NewOrderProperties(cart, currentOrders, CustomerNames[pick]);
      currentOrders := currentOrders + [order];
      cart := [];
      placed := Some(order);
    }
  }

  /** A cashier's session on a fresh dashboard: two checkouts in a row are
      orders #4 and #5. */
  method TwoCheckouts(p: Product, q: Product) returns (firstId: int, secondId: int)
    ensures firstId == 4 && secondId == 5
  {
    var d := new Dashboard();
    d.AddToCart(p);
    var first := d.Checkout(0);
    d.AddToCart(q);
    d.AddToCart(q);
    var second := d.Checkout(3);
    assert first.Some? && second.Some?;
    FirstCheckoutIsOrderFour([CartItem(p, 1)], CustomerNames[0]);
    firstId := first.value.id;
    SecondCheckoutIsOrderFive([CartItem(q, 2)], first.value, CustomerNames[3]);
    secondId := second.value.id;
  }
}
