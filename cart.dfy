/** The in-memory cart of frontend/src/contexts/CartContext.tsx: one list of
    product/quantity lines, replaced wholesale by each operation. The cart is
    not keyed by user and is not gated on login. */
module CartContext {
  import opened Common
  import opened Types

  /** A line holds the product snapshot taken when it was first added. */
  datatype CartLine = CartLine(product: Product, quantity: int)

  /** `items.find(item => item.product.id === id)` succeeds. */
  predicate HasLine(items: seq<CartLine>, id: int)
  {
    exists i :: 0 <= i < |items| && items[i].product.id == id
  }

  /** No two lines share a product id. */
  ghost predicate UniqueIds(items: seq<CartLine>)
  {
    forall i, j :: 0 <= i < j < |items| ==> items[i].product.id != items[j].product.id
  }

  ghost predicate AllPositive(items: seq<CartLine>)
  {
    forall i :: 0 <= i < |items| ==> items[i].quantity >= 1
  }

  // ---------------------------------------------------------------------
  // The list transformations handed to setItems
  // ---------------------------------------------------------------------

  /** addItem: bump every line of that product, or append a new line. */
  function AddLine(items: seq<CartLine>, product: Product, quantity: int): (r: seq<CartLine>)
    ensures HasLine(r, product.id)
    ensures |r| == if HasLine(items, product.id) then |items| else |items| + 1
    ensures forall i :: 0 <= i < |items| && items[i].product.id != product.id ==> r[i] == items[i]
  {
    if HasLine(items, product.id) then
      var r := seq(|items|, i requires 0 <= i < |items| =>
        if items[i].product.id == product.id
        then items[i].(quantity := items[i].quantity + quantity)
        else items[i]);
      var k :| 0 <= k < |items| && items[k].product.id == product.id;
      assert r[k].product.id == product.id;
      r
    else
      var r := items + [CartLine(product, quantity)];
      assert r[|items|].product.id == product.id;
      r
  }

  /** removeItem: keep the lines of every other product. */
  function RemoveLine(items: seq<CartLine>, id: int): (r: seq<CartLine>)
    ensures !HasLine(r, id)
    ensures |r| <= |items|
  {
    var r := Filter(items, (l: CartLine) => l.product.id != id);
    FilterMembers(items, (l: CartLine) => l.product.id != id);
    r
  }

  /** The non-removing branch of updateQuantity: set every matching line. */
  function SetQuantity(items: seq<CartLine>, id: int, quantity: int): (r: seq<CartLine>)
    ensures |r| == |items|
    ensures forall i :: 0 <= i < |items| ==> r[i].product == items[i].product
  {
    seq(|items|, i requires 0 <= i < |items| =>
      if items[i].product.id == id then items[i].(quantity := quantity) else items[i])
  }

  /** updateQuantity: a quantity at or below zero removes the line. */
  function UpdateLine(items: seq<CartLine>, id: int, quantity: int): (r: seq<CartLine>)
    ensures quantity <= 0 ==> !HasLine(r, id)
    ensures quantity > 0 ==> |r| == |items|
  {
    if quantity <= 0 then RemoveLine(items, id) else SetQuantity(items, id, quantity)
  }

  /** totalItems: items.reduce((sum, item) => sum + item.quantity, 0). */
  function SumQuantities(items: seq<CartLine>): (r: int)
    ensures items == [] ==> r == 0
    ensures AllPositive(items) ==> r >= |items|
  {
    if items == [] then 0 else SumQuantities(items[..|items| - 1]) + items[|items| - 1].quantity
  }

  /** totalPrice in cents: items.reduce((sum, item) => sum + price * quantity, 0). */
  function SumPrices(items: seq<CartLine>): (r: int)
    ensures items == [] ==> r == 0
    ensures (forall i :: 0 <= i < |items| ==> items[i].product.price >= 0 && items[i].quantity >= 0) ==> r >= 0
  {
    if items == [] then 0 else SumPrices(items[..|items| - 1]) + LineTotal(items[|items| - 1])
  }

  /** item.product.price * item.quantity */
  function LineTotal(line: CartLine): (r: int)
    ensures line.product.price >= 0 && line.quantity >= 0 ==> r >= 0
  {
    line.product.price * line.quantity
  }

  /** Bumping a line's quantity adds the bump times the snapshot price. */
  lemma LineTotalBump(line: CartLine, extra: int)
    ensures LineTotal(line.(quantity := line.quantity + extra))
      == LineTotal(line) + LineTotal(line.(quantity := extra))
  {
    var p, q := line.product.price, line.quantity;
    assert p * (q + extra) == p * q + p * extra;
  }

  // ---------------------------------------------------------------------
  // Properties of the transformations
  // ---------------------------------------------------------------------

  /** Adding a product that already has a line bumps that line and adds none. */
  lemma AddExistingIncrements(items: seq<CartLine>, k: nat, product: Product, quantity: int)
    requires UniqueIds(items) && k < |items| && items[k].product.id == product.id
    ensures AddLine(items, product, quantity)
      == items[k := CartLine(items[k].product, items[k].quantity + quantity)]
  {
    assert HasLine(items, product.id);
  }

  /** Adding a product without a line appends exactly one line at the end. */
  lemma AddNewAppends(items: seq<CartLine>, product: Product, quantity: int)
    requires !HasLine(items, product.id)
    ensures AddLine(items, product, quantity) == items + [CartLine(product, quantity)]
  {
  }

  lemma AddKeepsUnique(items: seq<CartLine>, product: Product, quantity: int)
    requires UniqueIds(items)
    ensures UniqueIds(AddLine(items, product, quantity))
  {
    var r := AddLine(items, product, quantity);
    if !HasLine(items, product.id) {
      forall i, j | 0 <= i < j < |r| ensures r[i].product.id != r[j].product.id {
        if j == |items| {
          assert !(items[i].product.id == product.id);
        }
      }
    }
  }

  lemma RemoveKeepsUnique(items: seq<CartLine>, id: int)
    requires UniqueIds(items)
    ensures UniqueIds(RemoveLine(items, id))
  {
    var key := (l: CartLine) => l.product.id;
    assert DistinctBy(items, key);
    FilterKeepsDistinct(items, (l: CartLine) => l.product.id != id, key);
    assert DistinctBy(RemoveLine(items, id), key);
  }

  lemma UpdateKeepsUnique(items: seq<CartLine>, id: int, quantity: int)
    requires UniqueIds(items)
    ensures UniqueIds(UpdateLine(items, id, quantity))
  {
    if quantity <= 0 {
      RemoveKeepsUnique(items, id);
    }
  }

  /** Removing a product that has no line leaves the cart as it was. */
  lemma RemoveAbsentIsNoOp(items: seq<CartLine>, id: int)
    requires !HasLine(items, id)
    ensures RemoveLine(items, id) == items
  {
    FilterKeepsAll(items, (l: CartLine) => l.product.id != id);
  }

  /** Removing a product that has a line deletes exactly that line. */
  lemma RemoveDeletesLine(items: seq<CartLine>, k: nat)
    requires UniqueIds(items) && k < |items|
    ensures RemoveLine(items, items[k].product.id) == items[..k] + items[k + 1..]
  {
    FilterRemovesOne(items, k, (l: CartLine) => l.product.id != items[k].product.id);
  }

  /** updateQuantity with a quantity at or below zero is removeItem. */
  lemma UpdateNonPositiveIsRemove(items: seq<CartLine>, id: int, quantity: int)
    requires quantity <= 0
    ensures UpdateLine(items, id, quantity) == RemoveLine(items, id)
  {
  }

  /** updateQuantity with a positive quantity sets that one line's quantity. */
  lemma UpdatePositiveSets(items: seq<CartLine>, k: nat, quantity: int)
    requires UniqueIds(items) && k < |items| && quantity > 0
    ensures UpdateLine(items, items[k].product.id, quantity)
      == items[k := CartLine(items[k].product, quantity)]
  {
  }

  /** updateQuantity on a product without a line changes nothing. */
  lemma UpdateAbsentIsNoOp(items: seq<CartLine>, id: int, quantity: int)
    requires !HasLine(items, id)
    ensures UpdateLine(items, id, quantity) == items
  {
    if quantity <= 0 {
      RemoveAbsentIsNoOp(items, id);
    } else {
      assert SetQuantity(items, id, quantity) == items;
    }
  }

  lemma {:induction false} SumQuantitiesAppend(items: seq<CartLine>, line: CartLine)
    ensures SumQuantities(items + [line]) == SumQuantities(items) + line.quantity
  {
    assert (items + [line])[..|items|] == items;
  }

  /** Changing one line's quantity moves the total by the difference. */
  lemma {:induction false} SumQuantitiesUpdate(items: seq<CartLine>, k: nat, line: CartLine)
    requires k < |items|
    ensures SumQuantities(items[k := line]) == SumQuantities(items) - items[k].quantity + line.quantity
    decreases |items|
  {
    var n := |items| - 1;
    if k < n {
      assert items[k := line][..n] == items[..n][k := line];
      SumQuantitiesUpdate(items[..n], k, line);
    } else {
      assert items[k := line][..n] == items[..n];
    }
  }

  lemma {:induction false} SumPricesUpdate(items: seq<CartLine>, k: nat, line: CartLine)
    requires k < |items|
    ensures SumPrices(items[k := line])
      == SumPrices(items) - LineTotal(items[k]) + LineTotal(line)
    decreases |items|
  {
    var n := |items| - 1;
    if k < n {
      assert items[k := line][..n] == items[..n][k := line];
      SumPricesUpdate(items[..n], k, line);
    } else {
      assert items[k := line][..n] == items[..n];
    }
  }

  /** totalItems grows by exactly the added quantity. */
  lemma TotalItemsAfterAdd(items: seq<CartLine>, product: Product, quantity: int)
    requires UniqueIds(items)
    ensures SumQuantities(AddLine(items, product, quantity)) == SumQuantities(items) + quantity
  {
    if HasLine(items, product.id) {
      var k :| 0 <= k < |items| && items[k].product.id == product.id;
      AddExistingIncrements(items, k, product, quantity);
      SumQuantitiesUpdate(items, k, CartLine(items[k].product, items[k].quantity + quantity));
    } else {
      SumQuantitiesAppend(items, CartLine(product, quantity));
    }
  }

  /** totalPrice grows by the quantity times the price of the line's snapshot:
      a line already in the cart keeps the price it was first added with,
      whatever price the product being added now carries. */
  lemma TotalPriceAfterAddExisting(items: seq<CartLine>, k: nat, product: Product, quantity: int)
    requires UniqueIds(items) && k < |items| && items[k].product.id == product.id
    ensures SumPrices(AddLine(items, product, quantity))
      == SumPrices(items) + LineTotal(CartLine(items[k].product, quantity))
  {
    AddExistingIncrements(items, k, product, quantity);
    SumPricesBump(items, k, quantity);
  }

  lemma SumPricesBump(items: seq<CartLine>, k: nat, extra: int)
    requires k < |items|
    ensures SumPrices(items[k := CartLine(items[k].product, items[k].quantity + extra)])
      == SumPrices(items) + LineTotal(CartLine(items[k].product, extra))
  {
    var line := items[k].(quantity := items[k].quantity + extra);
    SumPricesUpdate(items, k, line);
    LineTotalBump(items[k], extra);
  }

  /** A product without a line adds its own price times the quantity. */
  lemma TotalPriceAfterAddNew(items: seq<CartLine>, product: Product, quantity: int)
    requires !HasLine(items, product.id)
    ensures SumPrices(AddLine(items, product, quantity)) == SumPrices(items) + LineTotal(CartLine(product, quantity))
  {
    SumPricesAppend(items, CartLine(product, quantity));
  }

  lemma SumPricesAppend(items: seq<CartLine>, line: CartLine)
    ensures SumPrices(items + [line]) == SumPrices(items) + LineTotal(line)
  {
    assert (items + [line])[..|items|] == items;
  }

  /** Positive quantities stay positive under add (with a positive amount),
      remove and update; addItem itself never checks its quantity. */
  lemma AddKeepsPositive(items: seq<CartLine>, product: Product, quantity: int)
    requires AllPositive(items) && quantity >= 1
    ensures AllPositive(AddLine(items, product, quantity))
  {
  }

  lemma RemoveKeepsPositive(items: seq<CartLine>, id: int)
    requires AllPositive(items)
    ensures AllPositive(RemoveLine(items, id))
  {
    FilterMembers(items, (l: CartLine) => l.product.id != id);
  }

  lemma UpdateKeepsPositive(items: seq<CartLine>, id: int, quantity: int)
    requires AllPositive(items)
    ensures AllPositive(UpdateLine(items, id, quantity))
  {
    if quantity <= 0 {
      RemoveKeepsPositive(items, id);
    }
  }

  /** addItem with a quantity of zero or less creates a line that is not positive. */
  lemma AddNonPositiveBreaksPositivity(product: Product, quantity: int)
    requires quantity <= 0
    ensures !AllPositive(AddLine([], product, quantity))
  {
    assert AddLine([], product, quantity)[0].quantity == quantity;
  }

  // ---------------------------------------------------------------------
  // The provider's state cell
  // ---------------------------------------------------------------------

  class CartStore {
    var items: seq<CartLine>

    ghost predicate Valid()
      reads this
    {
      UniqueIds(items)
    }

    /** useState<CartItem[]>([]) */
    constructor ()
      ensures Valid() && items == []
    {
      items := [];
    }

    /** The badge count: at least one per line while every quantity is positive. */
    function TotalItems(): (r: int)
      reads this
      ensures items == [] ==> r == 0
      ensures AllPositive(items) ==> r >= |items|
    {
      SumQuantities(items)
    }

    /** The cart total: never negative while prices and quantities are not. */
    function TotalPrice(): (r: int)
      reads this
      ensures items == [] ==> r == 0
      ensures (forall i :: 0 <= i < |items| ==> items[i].product.price >= 0 && items[i].quantity >= 0) ==> r >= 0
    {
      SumPrices(items)
    }

    method AddItem(product: Product, quantity: int)
      requires Valid()
      modifies this
      ensures Valid()
      ensures items == AddLine(old(items), product, quantity)
      ensures TotalItems() == old(TotalItems()) + quantity
    {
      AddKeepsUnique(items, product, quantity);
      TotalItemsAfterAdd(items, product, quantity);
      items := AddLine(items, product, quantity);
    }

    /** `addItem(product)`, as the product card calls it: the quantity takes
        its default of 1, so the count rises by one and positive lines stay
        positive. */
    method AddOne(product: Product)
      requires Valid()
      modifies this
      ensures Valid()
      ensures items == AddLine(old(items), product, 1)
      ensures TotalItems() == old(TotalItems()) + 1
      ensures old(AllPositive(items)) ==> AllPositive(items)
    {
      if AllPositive(items) {
        AddKeepsPositive(items, product, 1);
      }
      AddItem(product, 1);
    }

    method RemoveItem(productId: int)
      requires Valid()
      modifies this
      ensures Valid()
      ensures items == RemoveLine(old(items), productId)
    {
      RemoveKeepsUnique(items, productId);
      items := RemoveLine(items, productId);
    }

    method UpdateQuantity(productId: int, quantity: int)
      requires Valid()
      modifies this
      ensures Valid()
      ensures items == UpdateLine(old(items), productId, quantity)
    {
      if quantity <= 0 {
        RemoveItem(productId);
        return;
      }
      UpdateKeepsUnique(items, productId, quantity);
      items := SetQuantity(items, productId, quantity);
    }

    method ClearCart()
      modifies this
      ensures Valid() && items == []
      ensures TotalItems() == 0 && TotalPrice() == 0
    {
      items := [];
    }
  }

  /** The totals of a one-line cart are that line's quantity and total. */
  lemma SingleLineTotals(line: CartLine)
    ensures SumQuantities([line]) == line.quantity && SumPrices([line]) == LineTotal(line)
  {
    assert [line][..0] == [];
  }

  /** Adding product 10 at 50.00 twice leaves one line of quantity 2. */
  lemma AddTwiceScenario(p: Product)
    requires p.id == 10 && p.price == 5000
    ensures var twice := AddLine(AddLine([], p, 1), p, 1);
            twice == [CartLine(p, 2)] && SumQuantities(twice) == 2 && SumPrices(twice) == 10000
  {
    var once := AddLine([], p, 1);
    assert once == [CartLine(p, 1)] by {
      AddNewAppends([], p, 1);
    }
    assert AddLine(once, p, 1) == [CartLine(p, 2)] by {
      AddExistingIncrements(once, 0, p, 1);
    }
    SingleLineTotals(CartLine(p, 2));
  }

  /** Setting that line to 5 and then removing product 10 empties the cart. */
  lemma UpdateRemoveScenario(p: Product)
    requires p.id == 10 && p.price == 5000
    ensures var five := UpdateLine([CartLine(p, 2)], 10, 5);
            five == [CartLine(p, 5)] && SumQuantities(five) == 5 && SumPrices(five) == 25000 &&
            RemoveLine(five, 10) == []
  {
    UpdatePositiveSets([CartLine(p, 2)], 0, 5);
    SingleLineTotals(CartLine(p, 5));
    RemoveDeletesLine([CartLine(p, 5)], 0);
  }

  /** Adding product 10 at 50.00 twice, setting it to 5, then removing it. */
  lemma AddUpdateRemoveScenario(p: Product)
    requires p.id == 10 && p.price == 5000
    ensures var once := AddLine([], p, 1);
            var twice := AddLine(once, p, 1);
            SumQuantities(twice) == 2 && SumPrices(twice) == 10000 && |twice| == 1 &&
            var five := UpdateLine(twice, 10, 5);
            SumQuantities(five) == 5 && SumPrices(five) == 25000 &&
            RemoveLine(five, 10) == []
  {
    AddTwiceScenario(p);
    UpdateRemoveScenario(p);
  }

}
