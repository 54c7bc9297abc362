/** The quantity controls of frontend/src/components/CartItem.tsx: each
    button picks which cart operation to call and with which argument. */
module CartItemControls {
  import opened Common
  import opened Types
  import opened CartContext

  /** The cart call a button press makes. The product key is optional
      because the component reads `item.id`, which a `{product, quantity}`
      line does not have. */
  datatype CartCall = RemoveCall(key: Option<int>) | UpdateCall(key: Option<int>, quantity: int)

  /** The key the component passes as written: `item.id` is undefined. */
  const KeyAsWritten: Option<int> := None

  /** The key it evidently means: the line's product id. */
  function Key(line: CartLine): (key: Option<int>)
    ensures key.Some? && key.value == line.product.id
  {
    Some(line.product.id)
  }

  /** handleQuantityChange: a quantity at or below zero removes the line,
      any other quantity is passed on unchanged. */
  function QuantityChange(key: Option<int>, newQuantity: int): (call: CartCall)
    ensures call.key == key
    ensures call.RemoveCall? <==> newQuantity <= 0
    ensures call.UpdateCall? ==> call.quantity == newQuantity
  {
    if newQuantity <= 0 then RemoveCall(key) else UpdateCall(key, newQuantity)
  }

  /** The minus button asks for one less. */
  function Minus(line: CartLine, key: Option<int>): (call: CartCall)
    ensures call.RemoveCall? <==> line.quantity <= 1
    ensures call.UpdateCall? ==> call.quantity == line.quantity - 1
  {
    QuantityChange(key, line.quantity - 1)
  }

  /** The plus button asks for one more. */
  function Plus(line: CartLine, key: Option<int>): (call: CartCall)
    ensures call.UpdateCall? <==> line.quantity >= 0
    ensures call.UpdateCall? ==> call.quantity == line.quantity + 1
  {
    QuantityChange(key, line.quantity + 1)
  }

  /** The trash button removes the line whatever its quantity. */
  function Trash(key: Option<int>): (call: CartCall)
    ensures call.RemoveCall? && call.key == key
  {
    RemoveCall(key)
  }

  /** What the cart does with a call. With an undefined key, removeItem's
      filter `item.product.id !== undefined` keeps every line and
      updateQuantity's `item.product.id === undefined` matches none. */
  function Apply(items: seq<CartLine>, call: CartCall): seq<CartLine>
  {
    match call
    case RemoveCall(None) => items
    case UpdateCall(None, quantity) => items
    case RemoveCall(Some(id)) => RemoveLine(items, id)
    case UpdateCall(Some(id), quantity) => UpdateLine(items, id, quantity)
  }

  /** As written, no button press changes the cart. */
  lemma PressesAsWrittenAreNoOps(items: seq<CartLine>, line: CartLine)
    ensures Apply(items, Minus(line, KeyAsWritten)) == items
    ensures Apply(items, Plus(line, KeyAsWritten)) == items
    ensures Apply(items, Trash(KeyAsWritten)) == items
  {
  }

  /** As written, pressing minus on the only line, of quantity 1, leaves it in the cart. */
  lemma MinusOnOneAsWrittenKeepsLine(p: Product)
    ensures Apply([CartLine(p, 1)], Minus(CartLine(p, 1), KeyAsWritten)) == [CartLine(p, 1)]
  {
  }

  /** With the product id as key, pressing minus on a line of quantity 1
      deletes exactly that line. */
  lemma MinusOnOneDeletes(items: seq<CartLine>, k: nat)
    requires UniqueIds(items) && k < |items| && items[k].quantity == 1
    ensures Apply(items, Minus(items[k], Key(items[k]))) == items[..k] + items[k + 1..]
  {
    RemoveDeletesLine(items, k);
  }

  /** Pressing minus on a larger quantity lowers that line by one. */
  lemma MinusLowers(items: seq<CartLine>, k: nat)
    requires UniqueIds(items) && k < |items| && items[k].quantity > 1
    ensures Apply(items, Minus(items[k], Key(items[k])))
      == items[k := CartLine(items[k].product, items[k].quantity - 1)]
  {
    UpdatePositiveSets(items, k, items[k].quantity - 1);
  }

  /** Pressing plus raises that line by one. */
  lemma PlusRaises(items: seq<CartLine>, k: nat)
    requires UniqueIds(items) && k < |items| && items[k].quantity >= 1
    ensures Apply(items, Plus(items[k], Key(items[k])))
      == items[k := CartLine(items[k].product, items[k].quantity + 1)]
  {
    UpdatePositiveSets(items, k, items[k].quantity + 1);
  }

  /** The trash button deletes the line whatever its quantity. */
  lemma TrashDeletes(items: seq<CartLine>, k: nat)
    requires UniqueIds(items) && k < |items|
    ensures Apply(items, Trash(Key(items[k]))) == items[..k] + items[k + 1..]
  {
    RemoveDeletesLine(items, k);
  }

  /** A quantity change never calls updateQuantity with a quantity it would
      treat as a removal, so dispatching agrees with updateQuantity itself. */
  lemma QuantityChangeAgreesWithUpdate(items: seq<CartLine>, id: int, newQuantity: int)
    ensures Apply(items, QuantityChange(Some(id), newQuantity)) == UpdateLine(items, id, newQuantity)
  {
  }
}
