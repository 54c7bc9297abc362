/** OrderService: placing an order for the authenticated user, priced from
    the product catalogue, and reading one back behind the self-or-admin
    check. The order repository is a map from id to order; the clock and
    the authenticated user are inputs. */
module OrderPlacement {
  import opened Common
  import opened ProductDtos
  import opened ServiceErrors
  import Checkout
  import CartContext
  import Types
  import Permissions

  datatype OrderStatus = WaitingPayment | Paid | Shipped | Delivered | Canceled

  /** One requested line; `productId` and `price` are null when the client
      leaves them out. */
  datatype OrderItemDto = OrderItemDto(productId: Option<int>, quantity: int, price: Option<int>)

  datatype OrderItemEntity = OrderItemEntity(productId: int, quantity: int, price: Option<int>)

  datatype OrderEntity = OrderEntity(
    id: int,
    moment: int,
    status: OrderStatus,
    clientId: int,
    items: seq<OrderItemEntity>)

  /** Every requested line names a product the catalogue holds, so each
      `getReferenceById` can be read. */
  predicate Resolvable(requested: seq<OrderItemDto>, catalogue: map<int, ProductEntity>)
  {
    forall i :: 0 <= i < |requested| ==>
      requested[i].productId.Some? && requested[i].productId.value in catalogue
  }

  function ItemFor(line: OrderItemDto, catalogue: map<int, ProductEntity>): OrderItemEntity
    requires line.productId.Some? && line.productId.value in catalogue
  {
    OrderItemEntity(line.productId.value, line.quantity, catalogue[line.productId.value].price)
  }

  /** The order's items: one per requested line, in order, with the
      requested quantity and the catalogue's price. */
  function ItemsFor(requested: seq<OrderItemDto>, catalogue: map<int, ProductEntity>): (items: seq<OrderItemEntity>)
    requires Resolvable(requested, catalogue)
    ensures |items| == |requested|
    ensures forall i :: 0 <= i < |items| ==>
      Some(items[i].productId) == requested[i].productId && items[i].quantity == requested[i].quantity
  {
    seq(|requested|, i requires 0 <= i < |requested| => ItemFor(requested[i], catalogue))
  }

  /** Prices come from the stored products: what the client sends as a
      price never reaches the order. */
  lemma PriceComesFromCatalogue(requested: seq<OrderItemDto>, catalogue: map<int, ProductEntity>, i: nat)
    requires Resolvable(requested, catalogue) && i < |requested|
    ensures ItemsFor(requested, catalogue)[i].price == catalogue[requested[i].productId.value].price
  {
  }

  /** Two requests that differ only in their prices produce the same items. */
  lemma ClientPriceIgnored(a: seq<OrderItemDto>, b: seq<OrderItemDto>, catalogue: map<int, ProductEntity>)
    requires Resolvable(a, catalogue) && |a| == |b|
    requires forall i :: 0 <= i < |a| ==> a[i].productId == b[i].productId && a[i].quantity == b[i].quantity
    ensures Resolvable(b, catalogue)
    ensures ItemsFor(a, catalogue) == ItemsFor(b, catalogue)
  {
    assert forall i :: 0 <= i < |a| ==> ItemsFor(a, catalogue)[i] == ItemsFor(b, catalogue)[i];
  }

  /** The JSON body the checkout page sends, read as the server's DTO. */
  function FromPayload(payload: seq<Checkout.PayloadItem>): (requested: seq<OrderItemDto>)
    ensures |requested| == |payload|
    ensures forall i :: 0 <= i < |payload| ==> requested[i].productId == payload[i].productId
  {
    seq(|payload|, i requires 0 <= i < |payload| =>
      OrderItemDto(payload[i].productId, payload[i].quantity, payload[i].price))
  }

  /** The checkout payload as written can never be placed: its first line
      names no product. */
  lemma AsWrittenCheckoutUnresolvable(cart: seq<CartContext.CartLine>, catalogue: map<int, ProductEntity>)
    requires cart != []
    ensures !Resolvable(FromPayload(Checkout.PayloadAsWritten(cart)), catalogue)
  {
    assert FromPayload(Checkout.PayloadAsWritten(cart))[0].productId.None?;
  }

  /** The corrected payload is placed whenever the catalogue holds every
      product in the cart, line for line and at catalogue prices. */
  lemma CheckoutPayloadPlaces(cart: seq<CartContext.CartLine>, catalogue: map<int, ProductEntity>)
    requires forall i :: 0 <= i < |cart| ==> cart[i].product.id in catalogue
    ensures Resolvable(FromPayload(Checkout.Payload(cart)), catalogue)
    ensures forall i :: 0 <= i < |cart| ==>
      ItemsFor(FromPayload(Checkout.Payload(cart)), catalogue)[i]
        == OrderItemEntity(cart[i].product.id, cart[i].quantity, catalogue[cart[i].product.id].price)
  {
  }

  /** validateSelfOrAdmin: the order's own client or an administrator. */
  function SelfOrAdmin(clientId: int, currentUserId: int, currentIsAdmin: bool): (r: bool)
    ensures currentIsAdmin ==> r
    ensures clientId == currentUserId ==> r
    ensures !currentIsAdmin && clientId != currentUserId ==> !r
  {
    currentIsAdmin || clientId == currentUserId
  }

  /** The storefront's `canViewOrder` never shows an order the backend
      would refuse: it asks for a role besides what the backend checks. */
  lemma FrontendGateWithinBackendCheck(user: Types.User, order: Types.Order)
    requires Permissions.CanViewOrder(Some(user), order)
    ensures SelfOrAdmin(order.client.id, user.id, Permissions.HasRole(Some(user), Types.AdminRole))
  {
  }

  /** The converse fails: a user holding no role is refused by the
      storefront but passes the backend check on an order of their own. */
  lemma RolelessOwnerOnlyBackend(user: Types.User, order: Types.Order)
    requires user.roles == [] && order.client.id == user.id
    ensures !Permissions.CanViewOrder(Some(user), order)
    ensures SelfOrAdmin(order.client.id, user.id, Permissions.HasRole(Some(user), Types.AdminRole))
  {
  }

  class OrderService {
    var orders: map<int, OrderEntity>
    /** The id the repository assigns to the next saved order. */
    var nextId: int

    ghost predicate Valid()
      reads this
    {
      (forall id :: id in orders ==> orders[id].id == id) &&
      (forall id :: id in orders ==> id < nextId)
    }

    constructor ()
      ensures orders == map[] && Valid()
    {
      orders := map[];
      nextId := 1;
    }

    /** findById: ResourceNotFound for an unknown id, Forbidden when the
        current user is neither the order's client nor an administrator. */
    function FindById(id: int, currentUserId: int, currentIsAdmin: bool): (r: Result<OrderEntity, ServiceError>)
      reads this
      ensures id !in orders ==> r == Err(ResourceNotFound(NotFoundText))
      ensures r.Ok? <==> id in orders && SelfOrAdmin(orders[id].clientId, currentUserId, currentIsAdmin)
      ensures r.Ok? ==> r.value == orders[id]
      ensures id in orders && r.Err? ==> r.error == Forbidden
    {
      if id !in orders then Err(ResourceNotFound(NotFoundText))
      else if !SelfOrAdmin(orders[id].clientId, currentUserId, currentIsAdmin) then Err(Forbidden)
      else Ok(orders[id])
    }

    /** insert: a WAITING_PAYMENT order at `now` for the authenticated
        client, one item per requested line priced from the catalogue. A
        line whose product is null or unknown fails the whole transaction,
        and nothing is saved. */
    method Insert(requested: seq<OrderItemDto>, now: int, clientId: int, catalogue: map<int, ProductEntity>)
      returns (r: Result<OrderEntity, ServiceError>)
      requires Valid()
      modifies this
      ensures Valid()
      ensures r.Ok? <==> Resolvable(requested, catalogue)
      ensures r.Ok? ==> r.value == OrderEntity(old(nextId), now, WaitingPayment, clientId, ItemsFor(requested, catalogue))
      ensures r.Ok? ==> old(nextId) !in old(orders) && orders == old(orders)[old(nextId) := r.value]
      ensures r.Err? ==> r.error == InvalidReference && orders == old(orders) && nextId == old(nextId)
    {
      var items: seq<OrderItemEntity> := [];
      for i := 0 to |requested|
        invariant Resolvable(requested[..i], catalogue)
        invariant items == ItemsFor(requested[..i], catalogue)
      {
        var line := requested[i];
        if line.productId.None? || line.productId.value !in catalogue {
          r := Err(InvalidReference);
          return;
        }
        items := items + [ItemFor(line, catalogue)];
        assert requested[..i + 1] == requested[..i] + [line];
      }
      assert requested[..|requested|] == requested;
      var order := OrderEntity(nextId, now, WaitingPayment, clientId, items);
      orders := orders[nextId := order];
      nextId := nextId + 1;
      r := Ok(order);
    }
  }
}
