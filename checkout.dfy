/** The checkout page of frontend/src/app/checkout/page.tsx: the redirect
    guards and the order submission. The order-creation call is an input
    (the id of the created order, or a failure). */
module Checkout {
  import opened Common
  import opened Types
  import opened CartContext
  import opened Toasts

  const LoginRedirect: string := "/login?redirect=/checkout"
  const CartPath: string := "/cart"
  const OrdersPrefix: string := "/orders/"
  const ErrorTitle: string := "Erro"
  const ErrorMessage: string := "Erro ao processar pedido. Tente novamente."
  const SuccessTitle: string := "Pedido Realizado!"

  /** The effect's navigation: login first, then a non-empty cart. */
  function RedirectFor(user: Option<User>, items: seq<CartLine>): (path: Option<string>)
    ensures user.None? ==> path == Some(LoginRedirect)
    ensures user.Some? && items == [] ==> path == Some(CartPath)
    ensures path.None? <==> user.Some? && items != []
  {
    if user.None? then Some(LoginRedirect)
    else if |items| == 0 then Some(CartPath)
    else None
  }

  /** One entry of the order payload. A field that is undefined on the
      client is dropped from the request body, hence optional. */
  datatype PayloadItem = PayloadItem(productId: Option<int>, quantity: int, price: Option<int>)

  /** The payload as written: `item.id` and `item.price` do not exist on a
      `{product, quantity}` line, so only the quantity reaches the server. */
  function PayloadAsWritten(items: seq<CartLine>): (payload: seq<PayloadItem>)
    ensures |payload| == |items|
    ensures forall i :: 0 <= i < |items| ==>
      payload[i].productId.None? && payload[i].price.None? && payload[i].quantity == items[i].quantity
  {
    seq(|items|, i requires 0 <= i < |items| => PayloadItem(None, items[i].quantity, None))
  }

  /** The payload read from the line's product, as evidently intended. */
  function Payload(items: seq<CartLine>): (payload: seq<PayloadItem>)
    ensures |payload| == |items|
    ensures forall i :: 0 <= i < |items| ==>
      payload[i] == PayloadItem(Some(items[i].product.id), items[i].quantity, Some(items[i].product.price))
  {
    seq(|items|, i requires 0 <= i < |items| =>
      PayloadItem(Some(items[i].product.id), items[i].quantity, Some(items[i].product.price)))
  }

  /** As written, a non-empty cart yields a payload naming no product. */
  lemma PayloadAsWrittenNamesNoProduct(items: seq<CartLine>)
    requires items != []
    ensures PayloadAsWritten(items)[0].productId.None?
    ensures Payload(items)[0].productId == Some(items[0].product.id)
  {
  }

  /** The corrected payload keeps the cart's order and can be read back into
      the product ids, so distinct lines are sent as distinct entries. */
  lemma PayloadKeepsProducts(items: seq<CartLine>)
    ensures forall i :: 0 <= i < |items| ==> Payload(items)[i].productId == Some(items[i].product.id)
    ensures UniqueIds(items) ==> forall i, j :: 0 <= i < j < |items| ==> Payload(items)[i] != Payload(items)[j]
  {
  }

  function SuccessMessage(orderId: int): string
  {
    "Seu pedido #" + IntToString(orderId) + " foi criado com sucesso."
  }

  function SuccessToast(orderId: int): ToastDraft
  {
    ToastDraft(Success, SuccessTitle, Some(SuccessMessage(orderId)), None)
  }

  const ErrorToast: ToastDraft := ToastDraft(Error, ErrorTitle, Some(ErrorMessage), None)

  /** Distinct orders are announced and navigated to under distinct paths. */
  lemma OrderPathInjective(a: int, b: int)
    ensures OrdersPrefix + IntToString(a) == OrdersPrefix + IntToString(b) ==> a == b
  {
    if OrdersPrefix + IntToString(a) == OrdersPrefix + IntToString(b) {
      assert IntToString(a) == (OrdersPrefix + IntToString(a))[|OrdersPrefix|..];
      assert IntToString(b) == (OrdersPrefix + IntToString(b))[|OrdersPrefix|..];
      IntToStringInjective(a, b);
    }
  }

  class CheckoutPage {
    var loading: bool

    constructor ()
      ensures !loading
    {
      loading := false;
    }

    /** handleSubmitOrder. `created` is the outcome of the create call: the
        new order's id, or the error it failed with; `toastId` is the id the
        toast provider draws for the toast raised. Returns the payload sent,
        if any, and the path navigated to, if any. */
    method HandleSubmitOrder(user: Option<User>, cart: CartStore, toasts: ToastStore,
                             created: Result<int, string>, toastId: string)
      returns (sent: Option<seq<PayloadItem>>, navigate: Option<string>)
      requires cart.Valid()
      modifies this, cart, toasts
      ensures cart.Valid()
      ensures user.None? || old(cart.items) == [] ==>
        sent.None? && navigate.None? && loading == old(loading) &&
        cart.items == old(cart.items) && toasts.toasts == old(toasts.toasts)
      ensures user.Some? && old(cart.items) != [] ==>
        sent == Some(Payload(old(cart.items))) && !loading
      ensures user.Some? && old(cart.items) != [] && created.Ok? ==>
        cart.items == [] &&
        navigate == Some(OrdersPrefix + IntToString(created.value)) &&
        toasts.toasts == AppendToast(old(toasts.toasts), SuccessToast(created.value), toastId)
      ensures user.Some? && old(cart.items) != [] && created.Err? ==>
        cart.items == old(cart.items) && navigate.None? &&
        toasts.toasts == AppendToast(old(toasts.toasts), ErrorToast, toastId)
    {
      sent, navigate := None, None;
      if user.None? || |cart.items| == 0 {
        return;
      }
      loading := true;
      var orderData := Payload(cart.items);
      sent := Some(orderData);
      match created {
        case Ok(orderId) =>
          var _ := toasts.AddToast(SuccessToast(orderId), toastId);
          cart.ClearCart();
          navigate := Some(OrdersPrefix + IntToString(orderId));
        case Err(_) =>
          var _ := toasts.AddToast(ErrorToast, toastId);
      }
      loading := false;
    }
  }
}
