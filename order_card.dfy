/** The order summary card of frontend/src/components/OrderCard.tsx: the
    status badge, the item thumbnails and the actions under the details. */
module OrderCard {
  import opened Common
  import opened Types
  import StatusLabels

  datatype BadgeColor = WarningColor | InfoColor | SuccessColor | DangerColor

  datatype StatusIcon = Clock | CreditCard | Truck | CheckCircle | XCircle

  datatype StatusConfig = StatusConfig(color: BadgeColor, icon: StatusIcon, caption: string)

  const Configs: map<string, StatusConfig> := map[
    WaitingPayment := StatusConfig(WarningColor, Clock, "Aguardando Pagamento"),
    Paid := StatusConfig(InfoColor, CreditCard, "Pago"),
    Shipped := StatusConfig(InfoColor, Truck, "Enviado"),
    Delivered := StatusConfig(SuccessColor, CheckCircle, "Entregue"),
    Canceled := StatusConfig(DangerColor, XCircle, "Cancelado")]

  /** getStatusConfig: the table entry, or the WAITING_PAYMENT one. */
  function GetStatusConfig(status: string): (config: StatusConfig)
    ensures IsKnownStatus(status) ==> config == Configs[status]
    ensures !IsKnownStatus(status) ==> config == Configs[WaitingPayment]
  {
    if status in Configs then Configs[status] else Configs[WaitingPayment]
  }

  /** On the five statuses the badge agrees with getOrderStatusLabel; an
      unknown status reads "Aguardando Pagamento" here but itself there. */
  lemma BadgeAgreesWithLabels(status: string)
    ensures IsKnownStatus(status) ==> GetStatusConfig(status).caption == StatusLabels.GetOrderStatusLabel(status)
    ensures !IsKnownStatus(status) ==> GetStatusConfig(status).caption == "Aguardando Pagamento"
    ensures !IsKnownStatus(status) ==> StatusLabels.GetOrderStatusLabel(status) == status
  {
  }

  /** Each known status has its own label and icon. */
  lemma ConfigsDistinct(a: string, b: string)
    requires IsKnownStatus(a) && IsKnownStatus(b) && a != b
    ensures GetStatusConfig(a).caption != GetStatusConfig(b).caption
    ensures GetStatusConfig(a).icon != GetStatusConfig(b).icon
  {
  }

  /** "Pagar Agora" is offered only while payment is awaited. */
  function OffersPay(status: string): (r: bool)
    ensures r ==> IsKnownStatus(status) && OffersCancel(status)
  {
    status == WaitingPayment
  }

  /** "Cancelar Pedido" is offered until the order is paid. */
  function OffersCancel(status: string): (r: bool)
    ensures r ==> IsKnownStatus(status) && status != Shipped && status != Delivered && status != Canceled
  {
    status == WaitingPayment || status == Paid
  }

  /** Whatever offers payment also offers cancelling; a shipped, delivered or
      cancelled order offers neither. */
  lemma ActionsByStatus(status: string)
    ensures OffersPay(status) ==> OffersCancel(status)
    ensures status in {Shipped, Delivered, Canceled} ==> !OffersPay(status) && !OffersCancel(status)
  {
  }

  /** The actions the expanded details show. */
  function Actions(status: string, isExpanded: bool): (actions: seq<string>)
    ensures !isExpanded ==> actions == []
    ensures isExpanded ==> "Ver Detalhes Completos" in actions
    ensures "Pagar Agora" in actions <==> isExpanded && OffersPay(status)
    ensures "Cancelar Pedido" in actions <==> isExpanded && OffersCancel(status)
  {
    if !isExpanded then []
    else
      ["Ver Detalhes Completos"]
        + (if OffersPay(status) then ["Pagar Agora"] else [])
        + (if OffersCancel(status) then ["Cancelar Pedido"] else [])
  }

  /** `order.items.slice(0, 3)` */
  function Thumbnails<T>(items: seq<T>): (shown: seq<T>)
    ensures |shown| == Min(3, |items|) && shown <= items
  {
    if |items| <= 3 then items else items[..3]
  }

  /** The `+n` badge after the thumbnails. */
  function OverflowBadge<T>(items: seq<T>): (badge: Option<int>)
    ensures badge.Some? <==> |items| > 3
    ensures badge.Some? ==> badge.value >= 1 && |Thumbnails(items)| + badge.value == |items|
  {
    if |items| > 3 then Some(|items| - 3) else None
  }

  /** "item" for exactly one, "itens" otherwise, zero included. */
  function ItemWord(count: int): (word: string)
    ensures word == "item" <==> count == 1
  {
    if count == 1 then "item" else "itens"
  }

  /** The expand/collapse state of the details. */
  class DetailsToggle {
    var isExpanded: bool

    constructor ()
      ensures !isExpanded
    {
      isExpanded := false;
    }

    method Toggle()
      modifies this
      ensures isExpanded == !old(isExpanded)
    {
      isExpanded := !isExpanded;
    }
  }
}
