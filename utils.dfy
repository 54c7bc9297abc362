/** getOrderStatusLabel of frontend/src/lib/utils.ts: a table lookup from
    order status to its Portuguese label, falling back to the status itself. */
module StatusLabels {
  import opened Types

  const Labels: map<string, string> := map[
    WaitingPayment := "Aguardando Pagamento",
    Paid := "Pago",
    Shipped := "Enviado",
    Delivered := "Entregue",
    Canceled := "Cancelado"]

  /** The label of a known status, any other string unchanged. */
  function GetOrderStatusLabel(status: string): (text: string)
    ensures IsKnownStatus(status) <==> status in Labels
    ensures IsKnownStatus(status) ==> text == Labels[status] && text != status
    ensures !IsKnownStatus(status) ==> text == status
  {
    if status in Labels then Labels[status] else status
  }

  lemma KnownLabels()
    ensures GetOrderStatusLabel(WaitingPayment) == "Aguardando Pagamento"
    ensures GetOrderStatusLabel(Paid) == "Pago"
    ensures GetOrderStatusLabel(Shipped) == "Enviado"
    ensures GetOrderStatusLabel(Delivered) == "Entregue"
    ensures GetOrderStatusLabel(Canceled) == "Cancelado"
  {
  }

  /** Distinct known statuses get distinct labels. */
  lemma LabelsInjectiveOnKnown(a: string, b: string)
    requires IsKnownStatus(a) && IsKnownStatus(b) && a != b
    ensures GetOrderStatusLabel(a) != GetOrderStatusLabel(b)
  {
  }

  /** Over all strings the mapping is not injective: an unknown string that
      happens to be a label collides with the status it labels. */
  lemma LabelCollision()
    ensures GetOrderStatusLabel("Pago") == GetOrderStatusLabel(Paid)
  {
    assert !IsKnownStatus("Pago");
  }
}
