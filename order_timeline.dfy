/** The progress display of frontend/src/components/OrderTimeline.tsx: four
    steps in a fixed order, each completed or current depending on the
    order's status, or a single banner for a cancelled order. */
module OrderTimeline {
  import opened Types

  datatype Step = Step(status: string, title: string, completed: bool, current: bool)

  datatype TimelineView = CanceledBanner | Steps(steps: seq<Step>)

  /** The statuses of the steps, in display order. */
  const StepStatuses: seq<string> := [WaitingPayment, Paid, Shipped, Delivered]

  const InProgressNote: string := "Em andamento"

  /** The steps; the first three are completed when the status is one of
      the later steps, the last one when it is its own status. */
  function BuildSteps(status: string): (steps: seq<Step>)
    ensures |steps| == 4
    ensures forall i :: 0 <= i < 4 ==> steps[i].status == StepStatuses[i]
    ensures forall i :: 0 <= i < 4 ==> (steps[i].current <==> status == StepStatuses[i])
  {
    [Step(WaitingPayment, "Aguardando Pagamento", status in [Paid, Shipped, Delivered], status == WaitingPayment),
     Step(Paid, "Pagamento Confirmado", status in [Shipped, Delivered], status == Paid),
     Step(Shipped, "Produto Enviado", status in [Delivered], status == Shipped),
     Step(Delivered, "Produto Entregue", status == Delivered, status == Delivered)]
  }

  /** A cancelled order shows only the banner. */
  function Timeline(order: Order): (view: TimelineView)
    ensures view.CanceledBanner? <==> order.status == Canceled
    ensures view.Steps? ==> view.steps == BuildSteps(order.status)
  {
    if order.status == Canceled then CanceledBanner else Steps(BuildSteps(order.status))
  }

  /** "Em andamento" is printed under a step exactly when it is current. */
  function Note(step: Step): (note: seq<string>)
    ensures note != [] <==> step.current
  {
    if step.current then [InProgressNote] else []
  }

  /** At most one step is current. */
  lemma AtMostOneCurrent(status: string, i: nat, j: nat)
    requires i < j < 4
    ensures !(BuildSteps(status)[i].current && BuildSteps(status)[j].current)
  {
  }

  /** Each of the first three steps is completed iff the status is one of the
      steps after it; the last one iff the status is its own. */
  lemma CompletedIffLater(status: string, i: nat)
    requires i < 4
    ensures i < 3 ==> (BuildSteps(status)[i].completed <==> status in StepStatuses[i + 1..])
    ensures i == 3 ==> (BuildSteps(status)[i].completed <==> status == Delivered)
  {
    assert StepStatuses[1..] == [Paid, Shipped, Delivered];
    assert StepStatuses[2..] == [Shipped, Delivered];
    assert StepStatuses[3..] == [Delivered];
  }

  /** Completed steps form a prefix. */
  lemma CompletedIsPrefix(status: string, i: nat, j: nat)
    requires i < j < 4 && BuildSteps(status)[j].completed
    ensures BuildSteps(status)[i].completed
  {
  }

  /** A delivered order has every step completed and the last one current. */
  lemma DeliveredIsComplete(order: Order)
    requires order.status == Delivered
    ensures Timeline(order).Steps?
    ensures forall i :: 0 <= i < 4 ==> Timeline(order).steps[i].completed
    ensures Timeline(order).steps[3].current
  {
  }

  /** A status that is not one of the steps (an unknown string) marks nothing. */
  lemma UnknownStatusMarksNothing(status: string)
    requires status !in StepStatuses
    ensures forall i :: 0 <= i < 4 ==> !BuildSteps(status)[i].completed && !BuildSteps(status)[i].current
  {
    assert StepStatuses == [WaitingPayment, Paid, Shipped, Delivered];
  }
}
