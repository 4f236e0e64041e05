/**
  The order lifecycle: which status changes are legal, and which orders may
  still be cancelled. Pure and stateless.
 */
module OrderStatusService {
  import opened Wrappers
  import opened OrderModel

  /** The adjacency table of the lifecycle: the statuses reachable in one step. */
  function Successors(s: OrderStatus): set<OrderStatus>
  {
    match s
    case CREATED => {PENDING, CANCELLED, PAID}
    case PENDING => {PAID, CANCELLED}
    case PAID => {PROCESSING, CANCELLED, REFUNDED}
    case PROCESSING => {SHIPPING, CANCELLED, REFUNDED}
    case SHIPPING => {DELIVERED, REFUNDED}
    case DELIVERED => {COMPLETED, REFUNDED}
    case COMPLETED => {REFUNDED}
    case CANCELLED => {REFUNDED}
    case REFUNDED => {}
  }

  /**
    `validateStatusTransition`: keeping the same status always passes; any
    other change passes exactly when the table allows it, and every rejection
    is an InvalidOrderState error. The result carries no order, so nothing
    is changed by the check.
   */
  function ValidateStatusTransition(current: OrderStatus, next: OrderStatus): (r: Result<()>)
    ensures current == next ==> r == Ok(())
    ensures r.Ok? <==> current == next || next in Successors(current)
    ensures r.Err? ==> r.error == InvalidOrderState
  {
    if current == next then Ok(())
    else match current
      case CREATED =>
        if next != PENDING && next != CANCELLED && next != PAID then Err(InvalidOrderState) else Ok(())
      case PENDING =>
        if next != PAID && next != CANCELLED then Err(InvalidOrderState) else Ok(())
      case PAID =>
        if next != PROCESSING && next != CANCELLED && next != REFUNDED then Err(InvalidOrderState) else Ok(())
      case PROCESSING =>
        if next != SHIPPING && next != CANCELLED && next != REFUNDED then Err(InvalidOrderState) else Ok(())
      case SHIPPING =>
        if next != DELIVERED && next != REFUNDED then Err(InvalidOrderState) else Ok(())
      case DELIVERED =>
        if next != COMPLETED && next != REFUNDED then Err(InvalidOrderState) else Ok(())
      case COMPLETED =>
        if next != REFUNDED then Err(InvalidOrderState) else Ok(())
      case CANCELLED =>
        if next != REFUNDED then Err(InvalidOrderState) else Ok(())
      case REFUNDED =>
        Err(InvalidOrderState)
  }

  /** `canBeCancelled`: every status except the four from shipping onwards. */
  function CanBeCancelled(s: OrderStatus): (r: bool)
    ensures r <==> s !in {SHIPPING, DELIVERED, COMPLETED, REFUNDED}
  {
    s != SHIPPING && s != DELIVERED && s != COMPLETED && s != REFUNDED
  }

  /** An order may be cancelled exactly when the lifecycle lets it move to CANCELLED. */
  lemma CancellableIffCancelTransitionValid(s: OrderStatus)
    ensures CanBeCancelled(s) <==> ValidateStatusTransition(s, CANCELLED).Ok?
  {
  }

  /** REFUNDED is terminal: every different target is rejected. */
  lemma RefundedIsTerminal(next: OrderStatus)
    ensures ValidateStatusTransition(REFUNDED, next).Ok? <==> next == REFUNDED
  {
  }

  /** No status other than CREATED and PENDING leads back to them. */
  lemma NoReturnToUnpaid(s: OrderStatus, next: OrderStatus)
    requires s != next
    requires next == CREATED || next == PENDING
    ensures ValidateStatusTransition(s, next).Ok? <==> s == CREATED && next == PENDING
  {
  }

  /**
    REFUNDED is reachable from every status in at most two legal steps; from
    CREATED and PENDING only by way of CANCELLED.
   */
  lemma RefundedWithinTwoSteps(s: OrderStatus)
    ensures exists m :: ValidateStatusTransition(s, m).Ok? && ValidateStatusTransition(m, REFUNDED).Ok?
    ensures s in {CREATED, PENDING} ==> ValidateStatusTransition(s, REFUNDED).Err?
  {
    if s in {CREATED, PENDING} {
      assert ValidateStatusTransition(s, CANCELLED).Ok? && ValidateStatusTransition(CANCELLED, REFUNDED).Ok?;
    } else {
      assert ValidateStatusTransition(s, REFUNDED).Ok? && ValidateStatusTransition(REFUNDED, REFUNDED).Ok?;
    }
  }
}
