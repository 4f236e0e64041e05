/**
  The payment service as a state machine over stored payment records.
  Every operation is transactional: a raised exception leaves the store as it
  was. The clock and the random number generator become parameters: the
  simulator's draws and the millisecond time and suffix that make up a
  transaction id.
 */
module PaymentService {
  import opened Wrappers
  import opened PaymentModel
  import opened PaymentSimulatorService
  import Decimal

  const MSG_PROCESSED: string := "Payment processed successfully"
  const MSG_FAILED: string := "Payment processing failed"
  const MSG_RETRIEVED: string := "Payment status retrieved successfully"
  const MSG_REFUNDED: string := "Payment refunded successfully"
  const MSG_CANCELLED: string := "Payment cancelled successfully"
  const TRANSACTION_PREFIX: string := "TXN"

  /** The payment repository; `nextId` is the id the next save assigns. */
  datatype PaymentStore = PaymentStore(payments: map<int, Payment>, nextId: int)

  /** Every record sits under its own id, and every id is below the next one. */
  predicate ValidPayments(store: PaymentStore) {
    forall id :: id in store.payments ==> store.payments[id].id == id && id < store.nextId
  }

  /**
    Reference transition relation of a payment record: a pending payment is
    settled (completed or failed) or cancelled; a completed one may be
    refunded. Nothing else moves.
   */
  predicate LegalMove(from: PaymentStatus, to: PaymentStatus) {
    || (from == PENDING && to in {COMPLETED, FAILED, CANCELLED})
    || (from == COMPLETED && to == REFUNDED)
  }

  /** `generateTransactionId`: "TXN", the clock in milliseconds, then a random suffix below 1000. */
  function TransactionId(millis: nat, suffix: nat): (t: string)
    requires suffix < 1000
    ensures |t| > |TRANSACTION_PREFIX| && t[..|TRANSACTION_PREFIX|] == TRANSACTION_PREFIX
    ensures Decimal.IsDigits(t[|TRANSACTION_PREFIX|..])
  {
    var digits := Decimal.NatToString(millis) + Decimal.NatToString(suffix);
    assert Decimal.IsDigits(digits) by {
      Decimal.NatToStringRoundTrip(millis);
      Decimal.NatToStringRoundTrip(suffix);
      assert forall i :: 0 <= i < |digits| ==>
        digits[i] in Decimal.NatToString(millis) || digits[i] in Decimal.NatToString(suffix);
    }
    var t := TRANSACTION_PREFIX + digits;
    assert t[|TRANSACTION_PREFIX|..] == digits;
    t
  }

  /** `mapToPaymentResponse`: the record's fields as stored, with a message. */
  function ResponseOf(p: Payment, message: string): (r: PaymentResponse)
    ensures r.paymentId == p.id && r.orderId == p.orderId && r.amount == p.amount
    ensures r.status == p.status && r.paymentMethod == p.paymentMethod
    ensures r.transactionId == p.transactionId && r.message == message
  {
    PaymentResponse(p.id, p.orderId, p.amount, p.status, p.paymentMethod, p.transactionId, message)
  }

  /** The repository's save of a new record: it receives the next id. */
  function Insert(store: PaymentStore, p: Payment): (r: (PaymentStore, Payment))
    ensures r.1 == p.(id := store.nextId)
    ensures r.0 == PaymentStore(store.payments[store.nextId := r.1], store.nextId + 1)
  {
    var saved := p.(id := store.nextId);
    (PaymentStore(store.payments[store.nextId := saved], store.nextId + 1), saved)
  }

  /** The repository's save of a record it was loaded from, replacing it under that id. */
  function Update(store: PaymentStore, id: int, p: Payment): PaymentStore {
    store.(payments := store.payments[id := p])
  }

  /**
    `processPayment`: a new record is saved PENDING, then the simulator
    decides, the transaction id is attached and the record is saved again,
    COMPLETED on success and FAILED otherwise. The response mirrors the
    stored record.
   */
  function ProcessPayment(store: PaymentStore, req: PaymentRequest, draw: real, millis: nat, suffix: nat)
    : (r: (PaymentStore, PaymentResponse))
    requires suffix < 1000
    ensures var id := store.nextId;
            && r.0.nextId == id + 1
            && id in r.0.payments
            && r.0.payments == store.payments[id := r.0.payments[id]]
    ensures var p := r.0.payments[store.nextId];
            && p.id == store.nextId && p.orderId == req.orderId && p.amount == req.amount
            && p.paymentMethod == req.paymentMethod
            && p.transactionId == Some(TransactionId(millis, suffix))
            && (p.status == COMPLETED <==> SimulatePaymentProcessing(req, draw))
            && (p.status == FAILED <==> !SimulatePaymentProcessing(req, draw))
            && r.1 == ResponseOf(p, if p.status == COMPLETED then MSG_PROCESSED else MSG_FAILED)
    ensures !HasRequiredFields(req) ==> r.1.status == FAILED
  {
    var pending := Payment(0, req.orderId, req.amount, PENDING, req.paymentMethod, None);
    var (saved, payment) := Insert(store, pending);
    var successful := SimulatePaymentProcessing(req, draw);
    var settled := payment.(
      transactionId := Some(TransactionId(millis, suffix)),
      status := if successful then COMPLETED else FAILED);
    var after := Update(saved, payment.id, settled);
    (after, ResponseOf(settled, if successful then MSG_PROCESSED else MSG_FAILED))
  }

  /** `getPaymentStatus`: read-only; an unknown id raises PaymentNotFoundException. */
  function GetPaymentStatus(store: PaymentStore, paymentId: int): (r: Result<PaymentResponse>)
    ensures paymentId !in store.payments <==> r == Err(PaymentNotFound)
    ensures paymentId in store.payments <==> r.Ok?
    ensures r.Ok? ==> r.value == ResponseOf(store.payments[paymentId], MSG_RETRIEVED)
  {
    if paymentId !in store.payments then Err(PaymentNotFound)
    else Ok(ResponseOf(store.payments[paymentId], MSG_RETRIEVED))
  }

  /**
    `refundPayment`: an unknown id raises PaymentNotFoundException; a payment
    that is not COMPLETED, or a simulated refund failure, raises
    PaymentException and nothing is saved. Otherwise the record becomes
    REFUNDED.
   */
  function RefundPayment(store: PaymentStore, req: RefundRequest, draw: real): (r: Result<(PaymentStore, PaymentResponse)>)
    ensures req.paymentId !in store.payments ==> r == Err(PaymentNotFound)
    ensures req.paymentId in store.payments && store.payments[req.paymentId].status != COMPLETED ==>
              r == Err(PaymentRejected)
    ensures r.Ok? <==>
              && req.paymentId in store.payments
              && store.payments[req.paymentId].status == COMPLETED
              && draw < REFUND_SUCCESS_RATE
    ensures r.Ok? ==>
              var p := store.payments[req.paymentId].(status := REFUNDED);
              && r.value.0 == store.(payments := store.payments[req.paymentId := p])
              && r.value.1 == ResponseOf(p, MSG_REFUNDED)
    ensures r.Err? ==> r.error in {PaymentNotFound, PaymentRejected}
  {
    if req.paymentId !in store.payments then
      Err(PaymentNotFound)
    else
      var payment := store.payments[req.paymentId];
      if payment.status != COMPLETED then
        Err(PaymentRejected)
      else if !SimulateRefundProcessing(payment, draw) then
        Err(PaymentRejected)
      else
        var refunded := payment.(status := REFUNDED);
        Ok((Update(store, req.paymentId, refunded), ResponseOf(refunded, MSG_REFUNDED)))
  }

  /**
    `cancelPayment`: an unknown id raises PaymentNotFoundException; only a
    PENDING payment can be cancelled, anything else raises PaymentException.
   */
  function CancelPayment(store: PaymentStore, paymentId: int): (r: Result<(PaymentStore, PaymentResponse)>)
    ensures paymentId !in store.payments ==> r == Err(PaymentNotFound)
    ensures r.Ok? <==> paymentId in store.payments && store.payments[paymentId].status == PENDING
    ensures paymentId in store.payments && store.payments[paymentId].status != PENDING ==>
              r == Err(PaymentRejected)
    ensures r.Ok? ==>
              var p := store.payments[paymentId].(status := CANCELLED);
              && r.value.0 == store.(payments := store.payments[paymentId := p])
              && r.value.1 == ResponseOf(p, MSG_CANCELLED)
  {
    if paymentId !in store.payments then
      Err(PaymentNotFound)
    else
      var payment := store.payments[paymentId];
      if payment.status != PENDING then
        Err(PaymentRejected)
      else
        var cancelled := payment.(status := CANCELLED);
        Ok((Update(store, paymentId, cancelled), ResponseOf(cancelled, MSG_CANCELLED)))
  }

  /**
    Every stored record after an operation either is unchanged, or is the
    new record, or moved along the reference transition relation with all
    its other fields kept.
   */
  predicate StepsLegally(before: PaymentStore, after: PaymentStore) {
    && (forall id :: id in before.payments ==> id in after.payments)
    && forall id :: id in before.payments && after.payments[id] != before.payments[id] ==>
         && LegalMove(before.payments[id].status, after.payments[id].status)
         && after.payments[id] == before.payments[id].(status := after.payments[id].status)
  }

  /** Charging keeps the store valid, moves no existing record, and the new record was settled legally from PENDING. */
  lemma ProcessPaymentStepsLegally(store: PaymentStore, req: PaymentRequest, draw: real, millis: nat, suffix: nat)
    requires suffix < 1000
    requires ValidPayments(store)
    ensures var after := ProcessPayment(store, req, draw, millis, suffix).0;
            && ValidPayments(after)
            && StepsLegally(store, after)
            && store.nextId !in store.payments
            && LegalMove(PENDING, after.payments[store.nextId].status)
  {
  }

  /** A successful refund or cancellation keeps the store valid and moves one record legally. */
  lemma RefundAndCancelStepLegally(store: PaymentStore, refund: RefundRequest, draw: real, paymentId: int)
    requires ValidPayments(store)
    ensures RefundPayment(store, refund, draw).Ok? ==>
              var after := RefundPayment(store, refund, draw).value.0;
              ValidPayments(after) && StepsLegally(store, after)
    ensures CancelPayment(store, paymentId).Ok? ==>
              var after := CancelPayment(store, paymentId).value.0;
              ValidPayments(after) && StepsLegally(store, after)
  {
  }

  /** FAILED, REFUNDED and CANCELLED records are final: no operation succeeds on them. */
  lemma SettledRecordsAreFinal(store: PaymentStore, id: int, refund: RefundRequest, draw: real)
    requires id in store.payments && store.payments[id].status in {FAILED, REFUNDED, CANCELLED}
    requires refund.paymentId == id
    ensures RefundPayment(store, refund, draw) == Err(PaymentRejected)
    ensures CancelPayment(store, id) == Err(PaymentRejected)
  {
  }

  /** A payment as `processPayment` leaves it can never be cancelled: it is never PENDING. */
  lemma ProcessedPaymentCannotBeCancelled(store: PaymentStore, req: PaymentRequest, draw: real, millis: nat, suffix: nat)
    requires suffix < 1000
    ensures var (after, response) := ProcessPayment(store, req, draw, millis, suffix);
            && response.status != PENDING
            && CancelPayment(after, response.paymentId) == Err(PaymentRejected)
  {
  }

  /** A payment can be refunded at most once: a second refund is rejected whatever the draw. */
  lemma RefundOnlyOnce(store: PaymentStore, req: RefundRequest, draw1: real, draw2: real)
    requires RefundPayment(store, req, draw1).Ok?
    ensures RefundPayment(RefundPayment(store, req, draw1).value.0, req, draw2) == Err(PaymentRejected)
  {
  }
}
