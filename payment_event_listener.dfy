/** PaymentEventListener: the consumer of payment events, which turns a
    payment's status into a transaction status and asks the sales service
    to record it. */
module PaymentEvents {
  import opened Decimal
  import opened Types
  import opened Gateways
  import opened Service

  /** PaymentStatus */
  datatype PaymentStatus = Succeeded | Failed | Canceled | Processing

  /** A wall-clock reading without a zone, as the event carries it. */
  type LocalDateTime = int

  /** PaymentEventDto; every field can be null. */
  datatype PaymentEvent = PaymentEvent(
    paymentId: Option<int>,
    paymentIntentId: Option<string>,
    transactionId: Option<int>,
    totalPrice: Option<Dec>,
    currency: Option<string>,
    customerEmail: Option<string>,
    paymentStatus: Option<PaymentStatus>,
    paymentEventDate: Option<LocalDateTime>)

  /** mapPaymentStatusToTransactionStatus: null stays null, and each of the
      four payment outcomes has its own transaction status. */
  function MapPaymentStatus(status: Option<PaymentStatus>): (r: Option<TransactionStatus>)
    ensures r.None? <==> status.None?
  {
    match status
    case None => None
    case Some(Succeeded) => Some(Completed)
    case Some(Failed) => Some(Rejected)
    case Some(Canceled) => Some(Cancelled)
    case Some(Processing) => Some(PendingPayment)
  }

  /** The payment outcome each transaction status stands for. */
  function PaymentStatusFor(t: TransactionStatus): PaymentStatus
  {
    match t
    case Completed => Succeeded
    case Rejected => Failed
    case Cancelled => Canceled
    case PendingPayment => Processing
  }

  /** The mapping is a bijection between the payment outcomes and the
      transaction statuses: no two outcomes share a status, and every
      status is reached. */
  lemma MapPaymentStatusBijective(s: PaymentStatus, t: TransactionStatus)
    ensures MapPaymentStatus(Some(PaymentStatusFor(t))) == Some(t)
    ensures MapPaymentStatus(Some(s)) == Some(t) <==> s == PaymentStatusFor(t)
  {
  }

  /** Distinct payment outcomes give distinct transaction statuses. */
  lemma MapPaymentStatusInjective(a: Option<PaymentStatus>, b: Option<PaymentStatus>)
    ensures MapPaymentStatus(a) == MapPaymentStatus(b) ==> a == b
  {
  }

  /** The instant the status update is stamped with: the event's own date
      read in the Singapore zone when it has one, the clock reading
      otherwise. */
  function EventInstant(event: PaymentEvent, now: Instant, toInstant: LocalDateTime -> Instant): Instant
  {
    if event.paymentEventDate.Some? then toInstant(event.paymentEventDate.value) else now
  }

  class PaymentEventListener {
    const service: SalesTransactionService

    constructor (service: SalesTransactionService)
      ensures this.service == service
    {
      this.service := service;
    }

    /** handlePaymentEvent. The clock and the zone conversion are inputs.
        An event whose status maps to nothing changes nothing; any other
        leads to exactly one status update request for the event's
        transactionId, null included, and the handler always ends
        normally, whatever the service does. */
    method HandlePaymentEvent(event: PaymentEvent, now: Instant, toInstant: LocalDateTime -> Instant)
      requires service.Wired()
      modifies service.journal
      ensures service.Wired()
      ensures event.paymentStatus.None? ==> service.journal.events == old(service.journal.events)
      ensures event.paymentStatus.Some? ==>
        service.journal.events == old(service.journal.events) + [StatusUpdateRequested(
          event.transactionId, MapPaymentStatus(event.paymentStatus).value, EventInstant(event, now, toInstant))]
    {
      var transactionId := event.transactionId;
      var paymentEventDate: Instant;
      if event.paymentEventDate.Some? {
        paymentEventDate := toInstant(event.paymentEventDate.value);
      } else {
        paymentEventDate := now;
      }
      var status := MapPaymentStatus(event.paymentStatus);
      if status.None? {
        return;
      }
      var error := service.UpdateTransactionStatus(transactionId, status.value, paymentEventDate);
      if error.Some? {
        // logged and swallowed
      }
    }
  }
}
