/** The payment row, the event published for it, and the keys it is stored under. */
module PaymentDomain {
  import opened GoText

  // The other statuses of the schema ("pending", "cancelled") are never written by the service.
  datatype Status = Processing | Completed | Failed

  datatype Currency = NGN

  datatype Reason = NoReason | ProviderUnavailable | BankMessage(message: Symbol)

  datatype Payment = Payment(
    id: Symbol,
    merchantId: Symbol,
    amount: int,
    currency: Currency,
    status: Status,
    customerEmail: Symbol,
    customerName: Symbol,
    metadata: Symbol,
    idempotencyKey: Symbol,
    bankReference: Symbol,
    failedReason: Reason,
    eventPublished: bool)

  /** What a payment is before anything happened to it: the part no later step may change. */
  function Identity(p: Payment): Payment {
    p.(status := Processing, bankReference := 0, failedReason := NoReason, eventPublished := false)
  }

  /** A row without its outbox flag. */
  function Body(p: Payment): Payment {
    p.(eventPublished := false)
  }

  datatype Input = Input(
    merchantId: Symbol,
    amount: int,
    customerEmail: Symbol,
    customerName: Symbol,
    metadata: Symbol,
    idempotencyKey: Symbol)

  const MAX_INT64: int := 0x7FFF_FFFF_FFFF_FFFF

  /** A trimmed, non-empty text field. */
  predicate Filled(field: Symbol) {
    TrimSpace(Chars(field)) == Chars(field) != ""
  }

  /** What the HTTP handler lets through to CreatePayment: the merchant header and the body
      fields are trimmed and required, and the amount is a positive int64. */
  predicate Accepted(input: Input) {
    Filled(input.merchantId) && Filled(input.idempotencyKey) && 0 < input.amount <= MAX_INT64
  }

  /** The struct CreatePayment builds before its first call. */
  function NewPayment(input: Input, id: Symbol, bankReference: Symbol): Payment {
    Payment(id, input.merchantId, input.amount, NGN, Processing, input.customerEmail, input.customerName,
            input.metadata, input.idempotencyKey, bankReference, NoReason, false)
  }

  datatype EventType = PaymentSucceeded | PaymentFailed

  datatype Event = Event(
    id: Symbol,
    eventType: EventType,
    paymentId: Symbol,
    merchantId: Symbol,
    amount: int,
    currency: Currency,
    status: Status,
    customerEmail: Symbol,
    customerName: Symbol,
    bankReference: Symbol,
    failedReason: Reason)

  /** The message PublishEvent and Producer.Publish build for a payment. */
  function EventFor(id: Symbol, p: Payment): Event {
    Event(id, if p.status == Failed then PaymentFailed else PaymentSucceeded, p.id, p.merchantId, p.amount,
          p.currency, p.status, p.customerEmail, p.customerName, p.bankReference, p.failedReason)
  }
}
