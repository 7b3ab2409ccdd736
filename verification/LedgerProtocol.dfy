/** The ledger service as a transition system. Any number of handlers work on events at once; each
    first asks, outside any transaction, whether the event was processed, and then runs one
    transaction of four writes. Nothing of a transaction is visible before its commit. A
    transaction also ends by a failed write, by the primary key of processed_events, by the
    range of a BIGINT, or by a crash, and then leaves nothing behind. The check an event has to
    pass first is a parameter of the steps. */
module LedgerProtocol {
  import opened GoText
  import opened Runs

  datatype PaymentEvent = PaymentEvent(
    id: Symbol,
    eventType: Symbol,
    source: Symbol,
    paymentId: Symbol,
    merchantId: Symbol,
    amount: int,
    currency: Symbol,
    status: Symbol)

  // ---------- validation ----------

  datatype Validation = Passed | Invalid(reason: Reason)

  datatype Reason = EventIdRequired | UnexpectedType | UnexpectedSource | PaymentIdRequired | MerchantIdRequired
                  | AmountNotPositive | UnsupportedCurrency | UnexpectedStatus

  predicate Blank(field: Symbol) {
    TrimSpace(Chars(field)) == ""
  }

  /** validatePaymentSucceededEvent */
  function Validate(event: PaymentEvent): Validation {
    if Blank(event.id) then Invalid(EventIdRequired)
    else if Chars(event.eventType) != "payment.succeeded" then Invalid(UnexpectedType)
    else if Chars(event.source) != "payment-service" then Invalid(UnexpectedSource)
    else if Blank(event.paymentId) then Invalid(PaymentIdRequired)
    else if Blank(event.merchantId) then Invalid(MerchantIdRequired)
    else if event.amount <= 0 then Invalid(AmountNotPositive)
    else if Chars(event.currency) != "NGN" then Invalid(UnsupportedCurrency)
    else if Chars(event.status) != "completed" then Invalid(UnexpectedStatus)
    else Passed
  }

  // ---------- tables ----------

  datatype EntryType = Debit | Credit

  datatype JournalEntry = JournalEntry(
    entryType: EntryType, merchantId: Symbol, paymentId: Symbol, amount: int, currency: Symbol)

  datatype Balance = Balance(available: int, pending: int)

  datatype ProcessedRow = ProcessedRow(merchantId: Symbol, eventType: Symbol)

  const MAX_INT64: int := 0x7FFF_FFFF_FFFF_FFFF

  function EntryFor(kind: EntryType, event: PaymentEvent): JournalEntry {
    JournalEntry(kind, event.merchantId, event.paymentId, event.amount, event.currency)
  }

  function BalanceOf(balances: map<Symbol, Balance>, merchantId: Symbol): Balance {
    if merchantId in balances then balances[merchantId] else Balance(0, 0)
  }

  /** The upsert of IncrementPendingBalance. */
  function Incremented(balances: map<Symbol, Balance>, merchantId: Symbol, amount: int): map<Symbol, Balance> {
    var b := BalanceOf(balances, merchantId);
    balances[merchantId := Balance(b.available, b.pending + amount)]
  }

  /** The four tables of the ledger. `applied` is the history of committed transactions: it is
      written by nobody but the commit and read by nobody. */
  datatype Books = Books(
    processed: map<Symbol, ProcessedRow>,
    journal: seq<JournalEntry>,
    balances: map<Symbol, Balance>,
    applied: seq<PaymentEvent>)

  /** What an open transaction has written so far. */
  datatype Tx = Tx(entries: seq<JournalEntry>, increment: int, marked: bool)

  const EMPTY_TX := Tx([], 0, false)

  datatype HandlerPc =
    | CheckProcessed
    | InsertDebit
    | InsertCredit(tx: Tx)
    | IncrementPending(tx: Tx)
    | MarkProcessed(tx: Tx)
    | Commit(tx: Tx)
    | Done(result: Result)

  datatype Result = Processed | AlreadyProcessed | Rejected(reason: Reason) | Failed

  datatype Handler = Handler(event: PaymentEvent, pc: HandlerPc)

  datatype State = State(validate: PaymentEvent -> Validation, books: Books, handlers: map<nat, Handler>)

  function Init(validate: PaymentEvent -> Validation): State {
    State(validate, Books(map[], [], map[], []), map[])
  }

  datatype Outcome = Succeeds | FailsBefore | FailsAfter

  datatype Action = Deliver(h: nat, event: PaymentEvent) | Call(h: nat, outcome: Outcome) | Crash(h: nat)

  // ---------- steps ----------

  /** Whether the database accepts the transaction: the event id must be new, and the sum a BIGINT. */
  predicate Committable(books: Books, event: PaymentEvent, tx: Tx) {
    && (tx.marked ==> event.id !in books.processed)
    && BalanceOf(books.balances, event.merchantId).pending + tx.increment <= MAX_INT64
  }

  function Committed(books: Books, event: PaymentEvent, tx: Tx): Books {
    Books(if tx.marked then books.processed[event.id := ProcessedRow(event.merchantId, event.eventType)]
          else books.processed,
          books.journal + tx.entries,
          Incremented(books.balances, event.merchantId, tx.increment),
          books.applied + [event])
  }

  function AtPc(s: State, h: nat, pc: HandlerPc): State
    requires h in s.handlers
  {
    s.(handlers := s.handlers[h := s.handlers[h].(pc := pc)])
  }

  /** Handler h makes its next call. A statement that reports failure rolls the transaction back. */
  function Advance(s: State, h: nat, o: Outcome): State
    requires h in s.handlers
  {
    var event := s.handlers[h].event;
    match s.handlers[h].pc
    case CheckProcessed =>
      AtPc(s, h, if o != Succeeds then Done(Failed)
                 else if event.id in s.books.processed then Done(AlreadyProcessed)
                 else InsertDebit)
    case InsertDebit =>
      AtPc(s, h, if o == Succeeds then InsertCredit(EMPTY_TX.(entries := [EntryFor(Debit, event)])) else Done(Failed))
    case InsertCredit(tx) =>
      AtPc(s, h, if o == Succeeds then IncrementPending(tx.(entries := tx.entries + [EntryFor(Credit, event)]))
                 else Done(Failed))
    case IncrementPending(tx) =>
      AtPc(s, h, if o == Succeeds then MarkProcessed(tx.(increment := event.amount)) else Done(Failed))
    case MarkProcessed(tx) =>
      AtPc(s, h, if o == Succeeds && event.id !in s.books.processed then Commit(tx.(marked := true)) else Done(Failed))
    case Commit(tx) =>
      if o == FailsBefore || !Committable(s.books, event, tx) then AtPc(s, h, Done(Failed))
      else AtPc(s.(books := Committed(s.books, event, tx)), h,
                if o == Succeeds then Done(Processed) else Done(Failed))
    case Done(_) => s
  }

  /** One step. An event may be delivered any number of times, to any number of handlers. */
  function Step(s: State, a: Action): State {
    match a
    case Deliver(h, event) =>
      if h in s.handlers then s
      else s.(handlers := s.handlers[h := Handler(event,
        match s.validate(event)
        case Passed => CheckProcessed
        case Invalid(reason) => Done(Rejected(reason))
      )])
    case Call(h, outcome) =>
      if h !in s.handlers then s else Advance(s, h, outcome)
    case Crash(h) =>
      if h !in s.handlers || s.handlers[h].pc.Done? then s else AtPc(s, h, Done(Failed))
  }

  ghost function Reach(actions: seq<Action>): State {
    Run(Step, Init(Validate), actions)
  }

  // ---------- balances ----------

  /** ComputeBalanceFromJournal: credits count up, everything else counts down. */
  function JournalBalance(journal: seq<JournalEntry>, merchantId: Symbol): int {
    if journal == [] then 0
    else
      var e := journal[|journal| - 1];
      JournalBalance(journal[..|journal| - 1], merchantId)
      + (if e.merchantId != merchantId then 0 else if e.entryType == Credit then e.amount else -e.amount)
  }
}
