/** The payment service as a transition system. Request threads and recovery runs share Redis, the
    payments and idem_keys tables, the bank and the Kafka log. One action is one call to one of
    those (or a crash, or Redis dropping a key), so a run is an interleaving of the calls of
    all threads. Every call may fail, before or after it took effect. The functions that make
    cache and lock keys are parameters: nothing is assumed about them, so they may collide. */
module PaymentProtocol {
  import opened GoText
  import opened PaymentDomain
  import opened Runs

  datatype RedisValue = LockHeld | Cached(payment: Payment)

  datatype BankReply = Approved(reference: Symbol) | Declined(message: Symbol) | Unreachable

  datatype BankCall = BankCall(paymentId: Symbol, reply: BankReply)

  datatype Outcome = Succeeds | FailsBefore | FailsAfter {
    predicate TakesEffect() { this != FailsBefore }
  }

  /** How the environment answers a call. `copies` is how often the Kafka writer's retries append
      the message; `eventId` is the ULID drawn for it. */
  datatype Answer = Answer(outcome: Outcome, reply: BankReply, eventId: Symbol, copies: nat)

  datatype Error = Internal | Cancelled | InProgress | ProviderFailed | PersistenceFailed
                 | PaymentDeclined(reason: Symbol) | Crashed

  datatype Response = Returned(payment: Payment) | Errored(error: Error)

  /** Which of CreatePayment's lookups is running. */
  datatype Site = BeforeLock | AfterLock | Polling(n: nat)

  const POLLS: nat := 5

  datatype Pc =
    | ReadCache(site: Site)
    | ReadRecord(site: Site)
    | FillCache(site: Site, found: Payment)
    | TryLock
    | PollWait(n: nat)
    | InsertPayment
    | InsertRecord
    | CallBank
    | SavePayment(reply: BankReply)
    | UpdateRecord(reply: BankReply)
    | StoreResult(reply: BankReply)
    | Publish
    | MarkPublished
    | Finished(response: Response)

  /** A request: its own copy of the payment and the call it makes next. */
  datatype Thread = Thread(payment: Payment, pc: Pc)

  /** A recovery run: the rows it read and has not dealt with yet. */
  datatype Recovery = Recovery(queue: seq<Payment>, marking: bool)

  /** What is never lost: the tables, the calls the bank has seen, the Kafka log, the ULIDs drawn. */
  datatype Db = Db(
    cacheKey: (Symbol, Symbol) -> Symbol,
    lockKey: Symbol -> Symbol,
    used: set<Symbol>,
    payments: map<Symbol, Payment>,
    records: map<Symbol, Payment>,
    bank: seq<BankCall>,
    kafka: seq<Event>)

  datatype State = State(
    db: Db,
    redis: map<Symbol, RedisValue>,
    threads: map<nat, Thread>,
    recoveries: map<nat, Recovery>)

  function Init(cacheKey: (Symbol, Symbol) -> Symbol, lockKey: Symbol -> Symbol): State {
    State(Db(cacheKey, lockKey, {}, map[], map[], [], []), map[], map[], map[])
  }

  datatype Action =
    | Arrive(t: nat, input: Input, id: Symbol, reference: Symbol)
    | Call(t: nat, answer: Answer)
    | Crash(t: nat)
    | Evict(key: Symbol)
    | Scan(r: nat, order: seq<Symbol>)
    | Recover(r: nat, answer: Answer)
    | RecoveryCrash(r: nat)

  // ---------- tables ----------

  function KeyIn(db: Db, p: Payment): Symbol {
    db.cacheKey(p.merchantId, p.idempotencyKey)
  }

  /** INSERT INTO payments: the primary key and the unique index on (merchant, idempotency key). */
  predicate Insertable(payments: map<Symbol, Payment>, p: Payment) {
    && p.id !in payments
    && forall id | id in payments ::
         payments[id].merchantId != p.merchantId || payments[id].idempotencyKey != p.idempotencyKey
  }

  function Inserted(payments: map<Symbol, Payment>, p: Payment, o: Outcome): map<Symbol, Payment> {
    if o.TakesEffect() && Insertable(payments, p) then payments[p.id := p] else payments
  }

  /** gorm's Save: the whole row is written, the outbox flag included. */
  function Saved(payments: map<Symbol, Payment>, p: Payment, o: Outcome): map<Symbol, Payment> {
    if o.TakesEffect() then payments[p.id := p] else payments
  }

  function Flagged(payments: map<Symbol, Payment>, id: Symbol, o: Outcome): map<Symbol, Payment> {
    if o.TakesEffect() && id in payments then payments[id := payments[id].(eventPublished := true)] else payments
  }

  function RecordInserted(records: map<Symbol, Payment>, key: Symbol, p: Payment, o: Outcome): map<Symbol, Payment> {
    if o.TakesEffect() && key !in records then records[key := p] else records
  }

  function RecordUpdated(records: map<Symbol, Payment>, key: Symbol, p: Payment, o: Outcome): map<Symbol, Payment> {
    if o.TakesEffect() && key in records then records[key := p] else records
  }

  function CacheSet(redis: map<Symbol, RedisValue>, key: Symbol, v: RedisValue, o: Outcome): map<Symbol, RedisValue> {
    if o.TakesEffect() then redis[key := v] else redis
  }

  /** SET NX */
  function CacheSetNx(redis: map<Symbol, RedisValue>, key: Symbol, v: RedisValue, o: Outcome): map<Symbol, RedisValue> {
    if o.TakesEffect() && key !in redis then redis[key := v] else redis
  }

  predicate Unpublished(p: Payment) {
    !p.eventPublished && p.status != Processing
  }

  function Copies(event: Event, n: nat): (r: seq<Event>)
    ensures |r| == n && forall i :: 0 <= i < n ==> r[i] == event
  {
    seq(n, i => event)
  }

  function Appended(kafka: seq<Event>, p: Payment, a: Answer): seq<Event> {
    if a.outcome.TakesEffect()
    then kafka + Copies(EventFor(a.eventId, p), if a.copies == 0 then 1 else a.copies)
    else kafka
  }

  /** ULIDs are fresh. Should one be drawn twice, the publish it was drawn for counts as failed. */
  predicate Fresh(db: Db, id: Symbol) {
    id !in db.used && IsUlid(Chars(id))
  }

  // ---------- control flow of CreatePayment ----------

  /** Where a lookup that found nothing continues. */
  function AfterMiss(site: Site): Pc {
    match site
    case BeforeLock => TryLock
    case AfterLock => InsertPayment
    case Polling(n) =>
      if n + 1 < POLLS then PollWait(n + 1)
      else if n + 1 == POLLS then ReadCache(Polling(POLLS))
      else Finished(Errored(InProgress))
  }

  /** Where a lookup that failed continues: polling ignores the error. */
  function AfterLookupError(site: Site): Pc {
    if site.Polling? then AfterMiss(site) else Finished(Errored(Internal))
  }

  /** Where the Redis read of a lookup leads. */
  function AfterRead(redis: map<Symbol, RedisValue>, key: Symbol, site: Site, o: Outcome): Pc {
    if o != Succeeds || key !in redis then ReadRecord(site)
    else match redis[key]
         case LockHeld => AfterLookupError(site)
         case Cached(p) => Finished(Returned(p))
  }

  /** Where the idem_keys read of a lookup leads. */
  function AfterRecordRead(records: map<Symbol, Payment>, key: Symbol, site: Site, o: Outcome): Pc {
    if o != Succeeds then AfterLookupError(site)
    else if key !in records then AfterMiss(site)
    else FillCache(site, records[key])
  }

  /** The thread's copy of the payment once the bank answered. */
  function Settled(p: Payment, reply: BankReply): Payment {
    match reply
    case Approved(reference) => p.(status := Completed, bankReference := reference)
    case Declined(message) => p.(status := Failed, failedReason := BankMessage(message))
    case Unreachable => p.(status := Failed, failedReason := ProviderUnavailable)
  }

  /** Where CreatePayment continues once the outcome is stored: only an approved payment is
      published by the request itself. */
  function AfterStore(reply: BankReply): Pc {
    match reply
    case Approved(_) => Publish
    case Declined(message) => Finished(Errored(PaymentDeclined(message)))
    case Unreachable => Finished(Errored(ProviderFailed))
  }

  function PersistError(reply: BankReply): Error {
    if reply.Unreachable? then PersistenceFailed else Internal
  }

  // ---------- steps ----------

  function Goto(s: State, t: nat, pc: Pc): State
    requires t in s.threads
  {
    s.(threads := s.threads[t := s.threads[t].(pc := pc)])
  }

  /** Thread t makes its next call and the environment answers it. */
  function Advance(s: State, t: nat, a: Answer): State
    requires t in s.threads
  {
    var p := s.threads[t].payment;
    var db := s.db;
    var key := KeyIn(db, p);
    var o := a.outcome;
    match s.threads[t].pc
    case ReadCache(site) =>
      Goto(s, t, AfterRead(s.redis, key, site, o))
    case ReadRecord(site) =>
      Goto(s, t, AfterRecordRead(db.records, key, site, o))
    case FillCache(site, found) =>
      Goto(s.(redis := CacheSet(s.redis, key, Cached(found), o)), t, Finished(Returned(found)))
    case TryLock =>
      Goto(s.(redis := CacheSetNx(s.redis, db.lockKey(key), LockHeld, o)), t,
           if o == Succeeds && db.lockKey(key) !in s.redis then ReadCache(AfterLock) else PollWait(0))
    case PollWait(n) =>
      Goto(s, t, if o == Succeeds then ReadCache(Polling(n)) else Finished(Errored(Cancelled)))
    case InsertPayment =>
      Goto(s.(db := db.(payments := Inserted(db.payments, p, o))), t,
           if o == Succeeds && Insertable(db.payments, p) then InsertRecord else Finished(Errored(Internal)))
    case InsertRecord =>
      Goto(s.(db := db.(records := RecordInserted(db.records, key, p, o))), t,
           if o == Succeeds && key !in db.records then CallBank else Finished(Errored(Internal)))
    case CallBank =>
      s.(db := db.(bank := db.bank + [BankCall(p.id, a.reply)]),
         threads := s.threads[t := Thread(Settled(p, a.reply), SavePayment(a.reply))])
    case SavePayment(reply) =>
      Goto(s.(db := db.(payments := Saved(db.payments, p, o))), t,
           if o == Succeeds then UpdateRecord(reply) else Finished(Errored(PersistError(reply))))
    case UpdateRecord(reply) =>
      Goto(s.(db := db.(records := RecordUpdated(db.records, key, p, o))), t,
           if o == Succeeds then StoreResult(reply) else Finished(Errored(PersistError(reply))))
    case StoreResult(reply) =>
      Goto(s.(redis := CacheSet(s.redis, key, Cached(p), o)), t, AfterStore(reply))
    case Publish =>
      if !Fresh(db, a.eventId) then Goto(s, t, Finished(Returned(p)))
      else Goto(s.(db := db.(used := db.used + {a.eventId}, kafka := Appended(db.kafka, p, a))), t,
                if o == Succeeds then MarkPublished else Finished(Returned(p)))
    case MarkPublished =>
      Goto(s.(db := db.(payments := Flagged(db.payments, p.id, o))), t, Finished(Returned(p)))
    case Finished(_) => s
  }

  /** Recovery run r publishes or flags the first row of its queue. */
  function RecoverNext(s: State, r: nat, a: Answer): State
    requires r in s.recoveries && s.recoveries[r].queue != []
  {
    var rec := s.recoveries[r];
    var q := rec.queue[0];
    var db := s.db;
    var rest := s.recoveries[r := Recovery(rec.queue[1..], false)];
    if rec.marking then
      s.(db := db.(payments := Flagged(db.payments, q.id, a.outcome)), recoveries := rest)
    else if !Fresh(db, a.eventId) then s.(recoveries := rest)
    else
      s.(db := db.(used := db.used + {a.eventId}, kafka := Appended(db.kafka, q, a)),
         recoveries := if a.outcome == Succeeds then s.recoveries[r := Recovery(rec.queue, true)] else rest)
  }

  /** The rows GetAllUnpublished returns, in whatever order the database lists them. */
  predicate IsUnpublishedScan(payments: map<Symbol, Payment>, order: seq<Symbol>) {
    && (forall i :: 0 <= i < |order| ==> order[i] in payments && Unpublished(payments[order[i]]))
    && (forall i, j :: 0 <= i < j < |order| ==> order[i] != order[j])
    && (forall id | id in payments :: Unpublished(payments[id]) ==> id in order)
  }

  function Rows(payments: map<Symbol, Payment>, order: seq<Symbol>): (r: seq<Payment>)
    requires forall i :: 0 <= i < |order| ==> order[i] in payments
    ensures |r| == |order| && forall i :: 0 <= i < |r| ==> r[i] == payments[order[i]]
  {
    seq(|order|, i requires 0 <= i < |order| => payments[order[i]])
  }

  /** One step. An action that is not possible in s leaves s as it is. */
  function Step(s: State, a: Action): State {
    match a
    case Arrive(t, input, id, reference) =>
      if t in s.threads || !Accepted(input) || !Fresh(s.db, id) || !Fresh(s.db, reference) || id == reference then s
      else s.(db := s.db.(used := s.db.used + {id, reference}),
              threads := s.threads[t := Thread(NewPayment(input, id, reference), ReadCache(BeforeLock))])
    case Call(t, answer) =>
      if t !in s.threads then s else Advance(s, t, answer)
    case Crash(t) =>
      if t !in s.threads || s.threads[t].pc.Finished? then s else Goto(s, t, Finished(Errored(Crashed)))
    case Evict(key) =>
      s.(redis := s.redis - {key})
    case Scan(r, order) =>
      if r in s.recoveries || !IsUnpublishedScan(s.db.payments, order) then s
      else s.(recoveries := s.recoveries[r := Recovery(Rows(s.db.payments, order), false)])
    case Recover(r, answer) =>
      if r !in s.recoveries || s.recoveries[r].queue == [] then s else RecoverNext(s, r, answer)
    case RecoveryCrash(r) =>
      if r !in s.recoveries then s else s.(recoveries := s.recoveries[r := Recovery([], false)])
  }

  /** The state after a run of the service that starts with empty tables. */
  ghost function Reach(
    cacheKey: (Symbol, Symbol) -> Symbol, lockKey: Symbol -> Symbol, actions: seq<Action>): State
  {
    Run(Step, Init(cacheKey, lockKey), actions)
  }
}
