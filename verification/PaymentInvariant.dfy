/** The inductive invariant of the payment protocol. It is stated about every row, record, cache
    entry, event, thread and recovery run, and every step keeps it: the step's own thread changes
    only what belongs to its own payment id, and everything else only grows. */
module PaymentInvariant {
  import opened GoText
  import opened PaymentDomain
  import opened PaymentProtocol
  import opened Runs

  // ---------- what never goes back ----------

  /** A row keeps its identity; once settled only its outbox flag may change, and only upwards. */
  predicate RowEvolves(a: Payment, b: Payment) {
    && Identity(a) == Identity(b)
    && (a.status == Processing || Body(a) == Body(b))
    && (a.eventPublished ==> b.eventPublished)
  }

  ghost predicate Grows(d: Db, d': Db) {
    && d'.cacheKey == d.cacheKey && d'.lockKey == d.lockKey
    && d.used <= d'.used
    && d.bank <= d'.bank
    && d.kafka <= d'.kafka
    && (forall id :: id in d.payments ==> id in d'.payments && RowEvolves(d.payments[id], d'.payments[id]))
    && (forall k :: k in d.records ==> k in d'.records && d'.records[k].id == d.records[k].id)
  }

  // ---------- facts about single entities ----------

  ghost predicate HasEvent(d: Db, id: Symbol) {
    exists i :: 0 <= i < |d.kafka| && d.kafka[i].paymentId == id
  }

  /** The payment's outcome is the one the bank gave in this reply. */
  predicate Reflects(p: Payment, reply: BankReply) {
    match reply
    case Approved(reference) => p.status == Completed && p.bankReference == reference && p.failedReason == NoReason
    case Declined(message) => p.status == Failed && p.failedReason == BankMessage(message)
    case Unreachable => p.status == Failed && p.failedReason == ProviderUnavailable
  }

  ghost predicate AnsweredBy(d: Db, p: Payment) {
    exists i :: 0 <= i < |d.bank| && d.bank[i].paymentId == p.id && Reflects(p, d.bank[i].reply)
  }

  ghost predicate RowOk(d: Db, id: Symbol)
    requires id in d.payments
  {
    var p := d.payments[id];
    && p.id == id && id in d.used
    && (p.eventPublished ==> p.status != Processing && HasEvent(d, id))
    && (p.status != Processing ==> AnsweredBy(d, p))
    && (p.status == Processing ==> p.failedReason == NoReason)
  }

  /** The copy e, found under cache key k, is a copy of the one payment that owns k, and a settled
      copy is exactly that payment's settled row. */
  ghost predicate EntryOk(d: Db, k: Symbol, e: Payment) {
    && e.id in d.payments
    && Identity(e) == Identity(d.payments[e.id])
    && KeyIn(d, e) == k
    && k in d.records && d.records[k].id == e.id
    && (e.status != Processing ==> Body(e) == Body(d.payments[e.id]))
  }

  ghost predicate RedisOk(d: Db, k: Symbol, v: RedisValue) {
    v.Cached? ==> EntryOk(d, k, v.payment)
  }

  ghost predicate BankOk(d: Db, c: BankCall) {
    && c.paymentId in d.payments
    && var k := KeyIn(d, d.payments[c.paymentId]);
       k in d.records && d.records[k].id == c.paymentId
  }

  /** The event is, field by field, the one for the payment's settled row. */
  ghost predicate EventOk(d: Db, e: Event) {
    && e.id in d.used
    && e.paymentId in d.payments
    && d.payments[e.paymentId].status != Processing
    && e == EventFor(e.id, d.payments[e.paymentId])
  }

  ghost predicate SavedAs(d: Db, p: Payment) {
    p.id in d.payments && p.status != Processing && Body(d.payments[p.id]) == Body(p)
  }

  ghost predicate Claimed(d: Db, p: Payment) {
    KeyIn(d, p) in d.records && d.records[KeyIn(d, p)].id == p.id
  }

  ghost predicate PcOk(d: Db, p: Payment, pc: Pc) {
    match pc
    case ReadCache(_) => p.status == Processing && p.id !in d.payments
    case ReadRecord(_) => p.status == Processing && p.id !in d.payments
    case FillCache(_, found) => p.status == Processing && p.id !in d.payments && EntryOk(d, KeyIn(d, p), found)
    case TryLock => p.status == Processing && p.id !in d.payments
    case PollWait(_) => p.status == Processing && p.id !in d.payments
    case InsertPayment => p.status == Processing && p.id !in d.payments
    case InsertRecord =>
      && p.status == Processing && p.id in d.payments && d.payments[p.id] == p
      && (forall k :: k in d.records ==> d.records[k].id != p.id)
    case CallBank =>
      && p.status == Processing && p.id in d.payments && d.payments[p.id] == p && Claimed(d, p)
      && (forall i :: 0 <= i < |d.bank| ==> d.bank[i].paymentId != p.id)
    case SavePayment(reply) =>
      && p.id in d.payments && d.payments[p.id].status == Processing && Identity(d.payments[p.id]) == Identity(p)
      && Claimed(d, p) && Reflects(p, reply) && AnsweredBy(d, p)
    case UpdateRecord(reply) => SavedAs(d, p) && Claimed(d, p) && Reflects(p, reply)
    case StoreResult(reply) => SavedAs(d, p) && Claimed(d, p) && Reflects(p, reply)
    case Publish => SavedAs(d, p) && Claimed(d, p) && p.status == Completed
    case MarkPublished => SavedAs(d, p) && Claimed(d, p) && p.status == Completed && HasEvent(d, p.id)
    case Finished(Returned(found)) => EntryOk(d, KeyIn(d, p), found)
    case Finished(Errored(_)) => true
  }

  ghost predicate ThreadOk(d: Db, th: Thread) {
    var p := th.payment;
    && p.id in d.used && !p.eventPublished
    && (p.status == Processing ==> p.failedReason == NoReason)
    && PcOk(d, p, th.pc)
  }

  ghost predicate RecoveryOk(d: Db, rec: Recovery) {
    && (forall i :: 0 <= i < |rec.queue| ==> SavedAs(d, rec.queue[i]))
    && (rec.marking ==> rec.queue != [] && HasEvent(d, rec.queue[0].id))
  }

  // ---------- the invariant ----------

  ghost predicate UniqueKeys(payments: map<Symbol, Payment>) {
    forall i, j ::
      (&& i in payments && j in payments
       && payments[i].merchantId == payments[j].merchantId
       && payments[i].idempotencyKey == payments[j].idempotencyKey) ==> i == j
  }

  ghost predicate DistinctCalls(bank: seq<BankCall>) {
    forall i, j :: 0 <= i < j < |bank| ==> bank[i].paymentId != bank[j].paymentId
  }

  ghost predicate DistinctEvents(kafka: seq<Event>) {
    forall i, j :: 0 <= i < |kafka| && 0 <= j < |kafka| && kafka[i].id == kafka[j].id ==> kafka[i] == kafka[j]
  }

  ghost predicate DistinctThreads(threads: map<nat, Thread>) {
    forall i, j :: i in threads && j in threads && threads[i].payment.id == threads[j].payment.id ==> i == j
  }

  ghost predicate DbOk(d: Db) {
    && (forall id :: id in d.payments ==> RowOk(d, id))
    && UniqueKeys(d.payments)
    && (forall k :: k in d.records ==> EntryOk(d, k, d.records[k]))
    && (forall i :: 0 <= i < |d.bank| ==> BankOk(d, d.bank[i]))
    && DistinctCalls(d.bank)
    && (forall i :: 0 <= i < |d.kafka| ==> EventOk(d, d.kafka[i]))
    && DistinctEvents(d.kafka)
  }

  ghost predicate CacheOk(d: Db, redis: map<Symbol, RedisValue>) {
    forall k :: k in redis ==> RedisOk(d, k, redis[k])
  }

  ghost predicate ThreadsOk(d: Db, threads: map<nat, Thread>) {
    forall t :: t in threads ==> ThreadOk(d, threads[t])
  }

  ghost predicate RecoveriesOk(d: Db, recoveries: map<nat, Recovery>) {
    forall r :: r in recoveries ==> RecoveryOk(d, recoveries[r])
  }

  ghost predicate Inv(s: State) {
    && DbOk(s.db)
    && CacheOk(s.db, s.redis)
    && ThreadsOk(s.db, s.threads) && DistinctThreads(s.threads)
    && RecoveriesOk(s.db, s.recoveries)
  }

  // ---------- what a step of another thread leaves alone ----------

  ghost predicate Untouched(d: Db, d': Db, id: Symbol) {
    && (id in d.payments <==> id in d'.payments)
    && (id in d.payments && d.payments[id].status == Processing ==> d'.payments[id] == d.payments[id])
    && (forall k :: k in d'.records && d'.records[k].id == id ==> k in d.records && d.records[k].id == id)
    && (forall i :: |d.bank| <= i < |d'.bank| ==> d'.bank[i].paymentId != id)
  }

  lemma KeyFromIdentity(d: Db, p: Payment, q: Payment)
    requires Identity(p) == Identity(q)
    ensures KeyIn(d, p) == KeyIn(d, q)
  {
    assert Identity(p).merchantId == p.merchantId && Identity(p).idempotencyKey == p.idempotencyKey;
    assert Identity(q).merchantId == q.merchantId && Identity(q).idempotencyKey == q.idempotencyKey;
  }

  lemma HasEventCarries(d: Db, d': Db, id: Symbol)
    requires HasEvent(d, id) && d.kafka <= d'.kafka
    ensures HasEvent(d', id)
  {
    var i :| 0 <= i < |d.kafka| && d.kafka[i].paymentId == id;
    assert d'.kafka[i] == d.kafka[i];
  }

  lemma AnsweredCarries(d: Db, d': Db, p: Payment, q: Payment)
    requires AnsweredBy(d, p) && d.bank <= d'.bank && Body(p) == Body(q)
    ensures AnsweredBy(d', q)
  {
    var i :| 0 <= i < |d.bank| && d.bank[i].paymentId == p.id && Reflects(p, d.bank[i].reply);
    assert Body(p).status == p.status && Body(p).failedReason == p.failedReason && Body(p).id == p.id;
    assert d'.bank[i] == d.bank[i] && Reflects(q, d'.bank[i].reply);
  }

  lemma EntryCarries(d: Db, d': Db, k: Symbol, e: Payment)
    requires EntryOk(d, k, e) && Grows(d, d')
    ensures EntryOk(d', k, e)
  {
    assert RowEvolves(d.payments[e.id], d'.payments[e.id]);
    if e.status != Processing {
      assert Body(e).status == e.status;
      assert Body(d.payments[e.id]).status == d.payments[e.id].status;
    }
  }

  lemma SavedCarries(d: Db, d': Db, p: Payment)
    requires SavedAs(d, p) && Grows(d, d')
    ensures SavedAs(d', p)
  {
    assert RowEvolves(d.payments[p.id], d'.payments[p.id]);
    assert Body(d.payments[p.id]).status == d.payments[p.id].status && Body(p).status == p.status;
  }

  lemma EventCarries(d: Db, d': Db, e: Event)
    requires EventOk(d, e) && Grows(d, d')
    ensures EventOk(d', e)
  {
    assert RowEvolves(d.payments[e.paymentId], d'.payments[e.paymentId]);
    SameBodySameEvent(e.id, d.payments[e.paymentId], d'.payments[e.paymentId]);
  }

  lemma SameBodySameEvent(id: Symbol, p: Payment, q: Payment)
    requires Body(p) == Body(q)
    ensures EventFor(id, p) == EventFor(id, q) && p.status == q.status
  {
    assert EventFor(id, p) == EventFor(id, Body(p));
  }

  lemma RecoveryCarries(d: Db, d': Db, rec: Recovery)
    requires RecoveryOk(d, rec) && Grows(d, d')
    ensures RecoveryOk(d', rec)
  {
    forall i | 0 <= i < |rec.queue| ensures SavedAs(d', rec.queue[i]) {
      SavedCarries(d, d', rec.queue[i]);
    }
    if rec.marking {
      HasEventCarries(d, d', rec.queue[0].id);
    }
  }

  lemma ClaimCarries(d: Db, d': Db, p: Payment)
    requires Claimed(d, p) && Grows(d, d')
    ensures Claimed(d', p)
  {
  }

  lemma UnbankedCarries(d: Db, d': Db, p: Payment)
    requires (forall i :: 0 <= i < |d.bank| ==> d.bank[i].paymentId != p.id)
    requires d.bank <= d'.bank && Untouched(d, d', p.id)
    ensures (forall i :: 0 <= i < |d'.bank| ==> d'.bank[i].paymentId != p.id)
  {
    forall i | 0 <= i < |d'.bank| ensures d'.bank[i].paymentId != p.id {
      if i < |d.bank| { assert d'.bank[i] == d.bank[i]; }
    }
  }

  /** The phases whose facts need the step to leave the thread's own payment alone. */
  predicate Unsettled(pc: Pc) {
    !pc.UpdateRecord? && !pc.StoreResult? && !pc.Publish? && !pc.MarkPublished? && !pc.Finished?
  }

  lemma UnsettledCarries(d: Db, d': Db, p: Payment, pc: Pc)
    requires PcOk(d, p, pc) && Unsettled(pc) && Grows(d, d') && Untouched(d, d', p.id)
    ensures PcOk(d', p, pc)
  {
    match pc
    case FillCache(_, found) => EntryCarries(d, d', KeyIn(d, p), found);
    case InsertRecord =>
    case CallBank => ClaimCarries(d, d', p); UnbankedCarries(d, d', p);
    case SavePayment(_) => ClaimCarries(d, d', p); AnsweredCarries(d, d', p, p);
    case _ =>
  }

  lemma SettledCarries(d: Db, d': Db, p: Payment, pc: Pc)
    requires PcOk(d, p, pc) && !Unsettled(pc) && Grows(d, d')
    ensures PcOk(d', p, pc)
  {
    match pc
    case Finished(Returned(found)) => EntryCarries(d, d', KeyIn(d, p), found);
    case Finished(Errored(_)) =>
    case _ =>
      SavedCarries(d, d', p);
      ClaimCarries(d, d', p);
      if pc.MarkPublished? { HasEventCarries(d, d', p.id); }
  }

  lemma PcCarries(d: Db, d': Db, p: Payment, pc: Pc)
    requires PcOk(d, p, pc) && Grows(d, d') && Untouched(d, d', p.id)
    ensures PcOk(d', p, pc)
  {
    if Unsettled(pc) { UnsettledCarries(d, d', p, pc); } else { SettledCarries(d, d', p, pc); }
  }

  lemma RowCarries(d: Db, d': Db, id: Symbol)
    requires id in d.payments && RowOk(d, id) && Grows(d, d')
    requires d'.payments[id] == d.payments[id]
    ensures RowOk(d', id)
  {
    var p := d.payments[id];
    if p.eventPublished { HasEventCarries(d, d', id); }
    if p.status != Processing { AnsweredCarries(d, d', p, p); }
  }

  lemma BankCarries(d: Db, d': Db, c: BankCall)
    requires BankOk(d, c) && Grows(d, d')
    ensures BankOk(d', c)
  {
    assert RowEvolves(d.payments[c.paymentId], d'.payments[c.paymentId]);
    KeyFromIdentity(d, d.payments[c.paymentId], d'.payments[c.paymentId]);
    assert KeyIn(d, d.payments[c.paymentId]) == KeyIn(d', d'.payments[c.paymentId]);
  }

  // ---------- everything that is not the step's own carries over ----------

  lemma CacheCarries(d: Db, d': Db, redis: map<Symbol, RedisValue>)
    requires CacheOk(d, redis) && Grows(d, d')
    ensures CacheOk(d', redis)
  {
    forall k | k in redis ensures RedisOk(d', k, redis[k]) {
      if redis[k].Cached? { EntryCarries(d, d', k, redis[k].payment); }
    }
  }

  lemma RecoveriesCarry(d: Db, d': Db, recoveries: map<nat, Recovery>)
    requires RecoveriesOk(d, recoveries) && Grows(d, d')
    ensures RecoveriesOk(d', recoveries)
  {
    forall r | r in recoveries ensures RecoveryOk(d', recoveries[r]) { RecoveryCarries(d, d', recoveries[r]); }
  }

  lemma ThreadsCarry(d: Db, d': Db, threads: map<nat, Thread>)
    requires ThreadsOk(d, threads) && Grows(d, d')
    requires forall t :: t in threads ==> Untouched(d, d', threads[t].payment.id)
    ensures ThreadsOk(d', threads)
  {
    forall t | t in threads ensures ThreadOk(d', threads[t]) {
      assert ThreadOk(d, threads[t]);
      PcCarries(d, d', threads[t].payment, threads[t].pc);
    }
  }

  lemma RecordsCarry(d: Db, d': Db)
    requires (forall k :: k in d.records ==> EntryOk(d, k, d.records[k])) && Grows(d, d')
    ensures forall k :: k in d.records ==> EntryOk(d', k, d.records[k])
  {
    forall k | k in d.records ensures EntryOk(d', k, d.records[k]) { EntryCarries(d, d', k, d.records[k]); }
  }

  lemma CallsCarry(d: Db, d': Db)
    requires (forall i :: 0 <= i < |d.bank| ==> BankOk(d, d.bank[i])) && Grows(d, d')
    ensures forall i :: 0 <= i < |d.bank| ==> BankOk(d', d.bank[i])
  {
    forall i | 0 <= i < |d.bank| ensures BankOk(d', d.bank[i]) { BankCarries(d, d', d.bank[i]); }
  }

  lemma EventsCarry(d: Db, d': Db)
    requires (forall i :: 0 <= i < |d.kafka| ==> EventOk(d, d.kafka[i])) && Grows(d, d')
    ensures forall i :: 0 <= i < |d.kafka| ==> EventOk(d', d.kafka[i])
  {
    forall i | 0 <= i < |d.kafka| ensures EventOk(d', d.kafka[i]) { EventCarries(d, d', d.kafka[i]); }
  }

  /** Rows the step did not write. */
  lemma RowsCarry(d: Db, d': Db, own: Symbol)
    requires (forall id :: id in d.payments ==> RowOk(d, id)) && Grows(d, d')
    requires forall id :: id in d'.payments && id != own ==> id in d.payments && d'.payments[id] == d.payments[id]
    ensures forall id :: id in d'.payments && id != own ==> RowOk(d', id)
  {
    forall id | id in d'.payments && id != own ensures RowOk(d', id) { RowCarries(d, d', id); }
  }
}
