/** Every step of the payment protocol keeps the invariant and only grows the database. */
module PaymentSteps {
  import opened GoText
  import opened PaymentDomain
  import opened PaymentProtocol
  import opened PaymentInvariant

  /** What each step is shown to do. */
  ghost predicate Good(s: State, s': State) {
    Inv(s') && Grows(s.db, s'.db)
  }

  // ---------- what each write does to the database ----------

  /** A write to the database that belongs to one payment id. */
  ghost predicate OwnWrite(d: Db, d': Db, own: Symbol) {
    && DbOk(d') && Grows(d, d')
    && (forall id :: id != own ==> Untouched(d, d', id))
  }

  lemma InsertPaymentWrite(d: Db, p: Payment)
    requires DbOk(d) && Insertable(d.payments, p) && p.id in d.used
    requires p.status == Processing && p.failedReason == NoReason && !p.eventPublished
    ensures var d' := d.(payments := d.payments[p.id := p]);
            OwnWrite(d, d', p.id) && PcOk(d', p, InsertRecord)
  {
    var d' := d.(payments := d.payments[p.id := p]);
    RowsCarry(d, d', p.id);
    RecordsCarry(d, d');
    CallsCarry(d, d');
    EventsCarry(d, d');
    forall k | k in d'.records ensures d'.records[k].id != p.id { assert EntryOk(d, k, d.records[k]); }
  }

  lemma InsertRecordWrite(d: Db, p: Payment)
    requires DbOk(d) && PcOk(d, p, InsertRecord) && KeyIn(d, p) !in d.records
    ensures var d' := d.(records := d.records[KeyIn(d, p) := p]);
            OwnWrite(d, d', p.id) && PcOk(d', p, CallBank)
  {
    var d' := d.(records := d.records[KeyIn(d, p) := p]);
    RowsCarry(d, d', p.id);
    assert RowOk(d', p.id);
    RecordsCarry(d, d');
    CallsCarry(d, d');
    EventsCarry(d, d');
    forall i | 0 <= i < |d.bank| ensures d.bank[i].paymentId != p.id { assert BankOk(d, d.bank[i]); }
  }

  lemma CallBankWrite(d: Db, p: Payment, reply: BankReply)
    requires DbOk(d) && PcOk(d, p, CallBank) && p.failedReason == NoReason
    ensures var d' := d.(bank := d.bank + [BankCall(p.id, reply)]);
            OwnWrite(d, d', p.id) && PcOk(d', Settled(p, reply), SavePayment(reply))
  {
    var d' := d.(bank := d.bank + [BankCall(p.id, reply)]);
    var q := Settled(p, reply);
    assert d'.bank[|d.bank|] == BankCall(p.id, reply);
    assert Identity(q) == Identity(p) && AnsweredBy(d', q);
    KeyFromIdentity(d', q, p);
    CallsCarry(d, d');
    RowsCarry(d, d', p.id);
    RowCarries(d, d', p.id);
    RecordsCarry(d, d');
    EventsCarry(d, d');
  }

  /** Overwriting a row by one with the same identity keeps the unique index. */
  lemma SavedUnique(payments: map<Symbol, Payment>, p: Payment)
    requires UniqueKeys(payments) && p.id in payments && Identity(payments[p.id]) == Identity(p)
    ensures UniqueKeys(payments[p.id := p])
  {
    var row := payments[p.id];
    assert Identity(p).merchantId == p.merchantId && Identity(p).idempotencyKey == p.idempotencyKey;
    assert Identity(row).merchantId == row.merchantId && Identity(row).idempotencyKey == row.idempotencyKey;
  }

  lemma SavePaymentWrite(d: Db, p: Payment, reply: BankReply)
    requires DbOk(d) && PcOk(d, p, SavePayment(reply)) && !p.eventPublished
    ensures var d' := d.(payments := d.payments[p.id := p]);
            OwnWrite(d, d', p.id) && PcOk(d', p, UpdateRecord(reply))
  {
    var d' := d.(payments := d.payments[p.id := p]);
    assert RowOk(d, p.id);
    SavedUnique(d.payments, p);
    AnsweredCarries(d, d', p, p);
    RowsCarry(d, d', p.id);
    RecordsCarry(d, d');
    CallsCarry(d, d');
    EventsCarry(d, d');
  }

  /** A saved outcome is a good entry under its own key. */
  lemma SavedEntry(d: Db, p: Payment)
    requires SavedAs(d, p) && Claimed(d, p)
    ensures EntryOk(d, KeyIn(d, p), p)
  {
    assert Identity(p) == Identity(Body(p)) && Identity(d.payments[p.id]) == Identity(Body(d.payments[p.id]));
  }

  lemma UpdateRecordWrite(d: Db, p: Payment, reply: BankReply)
    requires DbOk(d) && PcOk(d, p, UpdateRecord(reply))
    ensures var d' := d.(records := d.records[KeyIn(d, p) := p]);
            OwnWrite(d, d', p.id) && PcOk(d', p, StoreResult(reply))
  {
    var d' := d.(records := d.records[KeyIn(d, p) := p]);
    SavedEntry(d, p);
    assert Grows(d, d');
    EntryCarries(d, d', KeyIn(d, p), p);
    forall id | id in d.payments ensures RowOk(d', id) { RowCarries(d, d', id); }
    RecordsCarry(d, d');
    CallsCarry(d, d');
    EventsCarry(d, d');
  }

  /** Appending copies of a new event for a settled row keeps the log good. */
  lemma PublishWrite(d: Db, p: Payment, a: Answer)
    requires DbOk(d) && SavedAs(d, p) && a.eventId !in d.used
    ensures var d' := d.(used := d.used + {a.eventId}, kafka := Appended(d.kafka, p, a));
            && DbOk(d') && Grows(d, d') && (forall id :: Untouched(d, d', id))
            && (a.outcome.TakesEffect() ==> HasEvent(d', p.id))
  {
    var d' := d.(used := d.used + {a.eventId}, kafka := Appended(d.kafka, p, a));
    SameBodySameEvent(a.eventId, p, d.payments[p.id]);
    EventsCarry(d, d');
    if a.outcome.TakesEffect() {
      assert d'.kafka[|d.kafka|].paymentId == p.id;
    }
    AppendedDistinct(d, p, a);
    RowsCarry(d, d', p.id);
    RowCarries(d, d', p.id);
    RecordsCarry(d, d');
    CallsCarry(d, d');
  }

  lemma AppendedDistinct(d: Db, p: Payment, a: Answer)
    requires DbOk(d) && a.eventId !in d.used
    ensures DistinctEvents(Appended(d.kafka, p, a))
  {
    var log := Appended(d.kafka, p, a);
    forall i, j | 0 <= i < |log| && 0 <= j < |log| && log[i].id == log[j].id ensures log[i] == log[j] {
      if i < |d.kafka| { assert EventOk(d, d.kafka[i]); }
      if j < |d.kafka| { assert EventOk(d, d.kafka[j]); }
    }
  }

  /** Setting the outbox flag of a settled row with an event changes nothing else. */
  lemma FlagWrite(d: Db, id: Symbol)
    requires DbOk(d) && id in d.payments && d.payments[id].status != Processing && HasEvent(d, id)
    ensures var d' := d.(payments := d.payments[id := d.payments[id].(eventPublished := true)]);
            DbOk(d') && Grows(d, d') && (forall other :: Untouched(d, d', other))
  {
    var d' := d.(payments := d.payments[id := d.payments[id].(eventPublished := true)]);
    var p, q := d.payments[id], d'.payments[id];
    assert RowOk(d, id);
    assert Body(q) == Body(p) && Identity(p) == Identity(q);
    HasEventCarries(d, d', id);
    AnsweredCarries(d, d', p, q);
    SavedUnique(d.payments, q);
    RowsCarry(d, d', id);
    RecordsCarry(d, d');
    CallsCarry(d, d');
    EventsCarry(d, d');
  }

  // ---------- steps of a request thread ----------

  /** The database stays as it is; a thread moves on and Redis changes. */
  lemma QuietStep(s: State, s': State, t: nat)
    requires Inv(s) && t in s.threads && t in s'.threads
    requires s' == Goto(s.(redis := s'.redis), t, s'.threads[t].pc)
    requires PcOk(s.db, s.threads[t].payment, s'.threads[t].pc) && CacheOk(s.db, s'.redis)
    ensures Good(s, s')
  {
  }

  /** A thread writes what is its own; Redis stays as it is. */
  lemma WriteStep(s: State, s': State, t: nat)
    requires Inv(s) && t in s.threads && t in s'.threads
    requires s'.redis == s.redis && s'.recoveries == s.recoveries && s'.threads == s.threads[t := s'.threads[t]]
    requires s'.threads[t].payment.id == s.threads[t].payment.id
    requires OwnWrite(s.db, s'.db, s.threads[t].payment.id) && ThreadOk(s'.db, s'.threads[t])
    ensures Good(s, s')
  {
    CacheCarries(s.db, s'.db, s.redis);
    RecoveriesCarry(s.db, s'.db, s.recoveries);
    ThreadsCarry(s.db, s'.db, s.threads - {t});
    forall i | i in s'.threads ensures ThreadOk(s'.db, s'.threads[i]) {
      assert i != t ==> i in s.threads - {t};
    }
  }

  lemma ReadCacheStep(s: State, t: nat, a: Answer)
    requires Inv(s) && t in s.threads && s.threads[t].pc.ReadCache?
    ensures Good(s, Advance(s, t, a))
  {
    var key := KeyIn(s.db, s.threads[t].payment);
    assert ThreadOk(s.db, s.threads[t]);
    assert key in s.redis ==> RedisOk(s.db, key, s.redis[key]);
    QuietStep(s, Advance(s, t, a), t);
  }

  lemma ReadRecordStep(s: State, t: nat, a: Answer)
    requires Inv(s) && t in s.threads && s.threads[t].pc.ReadRecord?
    ensures Good(s, Advance(s, t, a))
  {
    assert ThreadOk(s.db, s.threads[t]);
    QuietStep(s, Advance(s, t, a), t);
  }

  lemma FillCacheStep(s: State, t: nat, a: Answer)
    requires Inv(s) && t in s.threads && s.threads[t].pc.FillCache?
    ensures Good(s, Advance(s, t, a))
  {
    assert ThreadOk(s.db, s.threads[t]);
    QuietStep(s, Advance(s, t, a), t);
  }

  lemma WaitStep(s: State, t: nat, a: Answer)
    requires Inv(s) && t in s.threads && (s.threads[t].pc.TryLock? || s.threads[t].pc.PollWait?)
    ensures Good(s, Advance(s, t, a))
  {
    assert ThreadOk(s.db, s.threads[t]);
    QuietStep(s, Advance(s, t, a), t);
  }

  lemma StoreResultStep(s: State, t: nat, a: Answer)
    requires Inv(s) && t in s.threads && s.threads[t].pc.StoreResult?
    ensures Good(s, Advance(s, t, a))
  {
    assert ThreadOk(s.db, s.threads[t]);
    SavedEntry(s.db, s.threads[t].payment);
    QuietStep(s, Advance(s, t, a), t);
  }

  lemma InsertPaymentStep(s: State, t: nat, a: Answer)
    requires Inv(s) && t in s.threads && s.threads[t].pc.InsertPayment?
    ensures Good(s, Advance(s, t, a))
  {
    var p := s.threads[t].payment;
    assert ThreadOk(s.db, s.threads[t]);
    if a.outcome.TakesEffect() && Insertable(s.db.payments, p) {
      InsertPaymentWrite(s.db, p);
      WriteStep(s, Advance(s, t, a), t);
    } else {
      QuietStep(s, Advance(s, t, a), t);
    }
  }

  lemma InsertRecordStep(s: State, t: nat, a: Answer)
    requires Inv(s) && t in s.threads && s.threads[t].pc.InsertRecord?
    ensures Good(s, Advance(s, t, a))
  {
    var p := s.threads[t].payment;
    assert ThreadOk(s.db, s.threads[t]);
    if a.outcome.TakesEffect() && KeyIn(s.db, p) !in s.db.records {
      InsertRecordWrite(s.db, p);
      WriteStep(s, Advance(s, t, a), t);
    } else {
      QuietStep(s, Advance(s, t, a), t);
    }
  }

  lemma CallBankStep(s: State, t: nat, a: Answer)
    requires Inv(s) && t in s.threads && s.threads[t].pc.CallBank?
    ensures Good(s, Advance(s, t, a))
  {
    assert ThreadOk(s.db, s.threads[t]);
    CallBankWrite(s.db, s.threads[t].payment, a.reply);
    WriteStep(s, Advance(s, t, a), t);
  }

  lemma SavePaymentStep(s: State, t: nat, a: Answer)
    requires Inv(s) && t in s.threads && s.threads[t].pc.SavePayment?
    ensures Good(s, Advance(s, t, a))
  {
    assert ThreadOk(s.db, s.threads[t]);
    if a.outcome.TakesEffect() {
      SavePaymentWrite(s.db, s.threads[t].payment, s.threads[t].pc.reply);
      WriteStep(s, Advance(s, t, a), t);
    } else {
      QuietStep(s, Advance(s, t, a), t);
    }
  }

  lemma UpdateRecordStep(s: State, t: nat, a: Answer)
    requires Inv(s) && t in s.threads && s.threads[t].pc.UpdateRecord?
    ensures Good(s, Advance(s, t, a))
  {
    assert ThreadOk(s.db, s.threads[t]);
    if a.outcome.TakesEffect() {
      UpdateRecordWrite(s.db, s.threads[t].payment, s.threads[t].pc.reply);
      WriteStep(s, Advance(s, t, a), t);
    } else {
      QuietStep(s, Advance(s, t, a), t);
    }
  }

  lemma PublishStep(s: State, t: nat, a: Answer)
    requires Inv(s) && t in s.threads && s.threads[t].pc.Publish?
    ensures Good(s, Advance(s, t, a))
  {
    var s' := Advance(s, t, a);
    var p := s.threads[t].payment;
    assert ThreadOk(s.db, s.threads[t]);
    SavedEntry(s.db, p);
    if !Fresh(s.db, a.eventId) {
      QuietStep(s, s', t);
    } else {
      PublishWrite(s.db, p, a);
      SettledCarries(s.db, s'.db, p, Publish);
      EntryCarries(s.db, s'.db, KeyIn(s.db, p), p);
      WriteStep(s, s', t);
    }
  }

  lemma MarkPublishedStep(s: State, t: nat, a: Answer)
    requires Inv(s) && t in s.threads && s.threads[t].pc.MarkPublished?
    ensures Good(s, Advance(s, t, a))
  {
    var s' := Advance(s, t, a);
    var p := s.threads[t].payment;
    assert ThreadOk(s.db, s.threads[t]);
    SavedEntry(s.db, p);
    SameBodySameEvent(0, p, s.db.payments[p.id]);
    if a.outcome.TakesEffect() {
      FlagWrite(s.db, p.id);
      EntryCarries(s.db, s'.db, KeyIn(s.db, p), p);
      WriteStep(s, s', t);
    } else {
      QuietStep(s, s', t);
    }
  }

  lemma AdvanceStep(s: State, t: nat, a: Answer)
    requires Inv(s) && t in s.threads
    ensures Good(s, Advance(s, t, a))
  {
    match s.threads[t].pc
    case ReadCache(_) => ReadCacheStep(s, t, a);
    case ReadRecord(_) => ReadRecordStep(s, t, a);
    case FillCache(_, _) => FillCacheStep(s, t, a);
    case TryLock => WaitStep(s, t, a);
    case PollWait(_) => WaitStep(s, t, a);
    case InsertPayment => InsertPaymentStep(s, t, a);
    case InsertRecord => InsertRecordStep(s, t, a);
    case CallBank => CallBankStep(s, t, a);
    case SavePayment(_) => SavePaymentStep(s, t, a);
    case UpdateRecord(_) => UpdateRecordStep(s, t, a);
    case StoreResult(_) => StoreResultStep(s, t, a);
    case Publish => PublishStep(s, t, a);
    case MarkPublished => MarkPublishedStep(s, t, a);
    case Finished(_) =>
  }

  // ---------- arrivals, crashes, evictions, recovery ----------

  lemma ArriveStep(s: State, t: nat, input: Input, id: Symbol, reference: Symbol)
    requires Inv(s) && t !in s.threads && id !in s.db.used
    ensures Good(s, s.(db := s.db.(used := s.db.used + {id, reference}),
                       threads := s.threads[t := Thread(NewPayment(input, id, reference), ReadCache(BeforeLock))]))
  {
    var d, d' := s.db, s.db.(used := s.db.used + {id, reference});
    assert id in d.payments ==> RowOk(d, id);
    assert Grows(d, d');
    forall i | i in d.payments ensures RowOk(d', i) { RowCarries(d, d', i); }
    RecordsCarry(d, d');
    CallsCarry(d, d');
    EventsCarry(d, d');
    CacheCarries(d, d', s.redis);
    RecoveriesCarry(d, d', s.recoveries);
    ThreadsCarry(d, d', s.threads);
    forall i | i in s.threads ensures s.threads[i].payment.id != id { assert ThreadOk(d, s.threads[i]); }
  }

  /** A recovery run changes the database without touching any unsettled payment. */
  lemma RecoveryStep(s: State, s': State)
    requires Inv(s) && DbOk(s'.db) && Grows(s.db, s'.db) && (forall id :: Untouched(s.db, s'.db, id))
    requires s'.threads == s.threads && s'.redis == s.redis
    requires RecoveriesOk(s'.db, s'.recoveries)
    ensures Good(s, s')
  {
    CacheCarries(s.db, s'.db, s.redis);
    ThreadsCarry(s.db, s'.db, s.threads);
  }

  lemma ScanStep(s: State, r: nat, order: seq<Symbol>)
    requires Inv(s) && IsUnpublishedScan(s.db.payments, order)
    ensures Good(s, s.(recoveries := s.recoveries[r := Recovery(Rows(s.db.payments, order), false)]))
  {
    var rows := Rows(s.db.payments, order);
    forall i | 0 <= i < |rows| ensures SavedAs(s.db, rows[i]) {
      assert RowOk(s.db, order[i]);
    }
  }

  lemma RecoverNextStep(s: State, r: nat, a: Answer)
    requires Inv(s) && r in s.recoveries && s.recoveries[r].queue != []
    ensures Good(s, RecoverNext(s, r, a))
  {
    var s' := RecoverNext(s, r, a);
    var rec := s.recoveries[r];
    var q := rec.queue[0];
    assert RecoveryOk(s.db, rec) && SavedAs(s.db, q);
    if rec.marking {
      SameBodySameEvent(0, q, s.db.payments[q.id]);
      if a.outcome.TakesEffect() { FlagWrite(s.db, q.id); }
      QueueStep(s, s', r);
    } else {
      if Fresh(s.db, a.eventId) { PublishWrite(s.db, q, a); }
      QueueStep(s, s', r);
    }
  }

  /** A recovery run wrote to the database and goes on with its queue. */
  lemma QueueStep(s: State, s': State, r: nat)
    requires Inv(s) && DbOk(s'.db) && Grows(s.db, s'.db) && (forall id :: Untouched(s.db, s'.db, id))
    requires r in s.recoveries && s.recoveries[r].queue != []
    requires s'.threads == s.threads && s'.redis == s.redis && r in s'.recoveries
    requires s'.recoveries == s.recoveries[r := s'.recoveries[r]]
    requires var q := s.recoveries[r].queue;
             || s'.recoveries[r] == Recovery(q[1..], false)
             || (s'.recoveries[r] == Recovery(q, true) && HasEvent(s'.db, q[0].id))
    ensures Good(s, s')
  {
    RecoveriesCarry(s.db, s'.db, s.recoveries);
    assert RecoveryOk(s'.db, s.recoveries[r]);
    assert RecoveryOk(s'.db, s'.recoveries[r]);
    RecoveryStep(s, s');
  }

  lemma StepKeepsInvariant(s: State, a: Action)
    requires Inv(s)
    ensures Good(s, Step(s, a))
  {
    match a
    case Arrive(t, input, id, reference) =>
      if t !in s.threads && id !in s.db.used { ArriveStep(s, t, input, id, reference); }
    case Call(t, answer) => if t in s.threads { AdvanceStep(s, t, answer); }
    case Crash(t) =>
      if t in s.threads { QuietStep(s, Goto(s, t, Finished(Errored(Crashed))), t); }
    case Evict(key) =>
    case Scan(r, order) =>
      if IsUnpublishedScan(s.db.payments, order) { ScanStep(s, r, order); }
    case Recover(r, answer) =>
      if r in s.recoveries && s.recoveries[r].queue != [] { RecoverNextStep(s, r, answer); }
    case RecoveryCrash(r) =>
  }

  lemma GrowsTransitive(x: Db, y: Db, z: Db)
    requires Grows(x, y) && Grows(y, z)
    ensures Grows(x, z)
  {
    forall id | id in x.payments ensures id in z.payments && RowEvolves(x.payments[id], z.payments[id]) {
      var a, b := x.payments[id], y.payments[id];
      assert RowEvolves(a, b) && RowEvolves(b, z.payments[id]);
      SameBodySameEvent(0, a, if Body(a) == Body(b) then b else a);
    }
  }
}
