/** What each call of a request writes, store by store, and that it writes nothing else. */
module PaymentCalls {
  import opened PaymentDomain
  import opened PaymentProtocol
  import opened PaymentStores
  import opened GoText

  /** A write that takes effect unless the call failed first. */
  function Put<V>(m: map<Symbol, V>, key: Symbol, v: V, o: Outcome): map<Symbol, V> {
    if o == FailsBefore then m else m[key := v]
  }

  /** Redis: the lock if it is free, a copy that was found, and the settled copy. */
  lemma WritesRedis(s: State, t: nat, a: Answer)
    requires t in s.threads
    ensures var s', p, o := Step(s, Call(t, a)), s.threads[t].payment, a.outcome;
            var key := s.db.cacheKey(p.merchantId, p.idempotencyKey);
            s'.redis == match s.threads[t].pc
                        case TryLock => if s.db.lockKey(key) in s.redis then s.redis else Put(s.redis, s.db.lockKey(key), LockHeld, o)
                        case FillCache(_, found) => Put(s.redis, key, Cached(found), o)
                        case StoreResult(_) => Put(s.redis, key, Cached(p), o)
                        case _ => s.redis
  {
  }

  /** The payments table: the new row if it is free, the settled row as a whole, and the flag. */
  lemma WritesPayments(s: State, t: nat, a: Answer)
    requires t in s.threads
    ensures var s', p, o := Step(s, Call(t, a)), s.threads[t].payment, a.outcome;
            var rows := s.db.payments;
            s'.db.payments == match s.threads[t].pc
                              case InsertPayment => if Taken(rows, p) then rows else Put(rows, p.id, p, o)
                              case SavePayment(_) => Put(rows, p.id, p, o)
                              case MarkPublished =>
                                if p.id !in rows then rows else Put(rows, p.id, rows[p.id].(eventPublished := true), o)
                              case _ => rows
  {
    match s.threads[t].pc
    case InsertPayment => assert Step(s, Call(t, a)).db.payments == Inserted(s.db.payments, s.threads[t].payment, a.outcome);
    case _ =>
  }

  /** The idempotency records: a new one if the key is free, and the settled copy over an old one. */
  lemma WritesRecords(s: State, t: nat, a: Answer)
    requires t in s.threads
    ensures var s', p, o := Step(s, Call(t, a)), s.threads[t].payment, a.outcome;
            var key, records := s.db.cacheKey(p.merchantId, p.idempotencyKey), s.db.records;
            s'.db.records == match s.threads[t].pc
                             case InsertRecord => if key in records then records else Put(records, key, p, o)
                             case UpdateRecord(_) => if key !in records then records else Put(records, key, p, o)
                             case _ => records
  {
  }

  /** The bank and the log: one call with the request's payment, and the events of a publish under a fresh id. */
  lemma WritesBankAndLog(s: State, t: nat, a: Answer)
    requires t in s.threads
    ensures var s', p, pc := Step(s, Call(t, a)), s.threads[t].payment, s.threads[t].pc;
            && s'.db.bank == (if pc.CallBank? then s.db.bank + [BankCall(p.id, a.reply)] else s.db.bank)
            && (if pc.Publish? && Fresh(s.db, a.eventId) && a.outcome != FailsBefore
                then && |s'.db.kafka| == |s.db.kafka| + (if a.copies == 0 then 1 else a.copies) && s.db.kafka <= s'.db.kafka
                     && forall i :: |s.db.kafka| <= i < |s'.db.kafka| ==> s'.db.kafka[i].id == a.eventId && Tells(s'.db.kafka[i], p)
                else s'.db.kafka == s.db.kafka)
  {
  }
}
