/** The stores the payment service talks to. Each method is one call: it may fail before it took
    effect or after, whichever the environment chooses, and tells its caller only whether it failed. */
module PaymentStores {
  import opened GoText
  import opened PaymentDomain
  import opened PaymentProtocol
  import opened Sums

  /** A row with this id, or with this merchant and idempotency key, is there. */
  predicate Taken(rows: map<Symbol, Payment>, p: Payment) {
    || p.id in rows
    || exists id | id in rows :: rows[id].merchantId == p.merchantId && rows[id].idempotencyKey == p.idempotencyKey
  }

  /** The event announces this payment, field by field. */
  predicate Tells(e: Event, p: Payment) {
    && e.paymentId == p.id && e.merchantId == p.merchantId && e.amount == p.amount && e.currency == p.currency
    && e.status == p.status && e.customerEmail == p.customerEmail && e.customerName == p.customerName
    && e.bankReference == p.bankReference && e.failedReason == p.failedReason
    && (e.eventType == PaymentFailed <==> p.status == Failed)
  }

  class PaymentsRepository {
    var rows: map<Symbol, Payment>

    constructor ()
      ensures rows == map[]
    {
      rows := map[];
    }

    method Create(p: Payment) returns (ok: bool, ghost o: Outcome)
      modifies this
      ensures rows == if o != FailsBefore && !Taken(old(rows), p) then old(rows)[p.id := p] else old(rows)
      ensures ok <==> o == Succeeds && !Taken(old(rows), p)
      ensures rows == Inserted(old(rows), p, o) && ok == (o == Succeeds && Insertable(old(rows), p))
    {
      var answer: Outcome := *;
      var free := Insertable(rows, p);
      if free && answer != FailsBefore {
        rows := rows[p.id := p];
      }
      return free && answer == Succeeds, answer;
    }

    method Update(p: Payment) returns (ok: bool, ghost o: Outcome)
      modifies this
      ensures rows == (if o != FailsBefore then old(rows)[p.id := p] else old(rows)) == Saved(old(rows), p, o)
      ensures ok <==> o == Succeeds
    {
      var answer: Outcome := *;
      if answer != FailsBefore {
        rows := rows[p.id := p];
      }
      return answer == Succeeds, answer;
    }

    method MarkEventPublished(id: Symbol) returns (ok: bool, ghost o: Outcome)
      modifies this
      ensures rows == (if o != FailsBefore && id in old(rows) then old(rows)[id := old(rows)[id].(eventPublished := true)]
                       else old(rows)) == Flagged(old(rows), id, o)
      ensures ok <==> o == Succeeds
    {
      var answer: Outcome := *;
      if answer != FailsBefore && id in rows {
        rows := rows[id := rows[id].(eventPublished := true)];
      }
      return answer == Succeeds, answer;
    }

    /** The settled rows without a published flag, completed and failed ones, each once, in some order.
        `answer` is how the call ends. */
    method GetAllUnpublished(answer: Outcome) returns (ok: bool, found: seq<Payment>, ghost order: seq<Symbol>)
      ensures ok == (answer == Succeeds) && IsUnpublishedScan(rows, order) && found == Rows(rows, order)
      ensures forall id :: id in order <==>
                id in rows && !rows[id].eventPublished && (rows[id].status == Completed || rows[id].status == Failed)
    {
      ok := answer == Succeeds;
      found, order := [], [];
      var todo := set id | id in rows && Unpublished(rows[id]);
      while todo != {}
        invariant forall id :: id in todo ==> id in rows && Unpublished(rows[id]) && id !in order
        invariant forall i :: 0 <= i < |order| ==> order[i] in rows && Unpublished(rows[order[i]])
        invariant forall i, j :: 0 <= i < j < |order| ==> order[i] != order[j]
        invariant forall id :: id in rows && Unpublished(rows[id]) ==> id in order || id in todo
        invariant found == Rows(rows, order)
        decreases |todo|
      {
        ghost var one := AnElement(todo);
        var id :| id in todo;
        found, order, todo := found + [rows[id]], order + [id], todo - {id};
      }
    }
  }

  class IdemKeyRepository {
    var rows: map<Symbol, Payment>

    constructor ()
      ensures rows == map[]
    {
      rows := map[];
    }

    method Create(key: Symbol, p: Payment) returns (ok: bool, ghost o: Outcome)
      modifies this
      ensures rows == (if o != FailsBefore && key !in old(rows) then old(rows)[key := p] else old(rows))
                   == RecordInserted(old(rows), key, p, o)
      ensures ok <==> o == Succeeds && key !in old(rows)
    {
      var answer: Outcome := *;
      var free := key !in rows;
      if free && answer != FailsBefore {
        rows := rows[key := p];
      }
      return free && answer == Succeeds, answer;
    }

    method GetByKey(key: Symbol) returns (ok: bool, found: seq<Payment>, ghost o: Outcome)
      ensures ok == (o == Succeeds)
      ensures ok ==> found == if key in rows then [rows[key]] else []
    {
      var answer: Outcome := *;
      return answer == Succeeds, if key in rows then [rows[key]] else [], answer;
    }

    method UpdateResponse(key: Symbol, p: Payment) returns (ok: bool, ghost o: Outcome)
      modifies this
      ensures rows == (if o != FailsBefore && key in old(rows) then old(rows)[key := p] else old(rows))
                   == RecordUpdated(old(rows), key, p, o)
      ensures ok <==> o == Succeeds
    {
      var answer: Outcome := *;
      if answer != FailsBefore && key in rows {
        rows := rows[key := p];
      }
      return answer == Succeeds, answer;
    }
  }

  class RedisClient {
    var entries: map<Symbol, RedisValue>

    constructor ()
      ensures entries == map[]
    {
      entries := map[];
    }

    method Get(key: Symbol) returns (ok: bool, found: seq<RedisValue>, ghost o: Outcome)
      ensures ok == (o == Succeeds)
      ensures ok ==> found == if key in entries then [entries[key]] else []
    {
      var answer: Outcome := *;
      return answer == Succeeds, if key in entries then [entries[key]] else [], answer;
    }

    method Set(key: Symbol, value: RedisValue) returns (ok: bool, ghost o: Outcome)
      modifies this
      ensures entries == (if o != FailsBefore then old(entries)[key := value] else old(entries))
                      == CacheSet(old(entries), key, value, o)
      ensures ok <==> o == Succeeds
    {
      var answer: Outcome := *;
      if answer != FailsBefore {
        entries := entries[key := value];
      }
      return answer == Succeeds, answer;
    }

    method SetNx(key: Symbol, value: RedisValue) returns (acquired: bool, ghost o: Outcome)
      modifies this
      ensures entries == (if o != FailsBefore && key !in old(entries) then old(entries)[key := value] else old(entries))
                      == CacheSetNx(old(entries), key, value, o)
      ensures acquired <==> o == Succeeds && key !in old(entries)
    {
      var answer: Outcome := *;
      var free := key !in entries;
      if free && answer != FailsBefore {
        entries := entries[key := value];
      }
      return free && answer == Succeeds, answer;
    }
  }

  class BankClient {
    var calls: seq<BankCall>

    constructor ()
      ensures calls == []
    {
      calls := [];
    }

    method AuthorizePayment(paymentId: Symbol) returns (reply: BankReply)
      modifies this
      ensures calls == old(calls) + [BankCall(paymentId, reply)]
    {
      reply := *;
      calls := calls + [BankCall(paymentId, reply)];
    }
  }

  class Producer {
    var log: seq<Event>

    constructor ()
      ensures log == []
    {
      log := [];
    }

    /** Writes the event of a payment under a new event id; the writer's retries may append it
        more than once. */
    method Publish(eventId: Symbol, p: Payment) returns (ok: bool, ghost a: Answer)
      modifies this
      ensures a.eventId == eventId && a.copies >= 1 && (ok <==> a.outcome == Succeeds)
      ensures if a.outcome == FailsBefore then log == old(log)
              else |log| == |old(log)| + a.copies && old(log) <= log
                   && forall i :: |old(log)| <= i < |log| ==> log[i].id == eventId && Tells(log[i], p)
      ensures log == Appended(old(log), p, a)
    {
      var answer: Outcome := *;
      var extra: int := *;
      var retries := if extra < 0 then 0 else extra;
      a := Answer(answer, Unreachable, eventId, retries + 1);
      var event := EventFor(eventId, p);
      if answer != FailsBefore {
        log := log + [event];
        var i := 0;
        while i < retries
          invariant 0 <= i <= retries
          invariant log == old(log) + Copies(event, i + 1)
        {
          log := log + [event];
          i := i + 1;
        }
      }
      return answer == Succeeds, a;
    }
  }
}
