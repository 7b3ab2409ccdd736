/** The contract between the services: every payment.succeeded event that can reach the Kafka log
    passes the ledger's validation, so the ledger drops none of them. */
module Contract {
  import opened GoText
  import opened PaymentDomain
  import opened PaymentProtocol
  import opened PaymentInvariant
  import opened Runs
  import PT = PaymentTheorems
  import PS = PaymentSteps
  import E = EndToEnd
  import L = LedgerProtocol

  // ---------- what the text fields look like ----------

  /** Every id drawn so far looks like a ULID, and every request in the system is one the handler
      accepted. What "looks like" and "accepted" mean is a parameter of the proof. */
  ghost predicate TextsOk(s: State, ulid: Symbol -> bool, request: (Symbol, int) -> bool) {
    && (forall id :: id in s.db.used ==> ulid(id))
    && (forall t :: t in s.threads ==> request(s.threads[t].payment.merchantId, s.threads[t].payment.amount))
    && (forall id :: id in s.db.payments ==> request(s.db.payments[id].merchantId, s.db.payments[id].amount))
  }

  /** What one call of a thread may do to the ids, the rows and the requests. */
  lemma AdvanceWrites(s: State, t: nat, a: Answer)
    requires t in s.threads
    ensures var s' := Advance(s, t, a);
            var p := s.threads[t].payment;
            && (s'.db.used == s.db.used || (Fresh(s.db, a.eventId) && s'.db.used == s.db.used + {a.eventId}))
            && (|| s'.db.payments == s.db.payments || s'.db.payments == s.db.payments[p.id := p]
                || s'.db.payments == Flagged(s.db.payments, p.id, a.outcome))
            && t in s'.threads && s'.threads == s.threads[t := s'.threads[t]]
            && s'.threads[t].payment.merchantId == p.merchantId && s'.threads[t].payment.amount == p.amount
  {
    var s' := Advance(s, t, a);
    match s.threads[t].pc
    case InsertPayment =>
      assert s'.db.payments == Inserted(s.db.payments, s.threads[t].payment, a.outcome);
    case SavePayment(_) =>
      assert s'.db.payments == Saved(s.db.payments, s.threads[t].payment, a.outcome);
    case CallBank =>
      assert s'.threads[t].payment == Settled(s.threads[t].payment, a.reply);
    case _ =>
  }

  lemma AdvanceKeepsTexts(s: State, t: nat, a: Answer, ulid: Symbol -> bool, request: (Symbol, int) -> bool)
    requires TextsOk(s, ulid, request) && t in s.threads
    requires Fresh(s.db, a.eventId) ==> ulid(a.eventId)
    ensures TextsOk(Advance(s, t, a), ulid, request)
  {
    AdvanceWrites(s, t, a);
    RowsKeepRequests(s.db.payments, Advance(s, t, a).db.payments, s.threads[t].payment, a.outcome, request);
  }

  lemma RowsKeepRequests(
    rows: map<Symbol, Payment>, rows': map<Symbol, Payment>, p: Payment, o: Outcome, request: (Symbol, int) -> bool)
    requires forall id :: id in rows ==> request(rows[id].merchantId, rows[id].amount)
    requires request(p.merchantId, p.amount)
    requires rows' == rows || rows' == rows[p.id := p] || rows' == Flagged(rows, p.id, o)
    ensures forall id :: id in rows' ==> request(rows'[id].merchantId, rows'[id].amount)
  {
  }

  lemma StepKeepsTexts(s: State, a: Action, ulid: Symbol -> bool, request: (Symbol, int) -> bool)
    requires TextsOk(s, ulid, request)
    requires forall id: Symbol :: IsUlid(Chars(id)) ==> ulid(id)
    requires forall input: Input :: Accepted(input) ==> request(input.merchantId, input.amount)
    ensures TextsOk(Step(s, a), ulid, request)
  {
    match a
    case Arrive(t, input, id, reference) =>
    case Call(t, answer) => if t in s.threads { AdvanceKeepsTexts(s, t, answer, ulid, request); }
    case Recover(r, answer) =>
      if r in s.recoveries && s.recoveries[r].queue != [] {
        var s' := RecoverNext(s, r, answer);
        assert s'.db.payments == s.db.payments
               || s'.db.payments == Flagged(s.db.payments, s.recoveries[r].queue[0].id, answer.outcome);
      }
    case _ =>
  }

  predicate UlidText(id: Symbol) {
    IsUlid(Chars(id))
  }

  predicate GoodRequest(merchantId: Symbol, amount: int) {
    Filled(merchantId) && 0 < amount <= MAX_INT64
  }

  lemma TextsOfRun(cacheKey: (Symbol, Symbol) -> Symbol, lockKey: Symbol -> Symbol, actions: seq<Action>)
    ensures TextsOk(Reach(cacheKey, lockKey, actions), UlidText, GoodRequest)
  {
    var inv := (s: State) => TextsOk(s, UlidText, GoodRequest);
    forall s: State, a: Action | inv(s) ensures inv(Step(s, a)) { StepKeepsTexts(s, a, UlidText, GoodRequest); }
    InvariantOfRun(Step, inv, Init(cacheKey, lockKey), actions);
  }

  // ---------- the contract ----------

  /** Validation accepts the message of a completed payment with a ULID and an accepted request. */
  lemma CompletedIsValid(id: Symbol, p: Payment)
    requires UlidText(id) && UlidText(p.id) && GoodRequest(p.merchantId, p.amount) && p.status == Completed
    ensures L.Validate(E.Wire(EventFor(id, p))) == L.Passed
  {
    UlidIsNotBlank(Chars(id));
    UlidIsNotBlank(Chars(p.id));
    CharsOfIntern("payment.succeeded");
    CharsOfIntern("payment-service");
    CharsOfIntern("NGN");
    CharsOfIntern("completed");
  }

  /** No event of a failed payment is accepted by the ledger. */
  lemma FailedIsRejected(id: Symbol, p: Payment)
    requires p.status == Failed
    ensures L.Validate(E.Wire(EventFor(id, p))) != L.Passed
  {
    CharsOfIntern("payment.failed");
    assert "payment.failed"[8] != "payment.succeeded"[8];
  }

  /** Every message in the log of every run: the ledger's validation accepts it exactly when it is
      a payment.succeeded event, that is, when its payment is completed. */
  lemma EveryEventMeetsTheContract(
    cacheKey: (Symbol, Symbol) -> Symbol, lockKey: Symbol -> Symbol, actions: seq<Action>, i: nat)
    requires i < |Reach(cacheKey, lockKey, actions).db.kafka|
    ensures var d := Reach(cacheKey, lockKey, actions).db;
            && d.kafka[i].paymentId in d.payments
            && (L.Validate(E.Wire(d.kafka[i])) == L.Passed <==> d.kafka[i].eventType == PaymentSucceeded)
            && (d.kafka[i].eventType == PaymentSucceeded <==> d.payments[d.kafka[i].paymentId].status == Completed)
  {
    var s := Reach(cacheKey, lockKey, actions);
    PT.ReachableIsGood(cacheKey, lockKey, actions);
    TextsOfRun(cacheKey, lockKey, actions);
    var e := s.db.kafka[i];
    assert EventOk(s.db, e) && RowOk(s.db, e.paymentId);
    var p := s.db.payments[e.paymentId];
    if p.status == Completed { CompletedIsValid(e.id, p); } else { FailedIsRejected(e.id, p); }
  }
}
