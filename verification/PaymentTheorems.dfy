/** What the payment protocol guarantees over every run. */
module PaymentTheorems {
  import opened GoText
  import opened PaymentDomain
  import opened PaymentProtocol
  import opened PaymentInvariant
  import opened PaymentSteps
  import opened PaymentStores
  import opened Runs

  lemma InitIsGood(cacheKey: (Symbol, Symbol) -> Symbol, lockKey: Symbol -> Symbol)
    ensures Inv(Init(cacheKey, lockKey))
  {
  }

  lemma StepsAreGood()
    ensures forall s: State, a: Action :: Inv(s) ==> Inv(Step(s, a)) && Grows(s.db, Step(s, a).db)
  {
    forall s: State, a: Action | Inv(s) ensures Inv(Step(s, a)) && Grows(s.db, Step(s, a).db) {
      StepKeepsInvariant(s, a);
    }
  }

  /** From a good state every run leads to a good state, and the database only grows. */
  lemma RunsAreGood(s: State, actions: seq<Action>)
    requires Inv(s)
    ensures Inv(Run(Step, s, actions)) && Grows(s.db, Run(Step, s, actions).db)
  {
    var rel := (x: State, y: State) => Grows(x.db, y.db);
    StepsAreGood();
    forall x, y, z: State | rel(x, y) && rel(y, z) ensures rel(x, z) { GrowsTransitive(x.db, y.db, z.db); }
    RelationOfRun(Step, Inv, rel, s, actions);
  }

  lemma ReachableIsGood(cacheKey: (Symbol, Symbol) -> Symbol, lockKey: Symbol -> Symbol, actions: seq<Action>)
    ensures Inv(Reach(cacheKey, lockKey, actions))
  {
    InitIsGood(cacheKey, lockKey);
    RunsAreGood(Init(cacheKey, lockKey), actions);
  }

  lemma ReachSnoc(cacheKey: (Symbol, Symbol) -> Symbol, lockKey: Symbol -> Symbol, before: seq<Action>, last: Action)
    ensures Reach(cacheKey, lockKey, before + [last]) == Step(Reach(cacheKey, lockKey, before), last)
  {
    RunSnoc(Step, Init(cacheKey, lockKey), before, last);
  }

  // ---------- at most one bank authorization ----------

  predicate SameRequest(p: Payment, q: Payment) {
    p.merchantId == q.merchantId && p.idempotencyKey == q.idempotencyKey
  }

  /** Over every run there is at most one bank call for a (merchant, idempotency key), even for a
      cache key that several of them share. */
  lemma AtMostOneBankCall(
    cacheKey: (Symbol, Symbol) -> Symbol, lockKey: Symbol -> Symbol, actions: seq<Action>, i: nat, j: nat)
    requires var d := Reach(cacheKey, lockKey, actions).db; i < |d.bank| && j < |d.bank|
    ensures var d := Reach(cacheKey, lockKey, actions).db;
            && d.bank[i].paymentId in d.payments && d.bank[j].paymentId in d.payments
            && var p, q := d.payments[d.bank[i].paymentId], d.payments[d.bank[j].paymentId];
               (SameRequest(p, q) || KeyIn(d, p) == KeyIn(d, q) ==> i == j)
  {
    ReachableIsGood(cacheKey, lockKey, actions);
    var d := Reach(cacheKey, lockKey, actions).db;
    assert BankOk(d, d.bank[i]) && BankOk(d, d.bank[j]);
  }

  /** A step that calls the bank finds the payment row and the idempotency record of that payment
      already there, and no earlier call for the same cache key. */
  lemma BankCallFollowsInserts(s: State, a: Action)
    requires Inv(s) && |Step(s, a).db.bank| > |s.db.bank|
    ensures var d := s.db;
            var id := Step(s, a).db.bank[|d.bank|].paymentId;
            && id in d.payments && d.payments[id].status == Processing
            && Claimed(d, d.payments[id])
            && (forall i :: 0 <= i < |d.bank| ==>
                  KeyIn(d, d.payments[d.bank[i].paymentId]) != KeyIn(d, d.payments[id]))
  {
    assert a.Call? && s.threads[a.t].pc.CallBank?;
    assert ThreadOk(s.db, s.threads[a.t]);
    forall i | 0 <= i < |s.db.bank| ensures
      KeyIn(s.db, s.db.payments[s.db.bank[i].paymentId]) != KeyIn(s.db, s.threads[a.t].payment)
    {
      assert BankOk(s.db, s.db.bank[i]);
    }
  }

  // ---------- payment lifecycle ----------

  /** The status changes and flag changes a payment row may go through. */
  predicate Lifecycle(a: Payment, b: Payment) {
    && Identity(a) == Identity(b)
    && (b.status == a.status || (a.status == Processing && b.status in {Completed, Failed}))
    && (a.status != Processing ==> b.bankReference == a.bankReference && b.failedReason == a.failedReason)
    && (a.eventPublished ==> b.eventPublished)
    && (b.eventPublished ==> b.status != Processing)
  }

  /** Between any two moments of any run no row disappears, every row moves along its lifecycle,
      and the full-row save never clears a published flag. */
  lemma RowsFollowLifecycle(
    cacheKey: (Symbol, Symbol) -> Symbol, lockKey: Symbol -> Symbol, before: seq<Action>, after: seq<Action>, id: Symbol)
    requires id in Reach(cacheKey, lockKey, before).db.payments
    ensures var s, s' := Reach(cacheKey, lockKey, before), Reach(cacheKey, lockKey, before + after);
            id in s'.db.payments && Lifecycle(s.db.payments[id], s'.db.payments[id])
  {
    var s, s' := Reach(cacheKey, lockKey, before), Reach(cacheKey, lockKey, before + after);
    Later(cacheKey, lockKey, before, after);
    var a, b := s.db.payments[id], s'.db.payments[id];
    assert RowEvolves(a, b) && RowOk(s'.db, id);
    if Body(a) == Body(b) {
      SameBodySameEvent(0, a, b);
    }
  }

  lemma Later(cacheKey: (Symbol, Symbol) -> Symbol, lockKey: Symbol -> Symbol, before: seq<Action>, after: seq<Action>)
    ensures var s, s' := Reach(cacheKey, lockKey, before), Reach(cacheKey, lockKey, before + after);
            Inv(s) && Inv(s') && Grows(s.db, s'.db)
  {
    ReachableIsGood(cacheKey, lockKey, before);
    RunConcat(Step, Init(cacheKey, lockKey), before, after);
    RunsAreGood(Reach(cacheKey, lockKey, before), after);
  }

  // ---------- idempotent identity, and no invented outcome ----------

  /** e is what somebody asking for cache key k can see or was given: the database record, the
      cached copy, a copy about to be cached, or a response. */
  ghost predicate Visible(s: State, k: Symbol, e: Payment) {
    || (k in s.db.records && s.db.records[k] == e)
    || (k in s.redis && s.redis[k] == Cached(e))
    || (exists t :: && t in s.threads && KeyIn(s.db, s.threads[t].payment) == k
                    && (s.threads[t].pc == Finished(Returned(e))
                        || (s.threads[t].pc.FillCache? && s.threads[t].pc.found == e)))
  }

  lemma VisibleIsEntry(s: State, k: Symbol, e: Payment)
    requires Inv(s) && Visible(s, k, e)
    ensures EntryOk(s.db, k, e)
  {
    if k in s.db.records && s.db.records[k] == e {
    } else if k in s.redis && s.redis[k] == Cached(e) {
      assert RedisOk(s.db, k, s.redis[k]);
    } else {
      var t :| && t in s.threads && KeyIn(s.db, s.threads[t].payment) == k
               && (s.threads[t].pc == Finished(Returned(e))
                   || (s.threads[t].pc.FillCache? && s.threads[t].pc.found == e));
      assert ThreadOk(s.db, s.threads[t]);
    }
  }

  /** Whatever is seen for one cache key, now or later, by whomever, is the same payment with the
      same amount and customer data; two settled copies also agree on the outcome. */
  lemma IdempotentIdentity(
    cacheKey: (Symbol, Symbol) -> Symbol, lockKey: Symbol -> Symbol, before: seq<Action>, after: seq<Action>,
    k: Symbol, e: Payment, f: Payment)
    requires Visible(Reach(cacheKey, lockKey, before), k, e)
    requires Visible(Reach(cacheKey, lockKey, before + after), k, f)
    ensures Identity(e) == Identity(f)
    ensures e.status != Processing && f.status != Processing ==> Body(e) == Body(f)
  {
    var s, s' := Reach(cacheKey, lockKey, before), Reach(cacheKey, lockKey, before + after);
    Later(cacheKey, lockKey, before, after);
    VisibleIsEntry(s, k, e);
    VisibleIsEntry(s', k, f);
    EntryCarries(s.db, s'.db, k, e);
  }

  /** A copy that reports an outcome reports the outcome of the payments row, and that outcome is
      the bank's reply to the one call made for this cache key. */
  lemma NoInventedOutcome(
    cacheKey: (Symbol, Symbol) -> Symbol, lockKey: Symbol -> Symbol, actions: seq<Action>, k: Symbol, e: Payment)
    requires Visible(Reach(cacheKey, lockKey, actions), k, e) && e.status != Processing
    ensures var d := Reach(cacheKey, lockKey, actions).db;
            && e.id in d.payments && Body(d.payments[e.id]) == Body(e)
            && exists call :: 0 <= call < |d.bank| && Reflects(e, d.bank[call].reply) && OnlyCallFor(d, k, call)
  {
    var s := Reach(cacheKey, lockKey, actions);
    var d := s.db;
    ReachableIsGood(cacheKey, lockKey, actions);
    VisibleIsEntry(s, k, e);
    var row := d.payments[e.id];
    SameBodySameEvent(0, row, e);
    assert RowOk(d, e.id);
    AnsweredCarries(d, d, row, e);
    var call :| 0 <= call < |d.bank| && d.bank[call].paymentId == e.id && Reflects(e, d.bank[call].reply);
    KeyFromIdentity(d, row, e);
    forall i | 0 <= i < |d.bank| && CallFor(d, k, i) ensures i == call {
      assert BankOk(d, d.bank[i]) && BankOk(d, d.bank[call]);
    }
  }

  ghost predicate CallFor(d: Db, k: Symbol, i: int)
    requires 0 <= i < |d.bank|
  {
    d.bank[i].paymentId in d.payments && KeyIn(d, d.payments[d.bank[i].paymentId]) == k
  }

  ghost predicate OnlyCallFor(d: Db, k: Symbol, call: int)
    requires 0 <= call < |d.bank|
  {
    CallFor(d, k, call) && forall i :: 0 <= i < |d.bank| && CallFor(d, k, i) ==> i == call
  }

  // ---------- outbox ----------

  /** A published flag is backed by an event in the log that matches the row field by field, every
      event matches its payment's settled row, and no payment has events of both kinds. */
  lemma OutboxIsSound(cacheKey: (Symbol, Symbol) -> Symbol, lockKey: Symbol -> Symbol, actions: seq<Action>)
    ensures var d := Reach(cacheKey, lockKey, actions).db;
            && (forall id :: id in d.payments && d.payments[id].eventPublished ==>
                  exists i :: 0 <= i < |d.kafka| && Tells(d.kafka[i], d.payments[id]))
            && (forall i :: 0 <= i < |d.kafka| ==>
                  var e := d.kafka[i];
                  && e.paymentId in d.payments && Tells(e, d.payments[e.paymentId])
                  && (e.eventType == PaymentSucceeded <==> d.payments[e.paymentId].status == Completed)
                  && (e.eventType == PaymentFailed <==> d.payments[e.paymentId].status == Failed))
            && (forall i, j :: 0 <= i < |d.kafka| && 0 <= j < |d.kafka| && d.kafka[i].paymentId == d.kafka[j].paymentId
                  ==> d.kafka[i].eventType == d.kafka[j].eventType)
  {
    var d := Reach(cacheKey, lockKey, actions).db;
    ReachableIsGood(cacheKey, lockKey, actions);
    forall id | id in d.payments && d.payments[id].eventPublished
      ensures exists i :: 0 <= i < |d.kafka| && Tells(d.kafka[i], d.payments[id])
    {
      assert RowOk(d, id);
      var i :| 0 <= i < |d.kafka| && d.kafka[i].paymentId == id;
      assert EventOk(d, d.kafka[i]);
    }
    forall i | 0 <= i < |d.kafka| ensures EventOk(d, d.kafka[i]) {}
  }

  /** Only the recovery job announces failures: an event that a request's own call adds to the log says
      that the payment succeeded. */
  lemma FailuresAreAnnouncedByRecovery(
    cacheKey: (Symbol, Symbol) -> Symbol, lockKey: Symbol -> Symbol, actions: seq<Action>, a: Action, i: nat)
    requires var s := Reach(cacheKey, lockKey, actions); |s.db.kafka| <= i < |Step(s, a).db.kafka|
    ensures var e := Step(Reach(cacheKey, lockKey, actions), a).db.kafka[i];
            (e.eventType == PaymentFailed ==> a.Recover?) && (a.Call? ==> e.eventType == PaymentSucceeded)
  {
    ReachableIsGood(cacheKey, lockKey, actions);
    NewEventsAreAnnounced(Reach(cacheKey, lockKey, actions), a, i);
  }

  lemma NewEventsAreAnnounced(s: State, a: Action, i: nat)
    requires Inv(s) && |s.db.kafka| <= i < |Step(s, a).db.kafka|
    ensures a.Recover? || (a.Call? && Step(s, a).db.kafka[i].eventType == PaymentSucceeded)
  {
    if a.Call? && a.t in s.threads {
      assert ThreadOk(s.db, s.threads[a.t]);
    }
  }

  // ---------- polling ----------

  /** The step is a lookup of a request that polls for somebody else's result. */
  predicate Polls(s: State, a: Action, t: nat) {
    a.Call? && a.t == t && t in s.threads && s.threads[t].pc.ReadCache? && s.threads[t].pc.site.Polling?
  }

  /** How many lookups request t has made while polling. */
  ghost function PollsOf(cacheKey: (Symbol, Symbol) -> Symbol, lockKey: Symbol -> Symbol, actions: seq<Action>, t: nat): nat
    decreases |actions|
  {
    if actions == [] then 0
    else
      var before := actions[..|actions| - 1];
      PollsOf(cacheKey, lockKey, before, t)
      + (if Polls(Reach(cacheKey, lockKey, before), actions[|actions| - 1], t) then 1 else 0)
  }

  /** The number of lookups made and the place in the code agree. */
  predicate PollsFit(pc: Pc, polls: nat) {
    match pc
    case PollWait(n) => polls == n < POLLS
    case ReadCache(Polling(n)) => polls == n <= POLLS
    case ReadRecord(Polling(n)) => polls == n + 1 <= POLLS + 1
    case FillCache(Polling(n), _) => polls == n + 1 <= POLLS + 1
    case Finished(Errored(InProgress)) => polls == POLLS + 1
    case Finished(Errored(Cancelled)) => polls < POLLS
    case Finished(_) => polls <= POLLS + 1
    case _ => polls == 0
  }

  lemma LookupKeepsPollsFit(s: State, t: nat, a: Answer, polls: nat)
    requires t in s.threads && PollsFit(s.threads[t].pc, polls)
    requires var pc := s.threads[t].pc; pc.ReadCache? || pc.ReadRecord? || pc.FillCache? || pc.PollWait? || pc.TryLock?
    ensures t in Advance(s, t, a).threads
    ensures PollsFit(Advance(s, t, a).threads[t].pc, if Polls(s, Call(t, a), t) then polls + 1 else polls)
  {
    var pc' := Advance(s, t, a).threads[t].pc;
    match s.threads[t].pc
    case ReadCache(site) => assert pc' == AfterRead(s.redis, KeyIn(s.db, s.threads[t].payment), site, a.outcome);
    case ReadRecord(site) => assert pc' == AfterRecordRead(s.db.records, KeyIn(s.db, s.threads[t].payment), site, a.outcome);
    case FillCache(_, found) => assert pc' == Finished(Returned(found));
    case PollWait(n) => assert pc' == ReadCache(Polling(n)) || pc' == Finished(Errored(Cancelled));
    case TryLock => assert pc' == ReadCache(AfterLock) || pc' == PollWait(0);
  }

  /** The calls that do not look up are made before any polling, and do not lead to it. */
  lemma OwnCallKeepsPollsFit(s: State, t: nat, a: Answer, polls: nat)
    requires t in s.threads && PollsFit(s.threads[t].pc, polls)
    requires var pc := s.threads[t].pc; !pc.ReadCache? && !pc.ReadRecord? && !pc.FillCache? && !pc.PollWait? && !pc.TryLock?
    ensures t in Advance(s, t, a).threads && PollsFit(Advance(s, t, a).threads[t].pc, polls)
  {
  }

  lemma OtherCallKeepsThread(s: State, u: nat, a: Answer, t: nat)
    requires u in s.threads && u != t
    ensures var s' := Advance(s, u, a); (t in s.threads <==> t in s'.threads) && (t in s.threads ==> s'.threads[t] == s.threads[t])
  {
  }

  lemma StepKeepsPollsFit(s: State, a: Action, t: nat, polls: nat)
    requires if t in s.threads then PollsFit(s.threads[t].pc, polls) else polls == 0
    ensures var polls' := if Polls(s, a, t) then polls + 1 else polls;
            if t in Step(s, a).threads then PollsFit(Step(s, a).threads[t].pc, polls') else polls' == 0
  {
    if a.Call? && a.t in s.threads {
      if a.t != t {
        OtherCallKeepsThread(s, a.t, a.answer, t);
      } else {
        var pc := s.threads[t].pc;
        if pc.ReadCache? || pc.ReadRecord? || pc.FillCache? || pc.PollWait? || pc.TryLock? {
          LookupKeepsPollsFit(s, t, a.answer, polls);
        } else {
          OwnCallKeepsPollsFit(s, t, a.answer, polls);
        }
      }
    } else if !a.Recover? {
      OtherStepKeepsPollsFit(s, a, t, polls);
    }
  }

  lemma OtherStepKeepsPollsFit(s: State, a: Action, t: nat, polls: nat)
    requires if t in s.threads then PollsFit(s.threads[t].pc, polls) else polls == 0
    requires !a.Recover? && (a.Call? ==> a.t !in s.threads)
    ensures if t in Step(s, a).threads then PollsFit(Step(s, a).threads[t].pc, polls) else polls == 0
  {
  }

  /** A request that has to wait for another one's result looks at most six times, and is told that the
      payment is in progress exactly after the sixth lookup, if it was not cancelled before the fifth. */
  lemma {:induction false} PollsAreBounded(
    cacheKey: (Symbol, Symbol) -> Symbol, lockKey: Symbol -> Symbol, actions: seq<Action>, t: nat)
    ensures var s, polls := Reach(cacheKey, lockKey, actions), PollsOf(cacheKey, lockKey, actions, t);
            && polls <= 6
            && (if t in s.threads then PollsFit(s.threads[t].pc, polls) else polls == 0)
    decreases |actions|
  {
    if actions != [] {
      var before := actions[..|actions| - 1];
      PollsAreBounded(cacheKey, lockKey, before, t);
      StepKeepsPollsFit(Reach(cacheKey, lockKey, before), actions[|actions| - 1], t, PollsOf(cacheKey, lockKey, before, t));
    }
  }
}
