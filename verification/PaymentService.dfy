/** The payment service as it is written: methods that call the stores one after the other, with
    other requests and recovery runs doing anything they can in between. Every method is proved to
    be a part of a run of the payment protocol, so everything proved about runs holds for it. */
module PaymentService {
  import opened GoText
  import opened PaymentDomain
  import opened PaymentProtocol
  import opened PaymentStores
  import opened Runs
  import PI = PaymentInvariant
  import PT = PaymentTheorems
  import PE = PaymentErrors
  import RP = Replays

  /** Who makes a call. */
  datatype Actor = Request(t: nat) | RecoveryRun(r: nat)

  function ActionOf(actor: Actor, a: Answer): Action {
    match actor
    case Request(t) => Call(t, a)
    case RecoveryRun(r) => Recover(r, a)
  }

  /** Whether an action moves this actor. */
  predicate Moves(a: Action, actor: Actor) {
    match actor
    case Request(t) => (a.Arrive? || a.Call? || a.Crash?) && a.t == t
    case RecoveryRun(r) => (a.Scan? || a.Recover? || a.RecoveryCrash?) && a.r == r
  }

  ghost predicate SamePosition(actor: Actor, s: State, s': State) {
    match actor
    case Request(t) => t in s.threads && t in s'.threads && s'.threads[t] == s.threads[t]
    case RecoveryRun(r) => r in s.recoveries && r in s'.recoveries && s'.recoveries[r] == s.recoveries[r]
  }

  ghost predicate Present(actor: Actor, s: State) {
    SamePosition(actor, s, s)
  }

  lemma {:induction false} OthersKeepPosition(actor: Actor, s: State, actions: seq<Action>)
    requires Present(actor, s)
    requires forall a :: a in actions ==> !Moves(a, actor)
    ensures SamePosition(actor, s, Run(Step, s, actions))
    decreases |actions|
  {
    if actions != [] {
      var n := |actions| - 1;
      OthersKeepPosition(actor, s, actions[..n]);
      var mid := Run(Step, s, actions[..n]);
      assert actions[n] in actions;
      StepKeepsOthers(actor, mid, actions[n]);
    }
  }

  lemma StepKeepsRequest(t: nat, s: State, a: Action)
    requires t in s.threads && !Moves(a, Request(t))
    ensures SamePosition(Request(t), s, Step(s, a))
  {
  }

  lemma StepKeepsRecovery(r: nat, s: State, a: Action)
    requires r in s.recoveries && !Moves(a, RecoveryRun(r))
    ensures SamePosition(RecoveryRun(r), s, Step(s, a))
  {
  }

  lemma StepKeepsOthers(actor: Actor, s: State, a: Action)
    requires Present(actor, s) && !Moves(a, actor)
    ensures SamePosition(actor, s, Step(s, a))
  {
    match actor
    case Request(t) => StepKeepsRequest(t, s, a);
    case RecoveryRun(r) => StepKeepsRecovery(r, s, a);
  }

  /** Whoever is about to flag a payment finds its row. */
  lemma HasSettledRow(actor: Actor, s: State, payment: Payment)
    requires PI.Inv(s) && Present(actor, s)
    requires match actor
             case Request(t) => s.threads[t] == Thread(payment, MarkPublished)
             case RecoveryRun(r) => s.recoveries[r].queue != [] && s.recoveries[r].queue[0] == payment
    ensures payment.id in s.db.payments
  {
    match actor
    case Request(t) => assert PI.ThreadOk(s.db, s.threads[t]);
    case RecoveryRun(r) => assert PI.RecoveryOk(s.db, s.recoveries[r]);
  }

  /** A run that others make leads to a state in which this actor stands where it stood. */
  lemma OthersRun(
    actor: Actor, cacheKey: (Symbol, Symbol) -> Symbol, lockKey: Symbol -> Symbol, before: seq<Action>, more: seq<Action>)
    requires Present(actor, Reach(cacheKey, lockKey, before))
    requires forall a :: a in more ==> !Moves(a, actor)
    ensures var s, s' := Reach(cacheKey, lockKey, before), Run(Step, Reach(cacheKey, lockKey, before), more);
            && s' == Reach(cacheKey, lockKey, before + more) && SamePosition(actor, s, s')
            && s'.db.cacheKey == cacheKey && s'.db.lockKey == lockKey
  {
    RunConcat(Step, Init(cacheKey, lockKey), before, more);
    OthersKeepPosition(actor, Reach(cacheKey, lockKey, before), more);
    PT.Later(cacheKey, lockKey, [], before + more);
    assert [] + (before + more) == before + more;
  }

  /** The i-th step of the run is a failing call of this actor, made for the payment with this id. */
  ghost predicate FailedFor(
    actor: Actor, id: Symbol, cacheKey: (Symbol, Symbol) -> Symbol, lockKey: Symbol -> Symbol, trace: seq<Action>, i: nat)
    requires i < |trace|
  {
    var s := Reach(cacheKey, lockKey, trace[..i]);
    && Present(actor, s) && (exists a :: trace[i] == ActionOf(actor, a) && a.outcome != Succeeds)
    && match actor
       case Request(t) => s.threads[t].payment.id == id
       case RecoveryRun(r) => s.recoveries[r].queue != [] && s.recoveries[r].queue[0].id == id
  }

  ghost predicate SomeCallFailed(
    actor: Actor, id: Symbol, cacheKey: (Symbol, Symbol) -> Symbol, lockKey: Symbol -> Symbol, trace: seq<Action>, from: nat)
  {
    exists i :: from <= i < |trace| && FailedFor(actor, id, cacheKey, lockKey, trace, i)
  }

  lemma FailureStays(
    actor: Actor, id: Symbol, cacheKey: (Symbol, Symbol) -> Symbol, lockKey: Symbol -> Symbol,
    trace: seq<Action>, longer: seq<Action>, from: nat, earlier: nat)
    requires SomeCallFailed(actor, id, cacheKey, lockKey, trace, from) && trace <= longer && earlier <= from
    ensures SomeCallFailed(actor, id, cacheKey, lockKey, longer, earlier)
  {
    var i :| from <= i < |trace| && FailedFor(actor, id, cacheKey, lockKey, trace, i);
    assert longer[..i] == trace[..i] && longer[i] == trace[i];
    assert FailedFor(actor, id, cacheKey, lockKey, longer, i);
  }

  lemma ThisCallFailed(
    actor: Actor, id: Symbol, cacheKey: (Symbol, Symbol) -> Symbol, lockKey: Symbol -> Symbol,
    before: seq<Action>, a: Answer, longer: seq<Action>)
    requires before + [ActionOf(actor, a)] <= longer && a.outcome != Succeeds
    requires var s := Reach(cacheKey, lockKey, before);
             && Present(actor, s)
             && match actor
                case Request(t) => s.threads[t].payment.id == id
                case RecoveryRun(r) => s.recoveries[r].queue != [] && s.recoveries[r].queue[0].id == id
    ensures SomeCallFailed(actor, id, cacheKey, lockKey, longer, |before|)
  {
    var i := |before|;
    assert longer[..i] == before && longer[i] == ActionOf(actor, a);
    assert FailedFor(actor, id, cacheKey, lockKey, longer, i);
  }

  /** What a lookup of the idempotency result reports. */
  datatype Lookup = Found(payment: Payment) | Missing | LookupFailed

  function AfterLookup(site: Site, r: Lookup): Pc {
    match r
    case Found(p) => Finished(Returned(p))
    case Missing => AfterMiss(site)
    case LookupFailed => AfterLookupError(site)
  }

  /** Where a lookup leads: to the answer if it found one, otherwise to the lock, the insert or the next
      poll; only a poll goes on after a failure. */
  predicate LeadsTo(site: Site, r: Lookup, pc: Pc) {
    match r
    case Found(p) => pc == Finished(Returned(p))
    case _ =>
      match site
      case BeforeLock => pc == if r.Missing? then TryLock else Finished(Errored(Internal))
      case AfterLock => pc == if r.Missing? then InsertPayment else Finished(Errored(Internal))
      case Polling(n) => pc == if n < 4 then PollWait(n + 1) else if n == 4 then ReadCache(Polling(5)) else Finished(Errored(InProgress))
  }

  /** The payment is the one made for this request. */
  predicate MadeFor(p: Payment, input: Input, id: Symbol) {
    && p.id == id && p.merchantId == input.merchantId && p.idempotencyKey == input.idempotencyKey && p.amount == input.amount
    && p.currency == NGN && p.customerEmail == input.customerEmail && p.customerName == input.customerName
    && p.metadata == input.metadata
  }

  lemma StaysMadeFor(p: Payment, q: Payment, input: Input, id: Symbol)
    requires Identity(p) == Identity(q) && MadeFor(q, input, id)
    ensures MadeFor(p, input, id)
  {
    assert MadeFor(Identity(q), input, id) && MadeFor(Identity(p), input, id);
  }

  /** What a lookup of cache key k answers, if its Redis read found state s and ended with o, and its
      record read, made if the first one gave nothing, found s' and ended with o'. */
  ghost predicate Answers(s: State, o: Outcome, s': State, o': Outcome, k: Symbol, r: Lookup) {
    if o == Succeeds && k in s.redis then r == (if s.redis[k].Cached? then Found(s.redis[k].payment) else LookupFailed)
    else if o' != Succeeds then r == LookupFailed
    else if k in s'.db.records then r == Found(s'.db.records[k])
    else r == Missing
  }

  /** The answer of a call that is not the bank's and draws no id. */
  function Plain(o: Outcome): Answer {
    Answer(o, Unreachable, 0, 0)
  }

  class PaymentService {
    const payments: PaymentsRepository
    const idemKeys: IdemKeyRepository
    const cache: RedisClient
    const bank: BankClient
    const kafka: Producer
    const cacheKey: (Symbol, Symbol) -> Symbol
    const lockKey: Symbol -> Symbol
    var drawn: set<Symbol>
    // Where each request and each recovery run stands, and the run all of them make up.
    var threads: map<nat, Thread>
    var recoveries: map<nat, Recovery>
    ghost var trace: seq<Action>

    constructor (cacheKey: (Symbol, Symbol) -> Symbol, lockKey: Symbol -> Symbol)
      ensures Valid() && trace == [] && World() == Init(cacheKey, lockKey) && fresh(Repr())
    {
      payments := new PaymentsRepository();
      idemKeys := new IdemKeyRepository();
      cache := new RedisClient();
      bank := new BankClient();
      kafka := new Producer();
      this.cacheKey := cacheKey;
      this.lockKey := lockKey;
      drawn, threads, recoveries, trace := {}, map[], map[], [];
    }

    function Repr(): set<object> {
      {this, payments, idemKeys, cache, bank, kafka}
    }

    function World(): State
      reads Repr()
    {
      State(Db(cacheKey, lockKey, drawn, payments.rows, idemKeys.rows, bank.calls, kafka.log),
                  cache.entries, threads, recoveries)
    }

    /** The stores are in the state that the run so far leads to. */
    ghost predicate Valid()
      reads Repr()
    {
      World() == Reach(cacheKey, lockKey, trace)
    }

    /** Other actors make any number of steps. */
    method Others(actor: Actor)
      requires Valid() && Present(actor, World())
      modifies Repr()
      ensures Valid() && old(trace) <= trace && SamePosition(actor, old(World()), World())
    {
      var more: seq<Action> := *;
      if forall a | a in more :: !Moves(a, actor) {
        var s := Run(Step, World(), more);
        OthersRun(actor, cacheKey, lockKey, trace, more);
        payments.rows := s.db.payments;
        idemKeys.rows := s.db.records;
        cache.entries := s.redis;
        bank.calls := s.db.bank;
        kafka.log := s.db.kafka;
        drawn, threads, recoveries := s.db.used, s.threads, s.recoveries;
        assert World() == s;
        trace := trace + more;
      }
    }

    /** The actor made a call in state s and stands where `threads'` and `recoveries'` say; that is
        a step of the protocol, and then others go on. */
    method Yield(actor: Actor, threads': map<nat, Thread>, recoveries': map<nat, Recovery>, ghost s: State, ghost a: Answer)
      requires s == Reach(cacheKey, lockKey, trace)
      requires World().(threads := threads', recoveries := recoveries') == Step(s, ActionOf(actor, a))
      requires Present(actor, Step(s, ActionOf(actor, a)))
      modifies Repr()
      ensures Valid() && old(trace) + [ActionOf(actor, a)] <= trace
      ensures SamePosition(actor, Step(s, ActionOf(actor, a)), World())
    {
      threads, recoveries := threads', recoveries';
      PT.ReachSnoc(cacheKey, lockKey, trace, ActionOf(actor, a));
      trace := trace + [ActionOf(actor, a)];
      Others(actor);
    }

    // ---------- the calls of the idempotency protocol, one by one ----------

    /** Request t is about to make the call pc for this payment. */
    ghost predicate At(t: nat, payment: Payment, pc: Pc)
      reads this
    {
      t in threads && threads[t] == Thread(payment, pc)
    }

    /** Reads Redis. The lookup is over unless the cache has nothing to say. */
    method ReadCached(t: nat, payment: Payment, site: Site) returns (over: bool, r: Lookup, ghost o: Outcome)
      requires Valid() && At(t, payment, ReadCache(site))
      modifies Repr()
      ensures Valid() && old(trace) + [Call(t, Plain(o))] <= trace
      ensures At(t, payment, if over then AfterLookup(site, r) else ReadRecord(site))
      ensures var k, entries := cacheKey(payment.merchantId, payment.idempotencyKey), old(cache.entries);
              && over == (o == Succeeds && k in entries)
              && (over ==> r == if entries[k].Cached? then Found(entries[k].payment) else LookupFailed)
    {
      ghost var s := World();
      var ok, cached, answer := cache.Get(cacheKey(payment.merchantId, payment.idempotencyKey));
      o := answer;
      over := ok && cached != [];
      r := if over && cached[0].Cached? then Found(cached[0].payment) else LookupFailed;
      var pc := if over then AfterLookup(site, r) else ReadRecord(site);
      Yield(Request(t), threads[t := Thread(payment, pc)], recoveries, s, Plain(o));
    }

    /** Reads idem_keys. The lookup is over unless there is a record to refill the cache from. */
    method ReadStored(t: nat, payment: Payment, site: Site) returns (over: bool, r: Lookup, found: Payment, ghost o: Outcome)
      requires Valid() && At(t, payment, ReadRecord(site))
      modifies Repr()
      ensures Valid() && old(trace) + [Call(t, Plain(o))] <= trace
      ensures At(t, payment, if over then AfterLookup(site, r) else FillCache(site, found))
      ensures var k, records := cacheKey(payment.merchantId, payment.idempotencyKey), old(idemKeys.rows);
              && over == (o != Succeeds || k !in records)
              && (if over then r == if o == Succeeds then Missing else LookupFailed else found == records[k])
    {
      ghost var s := World();
      var ok, record, answer := idemKeys.GetByKey(cacheKey(payment.merchantId, payment.idempotencyKey));
      o := answer;
      over := !ok || record == [];
      r := if ok then Missing else LookupFailed;
      found := if over then payment else record[0];
      var pc := if over then AfterLookup(site, r) else FillCache(site, found);
      Yield(Request(t), threads[t := Thread(payment, pc)], recoveries, s, Plain(o));
    }

    method Refill(t: nat, payment: Payment, site: Site, found: Payment)
      requires Valid() && At(t, payment, FillCache(site, found))
      modifies Repr()
      ensures Valid() && old(trace) <= trace && At(t, payment, Finished(Returned(found)))
    {
      ghost var s := World();
      var _, o := cache.Set(cacheKey(payment.merchantId, payment.idempotencyKey), Cached(found));
      Yield(Request(t), threads[t := Thread(payment, Finished(Returned(found)))], recoveries, s, Plain(o));
    }

    /** SET NX: the lock is acquired exactly if the call succeeds and nobody has it. */
    method AcquireLock(t: nat, payment: Payment) returns (acquired: bool, ghost o: Outcome)
      requires Valid() && At(t, payment, TryLock)
      modifies Repr()
      ensures Valid() && old(trace) + [Call(t, Plain(o))] <= trace
      ensures At(t, payment, if acquired then ReadCache(AfterLock) else PollWait(0))
      ensures acquired <==>
                o == Succeeds && lockKey(cacheKey(payment.merchantId, payment.idempotencyKey)) !in old(cache.entries)
    {
      ghost var s := World();
      acquired, o := cache.SetNx(lockKey(cacheKey(payment.merchantId, payment.idempotencyKey)), LockHeld);
      var pc := if acquired then ReadCache(AfterLock) else PollWait(0);
      Yield(Request(t), threads[t := Thread(payment, pc)], recoveries, s, Plain(o));
    }

    /** Waits for the next poll, unless the request is cancelled first. */
    method WaitToPoll(t: nat, payment: Payment, n: nat) returns (ok: bool)
      requires Valid() && At(t, payment, PollWait(n))
      modifies Repr()
      ensures Valid() && old(trace) <= trace
      ensures At(t, payment, if ok then ReadCache(Polling(n)) else Finished(Errored(Cancelled)))
    {
      ghost var s := World();
      ok := *;
      var pc := if ok then ReadCache(Polling(n)) else Finished(Errored(Cancelled));
      Yield(Request(t), threads[t := Thread(payment, pc)], recoveries, s, Plain(if ok then Succeeds else FailsBefore));
    }

    method PersistPayment(t: nat, payment: Payment) returns (ok: bool)
      requires Valid() && At(t, payment, InsertPayment)
      modifies Repr()
      ensures Valid() && old(trace) <= trace
      ensures At(t, payment, if ok then InsertRecord else Finished(Errored(Internal)))
    {
      ghost var s := World();
      ghost var o;
      ok, o := payments.Create(payment);
      var pc := if ok then InsertRecord else Finished(Errored(Internal));
      Yield(Request(t), threads[t := Thread(payment, pc)], recoveries, s, Plain(o));
    }

    method CreateRecord(t: nat, payment: Payment) returns (ok: bool)
      requires Valid() && At(t, payment, InsertRecord)
      modifies Repr()
      ensures Valid() && old(trace) <= trace
      ensures At(t, payment, if ok then CallBank else Finished(Errored(Internal)))
    {
      ghost var s := World();
      ghost var o;
      ok, o := idemKeys.Create(cacheKey(payment.merchantId, payment.idempotencyKey), payment);
      var pc := if ok then CallBank else Finished(Errored(Internal));
      Yield(Request(t), threads[t := Thread(payment, pc)], recoveries, s, Plain(o));
    }

    /** Asks the bank; the thread's copy of the payment takes the outcome. */
    method Authorize(t: nat, payment: Payment) returns (settled: Payment, reply: BankReply)
      requires Valid() && At(t, payment, CallBank)
      modifies Repr()
      ensures Valid() && old(trace) <= trace
      ensures settled == Settled(payment, reply) && At(t, settled, SavePayment(reply))
      ensures BankCall(payment.id, reply) in bank.calls
    {
      ghost var s, before := World(), trace;
      reply := bank.AuthorizePayment(payment.id);
      match reply {
        case Approved(reference) => settled := payment.(status := Completed, bankReference := reference);
        case Declined(message) => settled := payment.(status := Failed, failedReason := BankMessage(message));
        case Unreachable => settled := payment.(status := Failed, failedReason := ProviderUnavailable);
      }
      ghost var a := Answer(Succeeds, reply, 0, 0);
      Yield(Request(t), threads[t := Thread(settled, SavePayment(reply))], recoveries, s, a);
      PT.ReachSnoc(cacheKey, lockKey, before, Call(t, a));
      BankCallStays(before + [Call(t, a)], BankCall(payment.id, reply));
    }

    /** What has been in the run's state stays: the bank's calls, and a saved outcome. */
    lemma BankCallStays(before: seq<Action>, call: BankCall)
      requires Valid() && before <= trace && call in Reach(cacheKey, lockKey, before).db.bank
      ensures call in bank.calls
    {
      assert before + trace[|before|..] == trace;
      PT.Later(cacheKey, lockKey, before, trace[|before|..]);
      var i :| 0 <= i < |Reach(cacheKey, lockKey, before).db.bank| && Reach(cacheKey, lockKey, before).db.bank[i] == call;
      assert bank.calls[i] == call;
    }

    lemma OutcomeStays(before: seq<Action>, payment: Payment)
      requires Valid() && before <= trace && PI.SavedAs(Reach(cacheKey, lockKey, before).db, payment)
      ensures PI.SavedAs(World().db, payment)
    {
      assert before + trace[|before|..] == trace;
      PT.Later(cacheKey, lockKey, before, trace[|before|..]);
      PI.SavedCarries(Reach(cacheKey, lockKey, before).db, World().db, payment);
    }

    method SaveOutcome(t: nat, payment: Payment, reply: BankReply) returns (ok: bool)
      requires Valid() && At(t, payment, SavePayment(reply))
      modifies Repr()
      ensures Valid() && old(trace) <= trace
      ensures At(t, payment, if ok then UpdateRecord(reply) else Finished(Errored(PersistError(reply))))
      ensures ok ==> PI.SavedAs(World().db, payment)
      ensures !ok ==> SomeCallFailed(Request(t), payment.id, cacheKey, lockKey, trace, |old(trace)|)
    {
      ghost var s, before := World(), trace;
      ghost var o;
      ok, o := payments.Update(payment);
      var pc := if ok then UpdateRecord(reply) else Finished(Errored(PersistError(reply)));
      Yield(Request(t), threads[t := Thread(payment, pc)], recoveries, s, Plain(o));
      if ok { OutcomeIsSaved(t, payment, reply); } else { ThisCallFailed(Request(t), payment.id, cacheKey, lockKey, before, Plain(o), trace); }
    }

    lemma OutcomeIsSaved(t: nat, payment: Payment, reply: BankReply)
      requires Valid() && At(t, payment, UpdateRecord(reply))
      ensures PI.SavedAs(World().db, payment)
    {
      PT.ReachableIsGood(cacheKey, lockKey, trace);
      assert PI.ThreadOk(World().db, World().threads[t]);
    }

    method StoreRecord(t: nat, payment: Payment, reply: BankReply) returns (ok: bool)
      requires Valid() && At(t, payment, UpdateRecord(reply))
      modifies Repr()
      ensures Valid() && old(trace) <= trace
      ensures At(t, payment, if ok then StoreResult(reply) else Finished(Errored(PersistError(reply))))
      ensures !ok ==> SomeCallFailed(Request(t), payment.id, cacheKey, lockKey, trace, |old(trace)|)
    {
      ghost var s, before := World(), trace;
      ghost var o;
      ok, o := idemKeys.UpdateResponse(cacheKey(payment.merchantId, payment.idempotencyKey), payment);
      var pc := if ok then StoreResult(reply) else Finished(Errored(PersistError(reply)));
      Yield(Request(t), threads[t := Thread(payment, pc)], recoveries, s, Plain(o));
      if !ok { ThisCallFailed(Request(t), payment.id, cacheKey, lockKey, before, Plain(o), trace); }
    }

    method StoreCached(t: nat, payment: Payment, reply: BankReply)
      requires Valid() && At(t, payment, StoreResult(reply))
      modifies Repr()
      ensures Valid() && old(trace) <= trace && At(t, payment, AfterStore(reply))
    {
      ghost var s := World();
      var _, o := cache.Set(cacheKey(payment.merchantId, payment.idempotencyKey), Cached(payment));
      Yield(Request(t), threads[t := Thread(payment, AfterStore(reply))], recoveries, s, Plain(o));
    }

    // ---------- the idempotency protocol ----------

    /** getIdempotencyResult: Redis first, then idem_keys, refilling Redis from it. `o` and `o'` are how
        the two reads end; the second one, if it is made, is when the run is as long as `second`. */
    method GetIdempotencyResult(t: nat, payment: Payment, site: Site)
      returns (r: Lookup, ghost o: Outcome, ghost second: seq<Action>, ghost o': Outcome)
      requires Valid() && At(t, payment, ReadCache(site))
      modifies Repr()
      ensures Valid() && old(trace) + [Call(t, Plain(o))] <= trace && At(t, payment, AfterLookup(site, r))
      ensures LeadsTo(site, r, AfterLookup(site, r)) && old(trace) <= second
      ensures (o == Succeeds && cacheKey(payment.merchantId, payment.idempotencyKey) in old(cache.entries))
              || second + [Call(t, Plain(o'))] <= trace
      ensures Answers(old(World()), o, Reach(cacheKey, lockKey, second), o',
                      cacheKey(payment.merchantId, payment.idempotencyKey), r)
    {
      var over;
      o' := Succeeds;
      over, r, o := ReadCached(t, payment, site);
      second := trace;
      if over {
        return;
      }
      var found;
      over, r, found, o' := ReadStored(t, payment, site);
      if over {
        return;
      }
      Refill(t, payment, site, found);
      r := Found(found);
    }

    /** pollForResults: five lookups after a delay each and a last one without. The caller is told that
        the payment is in progress only after all six, and that it was cancelled only before the fifth. */
    method PollForResults(t: nat, payment: Payment) returns (r: Response)
      requires Valid() && At(t, payment, PollWait(0))
      modifies Repr()
      ensures Valid() && old(trace) <= trace && At(t, payment, Finished(r))
      ensures r.Returned? || r.error in {InProgress, Cancelled}
      ensures PT.PollsOf(cacheKey, lockKey, old(trace), t) == 0 && PT.PollsOf(cacheKey, lockKey, trace, t) <= 6
      ensures r == Errored(InProgress) ==> PT.PollsOf(cacheKey, lockKey, trace, t) == 6
      ensures r == Errored(Cancelled) ==> PT.PollsOf(cacheKey, lockKey, trace, t) < 5
    {
      PT.PollsAreBounded(cacheKey, lockKey, trace, t);
      r := PollUntilFound(t, payment);
      PT.PollsAreBounded(cacheKey, lockKey, trace, t);
    }

    method PollUntilFound(t: nat, payment: Payment) returns (r: Response)
      requires Valid() && At(t, payment, PollWait(0))
      modifies Repr()
      ensures Valid() && old(trace) <= trace && At(t, payment, Finished(r))
      ensures r.Returned? || r.error in {InProgress, Cancelled}
    {
      var n := 0;
      while n < POLLS
        invariant 0 <= n <= POLLS && Valid() && old(trace) <= trace
        invariant At(t, payment, if n < POLLS then PollWait(n) else ReadCache(Polling(POLLS)))
      {
        var ok := WaitToPoll(t, payment, n);
        if !ok {
          return Errored(Cancelled);
        }
        var found, _, _, _ := GetIdempotencyResult(t, payment, Polling(n));
        if found.Found? {
          return Returned(found.payment);
        }
        n := n + 1;
      }
      var found, _, _, _ := GetIdempotencyResult(t, payment, Polling(POLLS));
      r := if found.Found? then Returned(found.payment) else Errored(InProgress);
    }

    /** storeIdempotencyResult: the record must be written, the cache is best effort. */
    method StoreIdempotencyResult(t: nat, payment: Payment, reply: BankReply) returns (ok: bool)
      requires Valid() && At(t, payment, UpdateRecord(reply))
      modifies Repr()
      ensures Valid() && old(trace) <= trace
      ensures At(t, payment, if ok then AfterStore(reply) else Finished(Errored(PersistError(reply))))
      ensures !ok ==> SomeCallFailed(Request(t), payment.id, cacheKey, lockKey, trace, |old(trace)|)
    {
      ok := StoreRecord(t, payment, reply);
      if ok {
        StoreCached(t, payment, reply);
      }
    }

    // ---------- publishing, for requests and for recovery runs ----------

    /** The actor is about to publish this payment. */
    ghost predicate Publishing(actor: Actor, payment: Payment)
      reads this
    {
      match actor
      case Request(t) => At(t, payment, Publish)
      case RecoveryRun(r) =>
        r in recoveries && recoveries[r].queue != [] && recoveries[r].queue[0] == payment && !recoveries[r].marking
    }

    /** The event is written and the actor is about to flag the row. */
    ghost predicate Marking(actor: Actor, payment: Payment, queue: seq<Payment>)
      reads this
    {
      match actor
      case Request(t) => At(t, payment, MarkPublished)
      case RecoveryRun(r) =>
        queue != [] && queue[0] == payment && r in recoveries && recoveries[r] == Recovery(queue, true)
    }

    /** The actor is done with the payment it was publishing: the request is finished, and the
        recovery run goes on with the rest of its queue. */
    ghost predicate DonePublishing(actor: Actor, payment: Payment, queue: seq<Payment>)
      reads this
    {
      match actor
      case Request(t) => At(t, payment, Finished(Returned(payment)))
      case RecoveryRun(r) => queue != [] && r in recoveries && recoveries[r] == Recovery(queue[1..], false)
    }

    /** What a recovery run still has to deal with. */
    ghost function Queue(actor: Actor): seq<Payment>
      reads this
    {
      if actor.RecoveryRun? && actor.r in recoveries then recoveries[actor.r].queue else []
    }

    function ThreadsAfter(actor: Actor, pc: Pc): map<nat, Thread>
      reads this
    {
      if actor.Request? && actor.t in threads then threads[actor.t := threads[actor.t].(pc := pc)] else threads
    }

    function RecoveriesAfter(actor: Actor, marking: bool): map<nat, Recovery>
      reads this
    {
      if actor.RecoveryRun? && actor.r in recoveries && recoveries[actor.r].queue != []
      then recoveries[actor.r := if marking then recoveries[actor.r].(marking := true)
                                 else Recovery(recoveries[actor.r].queue[1..], false)]
      else recoveries
    }

    /** A new event id is drawn and the event is sent. An id drawn before makes the call fail. */
    method SendEvent(actor: Actor, payment: Payment) returns (ok: bool, ghost a: Answer)
      requires Valid() && Publishing(actor, payment)
      modifies Repr()
      ensures Valid() && old(trace) + [ActionOf(actor, a)] <= trace && (!ok ==> a.outcome != Succeeds)
      ensures if ok then Marking(actor, payment, old(Queue(actor)))
              else DonePublishing(actor, payment, old(Queue(actor)))
    {
      ghost var s := World();
      var eventId: Symbol := *;
      a := Answer(FailsBefore, Unreachable, eventId, 0);
      ok := Fresh(World().db, eventId);
      if ok {
        drawn := drawn + {eventId};
        ok, a := kafka.Publish(eventId, payment);
      }
      var pc := if ok then MarkPublished else Finished(Returned(payment));
      Yield(actor, ThreadsAfter(actor, pc), RecoveriesAfter(actor, ok), s, a);
    }

    method WriteEvent(actor: Actor, payment: Payment) returns (ok: bool)
      requires Valid() && Publishing(actor, payment)
      modifies Repr()
      ensures Valid() && old(trace) <= trace
      ensures if ok then Marking(actor, payment, old(Queue(actor)))
              else DonePublishing(actor, payment, old(Queue(actor)))
      ensures !ok ==> SomeCallFailed(actor, payment.id, cacheKey, lockKey, trace, |old(trace)|)
    {
      ghost var before := trace;
      ghost var a;
      ok, a := SendEvent(actor, payment);
      if !ok {
        ThisCallFailed(actor, payment.id, cacheKey, lockKey, before, a, trace);
      }
    }

    lemma MarkedHasRow(actor: Actor, payment: Payment, queue: seq<Payment>)
      requires Valid() && Marking(actor, payment, queue)
      ensures payment.id in payments.rows
    {
      PT.ReachableIsGood(cacheKey, lockKey, trace);
      HasSettledRow(actor, World(), payment);
    }

    method FlagRow(actor: Actor, payment: Payment, ghost queue: seq<Payment>) returns (ok: bool)
      requires Valid() && Marking(actor, payment, queue)
      modifies Repr()
      ensures Valid() && old(trace) <= trace && DonePublishing(actor, payment, queue)
      ensures ok ==> payment.id in payments.rows && payments.rows[payment.id].eventPublished
      ensures !ok ==> SomeCallFailed(actor, payment.id, cacheKey, lockKey, trace, |old(trace)|)
    {
      ghost var s, before := World(), trace;
      MarkedHasRow(actor, payment, queue);
      ghost var o;
      ok, o := payments.MarkEventPublished(payment.id);
      ghost var flagged := trace + [ActionOf(actor, Plain(o))];
      PT.ReachSnoc(cacheKey, lockKey, trace, ActionOf(actor, Plain(o)));
      Yield(actor, ThreadsAfter(actor, Finished(Returned(payment))), RecoveriesAfter(actor, false), s, Plain(o));
      if ok {
        StaysFlagged(flagged, payment.id);
      } else {
        ThisCallFailed(actor, payment.id, cacheKey, lockKey, before, Plain(o), trace);
      }
    }

    lemma StaysFlagged(flagged: seq<Action>, id: Symbol)
      requires Valid() && flagged <= trace
      requires var rows := Reach(cacheKey, lockKey, flagged).db.payments; id in rows && rows[id].eventPublished
      ensures id in payments.rows && payments.rows[id].eventPublished
    {
      assert flagged + trace[|flagged|..] == trace;
      PT.RowsFollowLifecycle(cacheKey, lockKey, flagged, trace[|flagged|..], id);
    }

    /** PublishEvent: write the event, then flag the row. It fails only if one of the two calls does. */
    method PublishEvent(actor: Actor, payment: Payment) returns (ok: bool)
      requires Valid() && Publishing(actor, payment)
      modifies Repr()
      ensures Valid() && old(trace) <= trace && DonePublishing(actor, payment, old(Queue(actor)))
      ensures ok ==> payment.id in payments.rows && payments.rows[payment.id].eventPublished
      ensures !ok ==> SomeCallFailed(actor, payment.id, cacheKey, lockKey, trace, |old(trace)|)
    {
      ghost var queue := Queue(actor);
      ok := WriteEvent(actor, payment);
      if ok {
        ghost var written := trace;
        ok := FlagRow(actor, payment, queue);
        if !ok {
          FailureStays(actor, payment.id, cacheKey, lockKey, trace, trace, |written|, |old(trace)|);
        }
      }
    }

    // ---------- the two entry points ----------

    /** The request's own payment is made, under ids never drawn before. */
    method Begin(t: nat, input: Input, id: Symbol, reference: Symbol) returns (payment: Payment)
      requires Valid() && t !in threads && Accepted(input)
      requires Fresh(World().db, id) && Fresh(World().db, reference) && id != reference
      modifies Repr()
      ensures Valid() && old(trace) + [Arrive(t, input, id, reference)] <= trace
      ensures payment == NewPayment(input, id, reference) && At(t, payment, ReadCache(BeforeLock))
      ensures MadeFor(payment, input, id) && payment.status == Processing && !payment.eventPublished
    {
      payment := Payment(id, input.merchantId, input.amount, NGN, Processing, input.customerEmail, input.customerName,
                         input.metadata, input.idempotencyKey, reference, NoReason, false);
      drawn := drawn + {id, reference};
      threads := threads[t := Thread(payment, ReadCache(BeforeLock))];
      PT.ReachSnoc(cacheKey, lockKey, trace, Arrive(t, input, id, reference));
      trace := trace + [Arrive(t, input, id, reference)];
      Others(Request(t));
    }

    /** A call of request t failed since the run was this long. */
    ghost predicate CallFailed(t: nat, from: nat)
      reads this
    {
      exists i :: from <= i < |trace| && FailsAt(t, i)
    }

    ghost predicate FailsAt(t: nat, i: nat)
      requires i < |trace|
      reads this
    {
      var s, a := Reach(cacheKey, lockKey, trace[..i]), trace[i];
      a.Call? && a.t == t && t in s.threads && !s.threads[t].pc.Finished? && a.answer.outcome != Succeeds
    }

    /** A lock value was under this cache key since the run was this long. */
    ghost predicate LockSeen(k: Symbol, from: nat)
      reads this
    {
      exists i :: from <= i < |trace| && RP.LockUnder(Reach(cacheKey, lockKey, trace[..i]), k)
    }

    lemma LookupIsClean(t: nat, start: seq<Action>, from: nat, k: Symbol)
      requires start <= trace && from <= |start| && !CallFailed(t, from) && !LockSeen(k, from)
      ensures RP.CleanRun(Reach(cacheKey, lockKey, start), trace[|start|..], t, k)
    {
      var s, after := Reach(cacheKey, lockKey, start), trace[|start|..];
      forall i | 0 <= i < |after| ensures RP.Clean(Run(Step, s, after[..i]), after[i], t, k) {
        assert start + after[..i] == trace[..|start| + i];
        RunConcat(Step, Init(cacheKey, lockKey), start, after[..i]);
        assert !FailsAt(t, |start| + i) && !RP.LockUnder(Reach(cacheKey, lockKey, trace[..|start| + i]), k);
      }
    }

    /** The request that started its lookup when its key was on record has been answered with a payment,
        unless one of its calls failed or it met a lock value. */
    lemma KnownKeyIsAnswered(t: nat, start: seq<Action>, from: nat, k: Symbol, r: Response)
      requires Valid() && start <= trace && from <= |start| && !CallFailed(t, from) && !LockSeen(k, from)
      requires var s := Reach(cacheKey, lockKey, start);
               && t in s.threads && s.threads[t].pc.ReadCache? && KeyIn(s.db, s.threads[t].payment) == k && k in s.db.records
      requires t in World().threads && World().threads[t].pc == Finished(r) && r != Errored(Crashed)
      ensures r.Returned?
    {
      if r.Errored? {
        LookupIsClean(t, start, from, k);
        RP.KnownIsNotAnError(cacheKey, lockKey, start, trace, t, r.error);
      }
    }

    /** A record stays. */
    lemma RecordStays(before: seq<Action>, k: Symbol)
      requires Valid() && before <= trace && k in Reach(cacheKey, lockKey, before).db.records
      ensures k in idemKeys.rows
    {
      assert before + trace[|before|..] == trace;
      PT.Later(cacheKey, lockKey, before, trace[|before|..]);
    }

    /** CreatePayment. What it returns is a copy of the payment that owns the request's cache key. An error
        has its reason in a call of this request; and if the key was on record, then one of its calls
        failed, or a lock value was under the cache key. */
    method CreatePayment(t: nat, input: Input, id: Symbol, reference: Symbol) returns (r: Response)
      requires Valid() && t !in threads && Accepted(input)
      requires Fresh(World().db, id) && Fresh(World().db, reference) && id != reference
      modifies Repr()
      ensures Valid() && old(trace) <= trace
      ensures t in threads && threads[t].pc == Finished(r)
      ensures MadeFor(threads[t].payment, input, id)
      ensures r.Returned? ==> PI.EntryOk(World().db, cacheKey(input.merchantId, input.idempotencyKey), r.payment)
      ensures r.Errored? ==> r.error != Crashed && exists i :: PE.ReasonAt(cacheKey, lockKey, trace, t, r.error, i)
      ensures var k := cacheKey(input.merchantId, input.idempotencyKey);
              r.Errored? && k in old(idemKeys.rows) ==> CallFailed(t, |old(trace)|) || LockSeen(k, |old(trace)|)
    {
      var payment := Begin(t, input, id, reference);
      ghost var k, start := cacheKey(input.merchantId, input.idempotencyKey), trace;
      if k in Reach(cacheKey, lockKey, old(trace)).db.records { RecordStays(old(trace), k); }
      r := Process(t, payment);
      ReturnedIsEntry(t, payment, r);
      StaysMadeFor(threads[t].payment, payment, input, id);
      if r.Errored? {
        ghost var i := PE.ErrorHasReason(cacheKey, lockKey, trace, t, r.error);
        if k in Reach(cacheKey, lockKey, start).db.records && !CallFailed(t, |old(trace)|) && !LockSeen(k, |old(trace)|) {
          KnownKeyIsAnswered(t, start, |old(trace)|, k, r);
        }
      }
    }

    lemma ReturnedIsEntry(t: nat, payment: Payment, r: Response)
      requires Valid() && t in threads && threads[t].pc == Finished(r) && Identity(threads[t].payment) == Identity(payment)
      ensures r.Returned? ==> PI.EntryOk(World().db, cacheKey(payment.merchantId, payment.idempotencyKey), r.payment)
    {
      PT.ReachableIsGood(cacheKey, lockKey, trace);
      assert PI.ThreadOk(World().db, threads[t]);
      PI.KeyFromIdentity(World().db, threads[t].payment, payment);
    }

    method Process(t: nat, payment: Payment) returns (r: Response)
      requires Valid() && At(t, payment, ReadCache(BeforeLock))
      modifies Repr()
      ensures Valid() && old(trace) <= trace
      ensures t in threads && threads[t].pc == Finished(r) && Identity(threads[t].payment) == Identity(payment)
      ensures r != Errored(Crashed)
    {
      var existing, _, _, _ := GetIdempotencyResult(t, payment, BeforeLock);
      if existing.Found? {
        return Returned(existing.payment);
      } else if existing.LookupFailed? {
        return Errored(Internal);
      }
      var acquired, _ := AcquireLock(t, payment);
      if !acquired {
        r := PollForResults(t, payment);
        return;
      }
      r := ProcessLocked(t, payment);
    }

    /** The part of CreatePayment under the lock: it looks again, and submits what nobody has. */
    method ProcessLocked(t: nat, payment: Payment) returns (r: Response)
      requires Valid() && At(t, payment, ReadCache(AfterLock))
      modifies Repr()
      ensures Valid() && old(trace) <= trace
      ensures t in threads && threads[t].pc == Finished(r) && Identity(threads[t].payment) == Identity(payment)
      ensures r != Errored(Crashed)
    {
      var existing, _, _, _ := GetIdempotencyResult(t, payment, AfterLock);
      if existing.Found? {
        return Returned(existing.payment);
      } else if existing.LookupFailed? {
        return Errored(Internal);
      }
      r := Submit(t, payment);
    }

    /** The part of CreatePayment from the row insert on. */
    method Submit(t: nat, payment: Payment) returns (r: Response)
      requires Valid() && At(t, payment, InsertPayment)
      modifies Repr()
      ensures Valid() && old(trace) <= trace
      ensures t in threads && threads[t].pc == Finished(r) && Identity(threads[t].payment) == Identity(payment)
      ensures r != Errored(Crashed)
    {
      var ok := PersistPayment(t, payment);
      if !ok {
        return Errored(Internal);
      }
      ok := CreateRecord(t, payment);
      if !ok {
        return Errored(Internal);
      }
      ghost var reply;
      r, reply := Charge(t, payment);
    }

    /** The response to each reply of the bank once the outcome is stored. */
    function ResponseTo(reply: BankReply, settled: Payment): Response {
      match reply
      case Approved(_) => Returned(settled)
      case Declined(message) => Errored(PaymentDeclined(message))
      case Unreachable => Errored(ProviderFailed)
    }

    /** The part of CreatePayment from the bank call on. The bank's reply decides the response, and then
        the row has the outcome; if instead saving the row or the record failed, the response says so. */
    method Charge(t: nat, payment: Payment) returns (r: Response, ghost reply: BankReply)
      requires Valid() && At(t, payment, CallBank)
      modifies Repr()
      ensures Valid() && old(trace) <= trace
      ensures t in threads && threads[t] == Thread(Settled(payment, reply), Finished(r))
      ensures BankCall(payment.id, reply) in bank.calls
      ensures r == ResponseTo(reply, Settled(payment, reply)) || r == Errored(PersistError(reply))
      ensures r == ResponseTo(reply, Settled(payment, reply)) ==> PI.SavedAs(World().db, Settled(payment, reply))
      ensures r == Errored(PersistError(reply)) ==> SomeCallFailed(Request(t), payment.id, cacheKey, lockKey, trace, |old(trace)|)
    {
      var settled, answer := Authorize(t, payment);
      reply := answer;
      ghost var authorized := trace;
      var ok := SaveOutcome(t, settled, answer);
      if !ok {
        StillFailed(t, settled.id, authorized, old(trace));
        BankCallStays(authorized, BankCall(payment.id, reply));
        return Errored(PersistError(answer)), reply;
      }
      ghost var saved := trace;
      ok := StoreIdempotencyResult(t, settled, answer);
      if !ok {
        StillFailed(t, settled.id, saved, old(trace));
        BankCallStays(authorized, BankCall(payment.id, reply));
        return Errored(PersistError(answer)), reply;
      }
      if answer.Approved? {
        var _ := PublishEvent(Request(t), settled);
      }
      OutcomeStays(saved, settled);
      BankCallStays(authorized, BankCall(payment.id, reply));
      match answer {
        case Unreachable => r := Errored(ProviderFailed);
        case Declined(message) => r := Errored(PaymentDeclined(message));
        case Approved(_) => r := Returned(settled);
      }
    }

    lemma StillFailed(t: nat, id: Symbol, from: seq<Action>, earlier: seq<Action>)
      requires SomeCallFailed(Request(t), id, cacheKey, lockKey, trace, |from|) && earlier <= from
      ensures SomeCallFailed(Request(t), id, cacheKey, lockKey, trace, |earlier|)
    {
      FailureStays(Request(t), id, cacheKey, lockKey, trace, trace, |from|, |earlier|);
    }

    /** Reads the rows a recovery run will work on. */
    method ScanUnpublished(r: nat, answer: Outcome) returns (ok: bool, found: seq<Payment>)
      requires Valid() && r !in recoveries
      modifies Repr()
      ensures Valid() && old(trace) <= trace && ok == (answer == Succeeds)
      ensures ok ==> r in recoveries && recoveries[r] == Recovery(found, false)
      ensures ok ==> forall id :: id in old(payments.rows) && old(payments.rows)[id].status in {Completed, Failed}
                                  && !old(payments.rows)[id].eventPublished ==>
                       exists i :: 0 <= i < |found| && found[i].id == id
    {
      ghost var order;
      PT.ReachableIsGood(cacheKey, lockKey, trace);
      ok, found, order := payments.GetAllUnpublished(answer);
      if ok {
        forall id | id in payments.rows && Unpublished(payments.rows[id])
          ensures exists i :: 0 <= i < |found| && found[i].id == id
        {
          var i :| 0 <= i < |order| && order[i] == id;
          assert PI.RowOk(World().db, id) && found[i].id == id;
        }
        recoveries := recoveries[r := Recovery(found, false)];
        PT.ReachSnoc(cacheKey, lockKey, trace, Scan(r, order));
        trace := trace + [Scan(r, order)];
        Others(RecoveryRun(r));
      }
    }

    ghost predicate Dealt(found: seq<Payment>, n: nat, failed: set<Symbol>)
      requires n <= |found|
      reads Repr()
    {
      forall i :: 0 <= i < n ==>
        found[i].id in failed || (found[i].id in payments.rows && payments.rows[found[i].id].eventPublished)
    }

    /** Rows that were flagged stay flagged. */
    lemma StillDealt(found: seq<Payment>, n: nat, failed: set<Symbol>, before: seq<Action>)
      requires Valid() && before <= trace && n <= |found|
      requires var rows := Reach(cacheKey, lockKey, before).db.payments;
               forall i :: 0 <= i < n ==>
                 found[i].id in failed || (found[i].id in rows && rows[found[i].id].eventPublished)
      ensures Dealt(found, n, failed)
    {
      forall i | 0 <= i < n && found[i].id !in failed
        ensures found[i].id in payments.rows && payments.rows[found[i].id].eventPublished
      {
        StaysFlagged(before, found[i].id);
      }
    }

    /** Each of these payments had a call of its own fail since the run was this long. */
    ghost predicate AllFailed(r: nat, failed: set<Symbol>, from: nat)
      reads this
    {
      forall id :: id in failed ==> SomeCallFailed(RecoveryRun(r), id, cacheKey, lockKey, trace, from)
    }

    lemma StillAllFailed(r: nat, failed: set<Symbol>, before: seq<Action>, from: nat)
      requires before <= trace
      requires forall id :: id in failed ==> SomeCallFailed(RecoveryRun(r), id, cacheKey, lockKey, before, from)
      ensures AllFailed(r, failed, from)
    {
      forall id | id in failed ensures SomeCallFailed(RecoveryRun(r), id, cacheKey, lockKey, trace, from) {
        FailureStays(RecoveryRun(r), id, cacheKey, lockKey, before, trace, from, from);
      }
    }

    /** One round of the loop of runRecovery. A failure is logged, and the loop goes on. */
    method PublishNext(r: nat, found: seq<Payment>, i: nat, earlier: set<Symbol>, ghost from: nat) returns (failed: set<Symbol>)
      requires Valid() && i < |found| && r in recoveries && recoveries[r] == Recovery(found[i..], false)
      requires Dealt(found, i, earlier) && AllFailed(r, earlier, from) && from <= |trace|
      modifies Repr()
      ensures Valid() && old(trace) <= trace && r in recoveries && recoveries[r] == Recovery(found[i + 1..], false)
      ensures Dealt(found, i + 1, failed) && AllFailed(r, failed, from)
    {
      ghost var before := trace;
      assert found[i..][1..] == found[i + 1..];
      var published := PublishEvent(RecoveryRun(r), found[i]);
      failed := if published then earlier else earlier + {found[i].id};
      StillDealt(found, i, earlier, before);
      StillAllFailed(r, earlier, before, from);
      if !published {
        FailureStays(RecoveryRun(r), found[i].id, cacheKey, lockKey, trace, trace, |before|, from);
      }
    }

    /** The loop of runRecovery. */
    method PublishAll(r: nat, found: seq<Payment>) returns (failed: set<Symbol>)
      requires Valid() && r in recoveries && recoveries[r] == Recovery(found, false)
      modifies Repr()
      ensures Valid() && old(trace) <= trace
      ensures Dealt(found, |found|, failed) && AllFailed(r, failed, |old(trace)|)
    {
      failed := {};
      var i := 0;
      while i < |found|
        invariant 0 <= i <= |found| && Valid() && old(trace) <= trace
        invariant r in recoveries && recoveries[r] == Recovery(found[i..], false)
        invariant Dealt(found, i, failed) && AllFailed(r, failed, |old(trace)|)
      {
        failed := PublishNext(r, found, i, failed, |old(trace)|);
        i := i + 1;
      }
    }

    /** runRecovery: every row that was completed or failed when the run started is flagged at its end,
        unless its own publish or flag failed; a failure does not stop the rows after it. Without
        failures, what is unflagged at the end was settled while the run went on. */
    method RunRecovery(r: nat, answer: Outcome) returns (ok: bool, failed: set<Symbol>)
      requires Valid() && r !in recoveries
      modifies Repr()
      ensures Valid() && old(trace) <= trace
      ensures ok == (answer == Succeeds) && AllFailed(r, failed, |old(trace)|)
      ensures ok ==> forall id :: id in old(payments.rows) && old(payments.rows)[id].status in {Completed, Failed}
                                  && id !in failed ==>
                       id in payments.rows && payments.rows[id].eventPublished
      ensures ok && failed == {} ==> forall id :: id in payments.rows && !payments.rows[id].eventPublished ==>
                                       id in old(payments.rows) ==> old(payments.rows)[id].status == Processing
    {
      ghost var start, rows := trace, payments.rows;
      var found;
      failed := {};
      ok, found := ScanUnpublished(r, answer);
      if !ok {
        return;
      }
      ghost var scanned := trace;
      failed := PublishAll(r, found);
      forall id | id in failed ensures SomeCallFailed(RecoveryRun(r), id, cacheKey, lockKey, trace, |old(trace)|) {
        FailureStays(RecoveryRun(r), id, cacheKey, lockKey, trace, trace, |scanned|, |old(trace)|);
      }
      forall id | id in rows && rows[id].eventPublished ensures id in payments.rows && payments.rows[id].eventPublished {
        StaysFlagged(start, id);
      }
    }
  }
}
