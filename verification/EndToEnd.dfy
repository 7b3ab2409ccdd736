/** The payment service, the Kafka log and the ledger together. Handlers of the ledger receive any
    message of the log, any number of times and in any order. */
module EndToEnd {
  import opened GoText
  import opened PaymentDomain
  import opened Runs
  import P = PaymentProtocol
  import PI = PaymentInvariant
  import PS = PaymentSteps
  import L = LedgerProtocol
  import LT = LedgerTheorems

  function TypeText(t: EventType): Symbol {
    Intern(match t case PaymentSucceeded => "payment.succeeded" case PaymentFailed => "payment.failed")
  }

  function StatusText(status: Status): Symbol {
    Intern(match status case Processing => "processing" case Completed => "completed" case Failed => "failed")
  }

  function SourceText(): Symbol { Intern("payment-service") }

  function CurrencyText(c: Currency): Symbol { Intern(match c case NGN => "NGN") }

  /** The event as the ledger reads it from the message. */
  function Wire(e: Event): L.PaymentEvent {
    L.PaymentEvent(e.id, TypeText(e.eventType), SourceText(), e.paymentId, e.merchantId, e.amount,
                   CurrencyText(e.currency), StatusText(e.status))
  }

  datatype State = State(wire: Event -> L.PaymentEvent, pay: P.State, ledger: L.State)

  datatype Action =
    | Pay(pay: P.Action)
    | Deliver(h: nat, offset: nat)
    | Handle(h: nat, outcome: L.Outcome)
    | HandlerCrash(h: nat)

  /** Only payment.succeeded messages reach the ledger's service. */
  ghost function Step(s: State, a: Action): State {
    match a
    case Pay(pay) => s.(pay := P.Step(s.pay, pay))
    case Deliver(h, offset) =>
      var log := s.pay.db.kafka;
      if offset < |log| && log[offset].eventType == PaymentSucceeded
      then s.(ledger := L.Step(s.ledger, L.Deliver(h, s.wire(log[offset]))))
      else s
    case Handle(h, outcome) => s.(ledger := L.Step(s.ledger, L.Call(h, outcome)))
    case HandlerCrash(h) => s.(ledger := L.Step(s.ledger, L.Crash(h)))
  }

  function Init(
    wire: Event -> L.PaymentEvent, validate: L.PaymentEvent -> L.Validation,
    cacheKey: (Symbol, Symbol) -> Symbol, lockKey: Symbol -> Symbol): State
  {
    State(wire, P.Init(cacheKey, lockKey), L.Init(validate))
  }

  ghost function Reach(cacheKey: (Symbol, Symbol) -> Symbol, lockKey: Symbol -> Symbol, actions: seq<Action>): State {
    Run(Step, Init(Wire, L.Validate, cacheKey, lockKey), actions)
  }

  // ---------- invariant ----------

  ghost predicate FromLog(s: State, e: L.PaymentEvent) {
    exists i :: 0 <= i < |s.pay.db.kafka| && s.pay.db.kafka[i].eventType == PaymentSucceeded
                && e == s.wire(s.pay.db.kafka[i])
  }

  ghost predicate Linked(s: State) {
    && (forall h :: h in s.ledger.handlers ==> FromLog(s, s.ledger.handlers[h].event))
    && (forall i :: 0 <= i < |s.ledger.books.applied| ==> FromLog(s, s.ledger.books.applied[i]))
  }

  ghost predicate Inv(s: State) {
    PI.Inv(s.pay) && LT.Inv(s.ledger) && Linked(s)
  }

  lemma FromLogCarries(s: State, s': State, e: L.PaymentEvent)
    requires FromLog(s, e) && s.pay.db.kafka <= s'.pay.db.kafka && s'.wire == s.wire
    ensures FromLog(s', e)
  {
    var i :| 0 <= i < |s.pay.db.kafka| && s.pay.db.kafka[i].eventType == PaymentSucceeded
             && e == s.wire(s.pay.db.kafka[i]);
    assert s'.pay.db.kafka[i] == s.pay.db.kafka[i];
  }

  lemma PayStep(s: State, a: P.Action)
    requires Inv(s)
    ensures Inv(s.(pay := P.Step(s.pay, a)))
  {
    var s' := s.(pay := P.Step(s.pay, a));
    PS.StepKeepsInvariant(s.pay, a);
    forall h | h in s'.ledger.handlers ensures FromLog(s', s'.ledger.handlers[h].event) {
      FromLogCarries(s, s', s.ledger.handlers[h].event);
    }
    forall i | 0 <= i < |s'.ledger.books.applied| ensures FromLog(s', s'.ledger.books.applied[i]) {
      FromLogCarries(s, s', s.ledger.books.applied[i]);
    }
  }

  /** A step of the ledger adds no event that was not in a handler before. */
  lemma LedgerStepOrigins(s: L.State, a: L.Action)
    ensures forall h :: h in L.Step(s, a).handlers ==>
              || (h in s.handlers && L.Step(s, a).handlers[h].event == s.handlers[h].event)
              || (a.Deliver? && L.Step(s, a).handlers[h].event == a.event)
    ensures var applied, applied' := s.books.applied, L.Step(s, a).books.applied;
            || applied' == applied
            || (exists h :: h in s.handlers && applied' == applied + [s.handlers[h].event])
  {
    if a.Call? && a.h in s.handlers {
      var applied' := L.Step(s, a).books.applied;
      assert applied' == s.books.applied || applied' == s.books.applied + [s.handlers[a.h].event];
    }
  }

  lemma LedgerStep(s: State, a: L.Action)
    requires Inv(s) && (a.Deliver? ==> FromLog(s, a.event))
    ensures Inv(s.(ledger := L.Step(s.ledger, a)))
  {
    var s' := s.(ledger := L.Step(s.ledger, a));
    LT.StepKeepsInvariant(s.ledger, a);
    LedgerStepOrigins(s.ledger, a);
    forall e: L.PaymentEvent | FromLog(s, e) ensures FromLog(s', e) { FromLogCarries(s, s', e); }
  }

  lemma StepKeepsInvariant(s: State, a: Action)
    requires Inv(s)
    ensures Inv(Step(s, a))
  {
    match a
    case Pay(pay) => PayStep(s, pay);
    case Deliver(h, offset) =>
      var log := s.pay.db.kafka;
      if offset < |log| && log[offset].eventType == PaymentSucceeded {
        LedgerStep(s, L.Deliver(h, s.wire(log[offset])));
      }
    case Handle(h, outcome) => LedgerStep(s, L.Call(h, outcome));
    case HandlerCrash(h) => LedgerStep(s, L.Crash(h));
  }

  lemma ReachableIsGood(cacheKey: (Symbol, Symbol) -> Symbol, lockKey: Symbol -> Symbol, actions: seq<Action>)
    ensures Inv(Reach(cacheKey, lockKey, actions))
    ensures Reach(cacheKey, lockKey, actions).wire == Wire
  {
    var start := Init(Wire, L.Validate, cacheKey, lockKey);
    var inv := (s: State) => Inv(s) && s.wire == Wire;
    forall s: State, a: Action | inv(s) ensures inv(Step(s, a)) { StepKeepsInvariant(s, a); }
    InvariantOfRun(Step, inv, start, actions);
  }
}
