/** "A payment is credited at most once" is not true of the system: every publish draws a new event
    id, and the ledger recognizes an event only by its id. A publish whose answer is lost is repeated
    by the recovery job, and then one payment is credited twice. While only the ledger
    acts, it credits a payment at most once exactly when the log holds at most one event id for it;
    CreditedOnce has the condition for the whole system. */
module DoubleCredit {
  import opened GoText
  import opened PaymentDomain
  import opened EndToEnd
  import opened Runs
  import opened Sums
  import P = PaymentProtocol
  import PI = PaymentInvariant
  import L = LedgerProtocol
  import LT = LedgerTheorems
  import C = Conservation
  import K = Contract
  import R = RepublishedPayment

  // ---------- the ledger can credit any event of the log ----------

  /** Handler h stands at pc with event e; the rest is as in s. */
  function At(s: State, h: nat, e: L.PaymentEvent, pc: L.HandlerPc): State {
    s.(ledger := s.ledger.(handlers := s.ledger.handlers[h := L.Handler(e, pc)]))
  }

  lemma HandlerMoves(s: State, h: nat, e: L.PaymentEvent, pc: L.HandlerPc, next: L.HandlerPc)
    requires !pc.Commit? && !pc.Done?
    requires L.AtPc(At(s, h, e, pc).ledger, h, next) == L.Advance(At(s, h, e, pc).ledger, h, L.Succeeds)
    ensures Step(At(s, h, e, pc), Handle(h, L.Succeeds)) == At(s, h, e, next)
  {
    assert s.ledger.handlers[h := L.Handler(e, pc)][h := L.Handler(e, next)] == s.ledger.handlers[h := L.Handler(e, next)];
  }

  /** The books after event e was applied to those of s. */
  function Applied(s: State, e: L.PaymentEvent): L.Books {
    L.Committed(s.ledger.books, e, L.Tx([L.EntryFor(L.Debit, e), L.EntryFor(L.Credit, e)], e.amount, true))
  }

  predicate HasRoom(s: State, e: L.PaymentEvent) {
    L.BalanceOf(s.ledger.books.balances, e.merchantId).pending + e.amount <= L.MAX_INT64
  }

  ghost predicate OnlyLedger(actions: seq<Action>) {
    forall i :: 0 <= i < |actions| ==> !actions[i].Pay?
  }

  /** From this state, these steps of the ledger apply e to the books of s and change nothing else
      that lasts. */
  ghost predicate Applies(from: State, actions: seq<Action>, s: State, e: L.PaymentEvent) {
    var after := Run(Step, from, actions);
    && OnlyLedger(actions) && after.pay == s.pay && after.wire == s.wire
    && after.ledger.validate == s.ledger.validate && after.ledger.books == Applied(s, e)
  }

  function Go(h: nat): Action { Handle(h, L.Succeeds) }

  lemma Prepend(s: State, h: nat, e: L.PaymentEvent, pc: L.HandlerPc, next: L.HandlerPc, rest: seq<Action>)
    requires !pc.Commit? && !pc.Done?
    requires L.AtPc(At(s, h, e, pc).ledger, h, next) == L.Advance(At(s, h, e, pc).ledger, h, L.Succeeds)
    requires Applies(At(s, h, e, next), rest, s, e)
    ensures Applies(At(s, h, e, pc), [Go(h)] + rest, s, e)
  {
    HandlerMoves(s, h, e, pc, next);
    RunCons(Step, At(s, h, e, pc), Go(h), rest);
  }

  lemma CommitApplies(s: State, h: nat, e: L.PaymentEvent)
    requires e.id !in s.ledger.books.processed && HasRoom(s, e)
    ensures var tx := L.Tx([L.EntryFor(L.Debit, e), L.EntryFor(L.Credit, e)], e.amount, true);
            Applies(At(s, h, e, L.Commit(tx)), [Go(h)] + [], s, e)
  {
    var tx := L.Tx([L.EntryFor(L.Debit, e), L.EntryFor(L.Credit, e)], e.amount, true);
    RunCons(Step, At(s, h, e, L.Commit(tx)), Go(h), []);
  }

  lemma HandlerApplies(s: State, h: nat, e: L.PaymentEvent) returns (actions: seq<Action>)
    requires e.id !in s.ledger.books.processed && HasRoom(s, e)
    ensures Applies(At(s, h, e, L.CheckProcessed), actions, s, e)
  {
    var debit, both := [L.EntryFor(L.Debit, e)], [L.EntryFor(L.Debit, e), L.EntryFor(L.Credit, e)];
    assert debit + [L.EntryFor(L.Credit, e)] == both;
    var commit := L.Commit(L.Tx(both, e.amount, true));
    var mark := L.MarkProcessed(L.Tx(both, e.amount, false));
    var increment := L.IncrementPending(L.Tx(both, 0, false));
    var credit := L.InsertCredit(L.Tx(debit, 0, false));
    CommitApplies(s, h, e);
    actions := [Go(h)] + [];
    Prepend(s, h, e, mark, commit, actions);
    actions := [Go(h)] + actions;
    Prepend(s, h, e, increment, mark, actions);
    actions := [Go(h)] + actions;
    Prepend(s, h, e, credit, increment, actions);
    actions := [Go(h)] + actions;
    Prepend(s, h, e, L.InsertDebit, credit, actions);
    actions := [Go(h)] + actions;
    Prepend(s, h, e, L.CheckProcessed, L.InsertDebit, actions);
    actions := [Go(h)] + actions;
  }

  /** Any event of the log that is valid, new to the ledger and fits can be delivered and applied. */
  lemma EventCanBeApplied(s: State, offset: nat) returns (actions: seq<Action>)
    requires offset < |s.pay.db.kafka| && s.pay.db.kafka[offset].eventType == PaymentSucceeded
    requires s.ledger.validate(s.wire(s.pay.db.kafka[offset])) == L.Passed
    requires s.wire(s.pay.db.kafka[offset]).id !in s.ledger.books.processed && HasRoom(s, s.wire(s.pay.db.kafka[offset]))
    ensures Applies(s, actions, s, s.wire(s.pay.db.kafka[offset]))
  {
    var e := s.wire(s.pay.db.kafka[offset]);
    var h := AboveAll(s.ledger.handlers.Keys);
    var rest := HandlerApplies(s, h, e);
    assert Step(s, Deliver(h, offset)) == At(s, h, e, L.CheckProcessed);
    RunCons(Step, s, Deliver(h, offset), rest);
    actions := [Deliver(h, offset)] + rest;
  }

  // ---------- how often a payment is credited ----------

  /** The ids under which the log announces that the payment succeeded. */
  ghost function IdsIn(log: seq<Event>, paymentId: Symbol): set<Symbol> {
    set i | 0 <= i < |log| && log[i].paymentId == paymentId && log[i].eventType == PaymentSucceeded :: log[i].id
  }

  ghost function EventIds(s: State, paymentId: Symbol): set<Symbol> {
    IdsIn(s.pay.db.kafka, paymentId)
  }

  /** Whatever the ledger does from here, it credits the payment at most once. */
  ghost predicate CreditedAtMostOnce(s: State, paymentId: Symbol) {
    forall after :: OnlyLedger(after) ==> |C.CreditedEvents(Run(Step, s, after), paymentId)| <= 1
  }

  lemma {:induction false} LedgerLeavesLog(s: State, actions: seq<Action>)
    requires OnlyLedger(actions)
    ensures Run(Step, s, actions).pay == s.pay && Run(Step, s, actions).wire == s.wire
    decreases |actions|
  {
    if actions != [] {
      LedgerLeavesLog(s, actions[..|actions| - 1]);
    }
  }

  lemma SubsetIsSmaller(a: set<Symbol>, b: set<Symbol>)
    requires a <= b
    ensures |a| <= |b|
  {
    assert b == a + (b - a);
  }

  /** The payment service's part of a run is a run of its own. */
  lemma {:induction false} PayPart(cacheKey: (Symbol, Symbol) -> Symbol, lockKey: Symbol -> Symbol, actions: seq<Action>)
    returns (pays: seq<P.Action>)
    ensures Reach(cacheKey, lockKey, actions).pay == P.Reach(cacheKey, lockKey, pays)
    ensures Reach(cacheKey, lockKey, actions).ledger.validate == L.Validate
    decreases |actions|
  {
    pays := [];
    if actions != [] {
      var n := |actions| - 1;
      pays := PayPart(cacheKey, lockKey, actions[..n]);
      if actions[n].Pay? {
        RunSnoc(P.Step, P.Init(cacheKey, lockKey), pays, actions[n].pay);
        pays := pays + [actions[n].pay];
      }
    }
  }

  lemma PassedHasAmount(e: L.PaymentEvent)
    requires L.Validate(e) == L.Passed
    ensures e.amount > 0
  {
  }

  /** The event of the log at this offset, as the ledger gets it. */
  lemma LogEventIsApplicable(cacheKey: (Symbol, Symbol) -> Symbol, lockKey: Symbol -> Symbol, actions: seq<Action>, offset: nat)
    requires var log := Reach(cacheKey, lockKey, actions).pay.db.kafka; offset < |log| && log[offset].eventType == PaymentSucceeded
    ensures var s := Reach(cacheKey, lockKey, actions);
            var e := s.wire(s.pay.db.kafka[offset]);
            s.ledger.validate(e) == L.Passed && e.amount > 0
  {
    ReachableIsGood(cacheKey, lockKey, actions);
    var pays := PayPart(cacheKey, lockKey, actions);
    K.EveryEventMeetsTheContract(cacheKey, lockKey, pays, offset);
    PassedHasAmount(Wire(Reach(cacheKey, lockKey, actions).pay.db.kafka[offset]));
  }

  lemma LogEventMatchesRow(s: State, offset: nat)
    requires Inv(s) && s.wire == Wire && offset < |s.pay.db.kafka|
    ensures var logged, e := s.pay.db.kafka[offset], s.wire(s.pay.db.kafka[offset]);
            && logged.paymentId in s.pay.db.payments && e.id == logged.id
            && e.amount == s.pay.db.payments[logged.paymentId].amount
            && e.merchantId == s.pay.db.payments[logged.paymentId].merchantId
  {
    assert PI.EventOk(s.pay.db, s.pay.db.kafka[offset]);
  }

  /** An event of the log with this id for this payment, as the ledger gets it. */
  lemma EventIsApplicable(
    cacheKey: (Symbol, Symbol) -> Symbol, lockKey: Symbol -> Symbol, actions: seq<Action>, paymentId: Symbol, event: Symbol)
    returns (offset: nat)
    requires event in EventIds(Reach(cacheKey, lockKey, actions), paymentId)
    ensures var s := Reach(cacheKey, lockKey, actions);
            && offset < |s.pay.db.kafka| && s.pay.db.kafka[offset].eventType == PaymentSucceeded && paymentId in s.pay.db.payments
            && s.pay.db.kafka[offset].paymentId == paymentId && s.pay.db.kafka[offset].id == event
            && var e := s.wire(s.pay.db.kafka[offset]);
               && s.ledger.validate(e) == L.Passed && e.id == event && e.amount > 0
               && e.amount == s.pay.db.payments[paymentId].amount && e.merchantId == s.pay.db.payments[paymentId].merchantId
  {
    var log := Reach(cacheKey, lockKey, actions).pay.db.kafka;
    offset :| 0 <= offset < |log| && log[offset].paymentId == paymentId
              && log[offset].eventType == PaymentSucceeded && log[offset].id == event;
    LogEventIsApplicable(cacheKey, lockKey, actions, offset);
    ReachableIsGood(cacheKey, lockKey, actions);
    LogEventMatchesRow(Reach(cacheKey, lockKey, actions), offset);
  }

  /** One of the payment's events gets credited, if it is not already. */
  lemma CreditOne(
    cacheKey: (Symbol, Symbol) -> Symbol, lockKey: Symbol -> Symbol, actions: seq<Action>, paymentId: Symbol, event: Symbol)
    returns (after: seq<Action>)
    requires event in EventIds(Reach(cacheKey, lockKey, actions), paymentId)
    requires var s := Reach(cacheKey, lockKey, actions);
             paymentId in s.pay.db.payments
             && var p := s.pay.db.payments[paymentId];
                L.BalanceOf(s.ledger.books.balances, p.merchantId).pending + p.amount <= L.MAX_INT64
    ensures OnlyLedger(after)
    ensures var s, s' := Reach(cacheKey, lockKey, actions), Reach(cacheKey, lockKey, actions + after);
            var p := s.pay.db.payments[paymentId];
            && s'.pay == s.pay && event in s'.ledger.books.processed
            && (forall id :: id in s.ledger.books.processed ==> id in s'.ledger.books.processed)
            && L.BalanceOf(s'.ledger.books.balances, p.merchantId).pending
               <= L.BalanceOf(s.ledger.books.balances, p.merchantId).pending + p.amount
            && p.amount > 0
  {
    var s := Reach(cacheKey, lockKey, actions);
    var offset := EventIsApplicable(cacheKey, lockKey, actions, paymentId, event);
    if event in s.ledger.books.processed {
      after := [];
      assert actions + after == actions;
    } else {
      after := EventCanBeApplied(s, offset);
      RunConcat(Step, Init(Wire, L.Validate, cacheKey, lockKey), actions, after);
    }
  }

  /** Two event ids of one payment: the ledger can credit both. */
  lemma CreditBoth(
    cacheKey: (Symbol, Symbol) -> Symbol, lockKey: Symbol -> Symbol, actions: seq<Action>, paymentId: Symbol,
    one: Symbol, other: Symbol) returns (after: seq<Action>)
    requires var s := Reach(cacheKey, lockKey, actions);
             && one in EventIds(s, paymentId) && other in EventIds(s, paymentId)
             && paymentId in s.pay.db.payments
             && var p := s.pay.db.payments[paymentId];
                L.BalanceOf(s.ledger.books.balances, p.merchantId).pending + 2 * p.amount <= L.MAX_INT64
    ensures OnlyLedger(after)
    ensures var s, s' := Reach(cacheKey, lockKey, actions), Reach(cacheKey, lockKey, actions + after);
            && s'.pay == s.pay && one in C.CreditedEvents(s', paymentId) && other in C.CreditedEvents(s', paymentId)
  {
    var _ := EventIsApplicable(cacheKey, lockKey, actions, paymentId, one);
    var first := CreditOne(cacheKey, lockKey, actions, paymentId, one);
    var second := CreditOne(cacheKey, lockKey, actions + first, paymentId, other);
    after := first + second;
    assert actions + after == actions + first + second;
    var s, s' := Reach(cacheKey, lockKey, actions), Reach(cacheKey, lockKey, actions + after);
    ProcessedIsCredited(s, s', paymentId, one);
    ProcessedIsCredited(s, s', paymentId, other);
  }

  lemma ProcessedIsCredited(s: State, s': State, paymentId: Symbol, event: Symbol)
    requires event in EventIds(s, paymentId) && s'.pay == s.pay && event in s'.ledger.books.processed
    ensures event in C.CreditedEvents(s', paymentId)
  {
    var log := s.pay.db.kafka;
    var i :| 0 <= i < |log| && log[i].paymentId == paymentId && log[i].eventType == PaymentSucceeded && log[i].id == event;
    assert s'.pay.db.kafka[i].id == event;
  }

  /** Only events that announce success are ever credited. */
  lemma CreditedWereAnnounced(s: State, paymentId: Symbol)
    requires Inv(s) && s.wire == Wire
    ensures C.CreditedEvents(s, paymentId) <= EventIds(s, paymentId)
  {
    var log := s.pay.db.kafka;
    forall i | 0 <= i < |log| && log[i].paymentId == paymentId && log[i].id in s.ledger.books.processed
      ensures log[i].id in EventIds(s, paymentId)
    {
      C.CreditedIsApplied(s, paymentId, i);
      var a :| 0 <= a < |s.ledger.books.applied| && s.ledger.books.applied[a].paymentId == paymentId
               && s.ledger.books.applied[a].id == log[i].id;
      var k := C.AppliedMatchesRow(s, a);
      assert PI.EventOk(s.pay.db, log[i]);
    }
  }

  lemma TwoElements(ids: set<Symbol>) returns (one: Symbol, other: Symbol)
    requires |ids| > 1
    ensures one in ids && other in ids && one != other
  {
    one := AnElement(ids);
    assert |ids - {one}| == |ids| - 1;
    other := AnElement(ids - {one});
  }

  /** Exactly when the ledger, left to itself, credits a payment at most once: when the log holds at
      most one event id that announces its success. The merchant's balance must have room for it twice,
      since the database refuses a sum beyond BIGINT. */
  lemma CreditedAtMostOnceIff(
    cacheKey: (Symbol, Symbol) -> Symbol, lockKey: Symbol -> Symbol, actions: seq<Action>, paymentId: Symbol)
    requires var s := Reach(cacheKey, lockKey, actions);
             && paymentId in s.pay.db.payments
             && var p := s.pay.db.payments[paymentId];
                L.BalanceOf(s.ledger.books.balances, p.merchantId).pending + 2 * p.amount <= L.MAX_INT64
    ensures var s := Reach(cacheKey, lockKey, actions);
            CreditedAtMostOnce(s, paymentId) <==> |EventIds(s, paymentId)| <= 1
  {
    var s := Reach(cacheKey, lockKey, actions);
    var start := Init(Wire, L.Validate, cacheKey, lockKey);
    if |EventIds(s, paymentId)| <= 1 {
      forall after | OnlyLedger(after) ensures |C.CreditedEvents(Run(Step, s, after), paymentId)| <= 1 {
        RunConcat(Step, start, actions, after);
        ReachableIsGood(cacheKey, lockKey, actions + after);
        LedgerLeavesLog(s, after);
        CreditedWereAnnounced(Run(Step, s, after), paymentId);
        SubsetIsSmaller(C.CreditedEvents(Run(Step, s, after), paymentId), EventIds(s, paymentId));
      }
    } else {
      var one, other := TwoElements(EventIds(s, paymentId));
      var after := CreditBoth(cacheKey, lockKey, actions, paymentId, one, other);
      RunConcat(Step, start, actions, after);
      SubsetIsSmaller({one, other}, C.CreditedEvents(Run(Step, s, after), paymentId));
    }
  }

  // ---------- it happens ----------

  function Pays(pays: seq<P.Action>): (r: seq<Action>)
    ensures |r| == |pays| && forall i :: 0 <= i < |r| ==> r[i] == Pay(pays[i])
  {
    seq(|pays|, i requires 0 <= i < |pays| => Pay(pays[i]))
  }

  lemma {:induction false} PaysOnly(cacheKey: (Symbol, Symbol) -> Symbol, lockKey: Symbol -> Symbol, pays: seq<P.Action>)
    ensures Reach(cacheKey, lockKey, Pays(pays))
            == Init(Wire, L.Validate, cacheKey, lockKey).(pay := P.Reach(cacheKey, lockKey, pays))
  {
    if pays != [] {
      var n := |pays| - 1;
      PaysOnly(cacheKey, lockKey, pays[..n]);
      assert Pays(pays)[..n] == Pays(pays[..n]);
    }
  }

  lemma OnlyPayment(s: State, x: R.Scenario)
    requires s.pay.db.payments == map[x.id := x.Approved()]
    ensures Sum(C.CompletedPayments(s, x.input.merchantId), id => C.Credit(s, id))
            == x.input.amount * |C.CreditedEvents(s, x.id)|
  {
    var f := id => C.Credit(s, id);
    assert C.CompletedPayments(s, x.input.merchantId) == {x.id};
    SumPull({x.id}, f, x.id);
    assert Sum({x.id} - {x.id}, f) == 0;
  }

  lemma BothGetCredited(x: R.Scenario) returns (actions: seq<Action>)
    requires x.Plausible() && 2 * x.input.amount <= L.MAX_INT64
    ensures var s := Reach(x.cacheKey, x.lockKey, actions);
            && s.pay.db.payments == map[x.id := x.Approved()]
            && C.CreditedEvents(s, x.id) == {x.firstEvent, x.secondEvent}
  {
    var pays := R.CanBeAnnouncedTwice(x);
    PaysOnly(x.cacheKey, x.lockKey, pays);
    var before := Pays(pays);
    var log := Reach(x.cacheKey, x.lockKey, before).pay.db.kafka;
    assert log[0].id == x.firstEvent && log[1].id == x.secondEvent;
    var after := CreditBoth(x.cacheKey, x.lockKey, before, x.id, x.firstEvent, x.secondEvent);
    actions := before + after;
  }

  /** For every ordinary request there is a run in which its one payment is credited twice, and the
      merchant's balance shows twice its amount. */
  lemma PaymentCanBeCreditedTwice(x: R.Scenario) returns (actions: seq<Action>)
    requires x.Plausible() && 2 * x.input.amount <= L.MAX_INT64
    ensures var s := Reach(x.cacheKey, x.lockKey, actions);
            && s.pay.db.payments == map[x.id := x.Approved()]
            && |C.CreditedEvents(s, x.id)| == 2
            && L.BalanceOf(s.ledger.books.balances, x.input.merchantId).pending == 2 * x.input.amount
  {
    actions := BothGetCredited(x);
    C.PendingIsConserved(x.cacheKey, x.lockKey, actions, x.input.merchantId);
    OnlyPayment(Reach(x.cacheKey, x.lockKey, actions), x);
  }
}
