/** Conservation of money from completed payments to pending balances, and the contract between
    the payment service and the ledger. */
module Conservation {
  import opened GoText
  import opened PaymentDomain
  import opened EndToEnd
  import opened Sums
  import opened Runs
  import P = PaymentProtocol
  import PI = PaymentInvariant
  import PS = PaymentSteps
  import L = LedgerProtocol
  import LT = LedgerTheorems

  // ---------- conservation ----------

  /** The events of a payment that are in the log and that the ledger has processed. */
  ghost function CreditedEvents(s: State, paymentId: Symbol): set<Symbol> {
    var log := s.pay.db.kafka;
    set i | 0 <= i < |log| && log[i].paymentId == paymentId && log[i].id in s.ledger.books.processed :: log[i].id
  }

  ghost function CompletedPayments(s: State, merchantId: Symbol): set<Symbol> {
    var rows := s.pay.db.payments;
    set id | id in rows && rows[id].merchantId == merchantId && rows[id].status == Completed
  }

  function AmountOf(payments: map<Symbol, Payment>, id: Symbol): int {
    if id in payments then payments[id].amount else 0
  }

  ghost function Credit(s: State, id: Symbol): int {
    AmountOf(s.pay.db.payments, id) * |CreditedEvents(s, id)|
  }

  /** How many of the applied events are for a payment. */
  function Count(applied: seq<L.PaymentEvent>, paymentId: Symbol): nat {
    if applied == [] then 0
    else Count(applied[..|applied| - 1], paymentId) + (if applied[|applied| - 1].paymentId == paymentId then 1 else 0)
  }

  ghost function IdsFor(applied: seq<L.PaymentEvent>, paymentId: Symbol): set<Symbol> {
    set i | 0 <= i < |applied| && applied[i].paymentId == paymentId :: applied[i].id
  }

  lemma IdsOfLast(applied: seq<L.PaymentEvent>, paymentId: Symbol)
    requires applied != []
    ensures var rest, last := applied[..|applied| - 1], applied[|applied| - 1];
            IdsFor(applied, paymentId) == IdsFor(rest, paymentId) + (if last.paymentId == paymentId then {last.id} else {})
  {
    var n := |applied| - 1;
    forall id | id in IdsFor(applied, paymentId)
      ensures id in IdsFor(applied[..n], paymentId) + (if applied[n].paymentId == paymentId then {applied[n].id} else {})
    {
      var i :| 0 <= i < |applied| && applied[i].paymentId == paymentId && applied[i].id == id;
      if i < n { assert applied[..n][i] == applied[i]; }
    }
    forall id | id in IdsFor(applied[..n], paymentId) ensures id in IdsFor(applied, paymentId) {
      var i :| 0 <= i < n && applied[..n][i].paymentId == paymentId && applied[..n][i].id == id;
      assert applied[i] == applied[..n][i];
    }
  }

  /** With distinct ids, counting events is counting ids. */
  lemma {:induction false} CountIsCardinality(applied: seq<L.PaymentEvent>, paymentId: Symbol)
    requires LT.DistinctIds(applied)
    ensures Count(applied, paymentId) == |IdsFor(applied, paymentId)|
  {
    if applied != [] {
      var n := |applied| - 1;
      CountIsCardinality(applied[..n], paymentId);
      IdsOfLast(applied, paymentId);
      assert applied[n].id !in IdsFor(applied[..n], paymentId);
    }
  }

  /** Adding up a merchant's events one by one, or payment by payment, gives the same total. */
  lemma {:induction false} TotalByPayment(
    applied: seq<L.PaymentEvent>, merchantId: Symbol, ids: set<Symbol>, amount: Symbol -> int)
    requires forall i :: 0 <= i < |applied| ==>
               && (applied[i].paymentId in ids <==> applied[i].merchantId == merchantId)
               && (applied[i].paymentId in ids ==> applied[i].amount == amount(applied[i].paymentId))
    ensures LT.Total(applied, merchantId) == Sum(ids, id => amount(id) * Count(applied, id))
  {
    var g := id => amount(id) * Count(applied, id);
    if applied == [] {
      SumOfZero(ids, g);
    } else {
      var n := |applied| - 1;
      var rest, last := applied[..n], applied[n];
      var f := id => amount(id) * Count(rest, id);
      TotalByPayment(rest, merchantId, ids, amount);
      if last.merchantId == merchantId {
        assert g(last.paymentId) == f(last.paymentId) + last.amount;
        SumRaised(ids, f, g, last.paymentId, last.amount);
      } else {
        SumOfEqual(ids, f, g);
      }
    }
  }

  /** Every applied event is the one the log holds for the payment's completed row. */
  lemma AppliedMatchesRow(s: State, i: nat) returns (k: nat)
    requires Inv(s) && s.wire == Wire && i < |s.ledger.books.applied|
    ensures var e := s.ledger.books.applied[i];
            && k < |s.pay.db.kafka| && e.id == s.pay.db.kafka[k].id && e.paymentId == s.pay.db.kafka[k].paymentId
            && e.paymentId in s.pay.db.payments
            && var p := s.pay.db.payments[e.paymentId];
               p.status == Completed && e.amount == p.amount && e.merchantId == p.merchantId
  {
    var e := s.ledger.books.applied[i];
    assert FromLog(s, e);
    k :| 0 <= k < |s.pay.db.kafka| && s.pay.db.kafka[k].eventType == PaymentSucceeded && e == s.wire(s.pay.db.kafka[k]);
    assert PI.EventOk(s.pay.db, s.pay.db.kafka[k]);
    assert PI.RowOk(s.pay.db, e.paymentId);
  }

  lemma AppliedAreCredited(s: State, i: nat)
    requires Inv(s) && s.wire == Wire && i < |s.ledger.books.applied|
    ensures var e := s.ledger.books.applied[i]; e.id in CreditedEvents(s, e.paymentId)
  {
    var e := s.ledger.books.applied[i];
    var k := AppliedMatchesRow(s, i);
    assert LT.Mentions(s.ledger.books.applied, e.id);
    assert s.pay.db.kafka[k].id == e.id;
  }

  lemma CreditedIsApplied(s: State, id: Symbol, j: nat)
    requires Inv(s) && s.wire == Wire && j < |s.pay.db.kafka|
    requires s.pay.db.kafka[j].paymentId == id && s.pay.db.kafka[j].id in s.ledger.books.processed
    ensures s.pay.db.kafka[j].id in IdsFor(s.ledger.books.applied, id)
  {
    var log, applied := s.pay.db.kafka, s.ledger.books.applied;
    assert LT.Mentions(applied, log[j].id);
    var i :| 0 <= i < |applied| && applied[i].id == log[j].id;
    var k := AppliedMatchesRow(s, i);
    assert log[k] == log[j];
  }

  /** The processed events of the log for a payment are exactly the applied ones. */
  lemma CreditedAreApplied(s: State, id: Symbol)
    requires Inv(s) && s.wire == Wire
    ensures CreditedEvents(s, id) == IdsFor(s.ledger.books.applied, id)
  {
    var log, applied := s.pay.db.kafka, s.ledger.books.applied;
    forall i | 0 <= i < |applied| ensures applied[i].id in CreditedEvents(s, applied[i].paymentId) {
      AppliedAreCredited(s, i);
    }
    forall j | 0 <= j < |log| && log[j].paymentId == id && log[j].id in s.ledger.books.processed
      ensures log[j].id in IdsFor(applied, id)
    {
      CreditedIsApplied(s, id, j);
    }
  }

  /** In every reachable state of the payment service, Kafka and the ledger together, a merchant's
      pending balance is the sum over that merchant's completed payments of the amount times the
      number of the payment's events that the ledger has processed. */
  lemma PendingIsConserved(
    cacheKey: (Symbol, Symbol) -> Symbol, lockKey: Symbol -> Symbol, actions: seq<Action>, merchantId: Symbol)
    ensures var s := Reach(cacheKey, lockKey, actions);
            L.BalanceOf(s.ledger.books.balances, merchantId)
            == L.Balance(0, Sum(CompletedPayments(s, merchantId), id => Credit(s, id)))
  {
    var s := Reach(cacheKey, lockKey, actions);
    ReachableIsGood(cacheKey, lockKey, actions);
    var applied, rows := s.ledger.books.applied, s.pay.db.payments;
    var ids := CompletedPayments(s, merchantId);
    var amount := id => AmountOf(rows, id);
    forall i | 0 <= i < |applied| ensures
      && (applied[i].paymentId in ids <==> applied[i].merchantId == merchantId)
      && (applied[i].paymentId in ids ==> applied[i].amount == amount(applied[i].paymentId))
    {
      var _ := AppliedMatchesRow(s, i);
    }
    TotalByPayment(applied, merchantId, ids, amount);
    forall id | id in ids ensures Credit(s, id) == amount(id) * Count(applied, id) {
      CreditedAreApplied(s, id);
      CountIsCardinality(applied, id);
    }
    SumOfEqual(ids, id => Credit(s, id), id => amount(id) * Count(applied, id));
  }
}
