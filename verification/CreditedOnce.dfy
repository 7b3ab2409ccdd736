/** Exactly when a payment is credited at most once, whatever the payment service, the recovery job, the
    log and the ledger do from now on: when it is safe. */
module CreditedOnce {
  import opened GoText
  import opened PaymentDomain
  import opened PaymentProtocol
  import opened PaymentInvariant
  import opened SafePayments
  import opened Runs
  import PT = PaymentTheorems
  import E = EndToEnd
  import C = Conservation
  import L = LedgerProtocol
  import D = DoubleCredit

  /** Whatever anybody does from here, the ledger credits the payment at most once. */
  ghost predicate CreditedAtMostOnceForEver(s: E.State, id: Symbol) {
    forall after :: |C.CreditedEvents(Run(E.Step, s, after), id)| <= 1
  }

  ghost predicate GoodAndSafe(s: E.State, id: Symbol) {
    E.Inv(s) && s.wire == E.Wire && Safe(s.pay, id)
  }

  lemma StepKeepsGoodAndSafe(s: E.State, a: E.Action, id: Symbol)
    requires GoodAndSafe(s, id)
    ensures GoodAndSafe(E.Step(s, a), id)
  {
    E.StepKeepsInvariant(s, a);
    if a.Pay? { StepKeepsSafe(s.pay, a.pay, id); }
  }

  lemma {:induction false} SafeForEver(s: E.State, after: seq<E.Action>, id: Symbol)
    requires GoodAndSafe(s, id)
    ensures GoodAndSafe(Run(E.Step, s, after), id)
    decreases |after|
  {
    if after != [] {
      SafeForEver(s, after[..|after| - 1], id);
      StepKeepsGoodAndSafe(Run(E.Step, s, after[..|after| - 1]), after[|after| - 1], id);
    }
  }

  lemma SafeIsCreditedOnce(s: E.State, id: Symbol)
    requires GoodAndSafe(s, id)
    ensures |C.CreditedEvents(s, id)| <= 1
  {
    D.CreditedWereAnnounced(s, id);
    SafeIsAnnouncedOnce(s.pay, id);
    D.SubsetIsSmaller(C.CreditedEvents(s, id), D.EventIds(s, id));
  }

  /** The payment service goes on while the ledger rests. */
  lemma {:induction false} PaysLift(s: E.State, pays: seq<Action>)
    ensures Run(E.Step, s, D.Pays(pays)) == s.(pay := Run(Step, s.pay, pays))
    decreases |pays|
  {
    if pays != [] {
      var n := |pays| - 1;
      PaysLift(s, pays[..n]);
      assert D.Pays(pays)[..n] == D.Pays(pays[..n]);
    }
  }

  predicate HasRoomTwice(s: E.State, id: Symbol) {
    && id in s.pay.db.payments
    && var p := s.pay.db.payments[id];
       L.BalanceOf(s.ledger.books.balances, p.merchantId).pending + 2 * p.amount <= L.MAX_INT64
  }

  /** Two announcements can both be credited. */
  lemma AnnouncedTwiceCanBeCreditedTwice(
    cacheKey: (Symbol, Symbol) -> Symbol, lockKey: Symbol -> Symbol, actions: seq<E.Action>, id: Symbol)
    requires var s := E.Reach(cacheKey, lockKey, actions); HasRoomTwice(s, id) && |D.EventIds(s, id)| > 1
    ensures !CreditedAtMostOnceForEver(E.Reach(cacheKey, lockKey, actions), id)
  {
    var one, other := D.TwoElements(D.EventIds(E.Reach(cacheKey, lockKey, actions), id));
    var after := D.CreditBoth(cacheKey, lockKey, actions, id, one, other);
    RunConcat(E.Step, E.Init(E.Wire, L.Validate, cacheKey, lockKey), actions, after);
    D.SubsetIsSmaller({one, other}, C.CreditedEvents(E.Reach(cacheKey, lockKey, actions + after), id));
  }

  lemma SameRoom(s: E.State, s': E.State, id: Symbol)
    requires HasRoomTwice(s, id) && s'.ledger == s.ledger && Grows(s.pay.db, s'.pay.db)
    ensures HasRoomTwice(s', id)
  {
    var p, q := s.pay.db.payments[id], s'.pay.db.payments[id];
    assert RowEvolves(p, q);
    assert Identity(p).amount == p.amount && Identity(p).merchantId == p.merchantId;
    assert Identity(q).amount == q.amount && Identity(q).merchantId == q.merchantId;
  }

  /** The run of the payment service that announces the payment twice, as a run of the whole system. */
  lemma UnsafeCanBeAnnouncedTwiceInAll(s: E.State, id: Symbol, one: Symbol, other: Symbol) returns (after: seq<E.Action>)
    requires E.Inv(s) && HasRoomTwice(s, id) && !Safe(s.pay, id)
    requires Fresh(s.pay.db, one) && Fresh(s.pay.db, other) && one != other
    ensures HasRoomTwice(Run(E.Step, s, after), id) && |D.EventIds(Run(E.Step, s, after), id)| > 1
  {
    var pays := UnsafeCanBeAnnouncedTwice(s.pay, id, one, other);
    after := D.Pays(pays);
    PaysLift(s, pays);
    PT.RunsAreGood(s.pay, pays);
    SameRoom(s, Run(E.Step, s, after), id);
  }

  lemma LaterIsForEver(s: E.State, first: seq<E.Action>, id: Symbol)
    requires CreditedAtMostOnceForEver(s, id)
    ensures CreditedAtMostOnceForEver(Run(E.Step, s, first), id)
  {
    forall rest ensures |C.CreditedEvents(Run(E.Step, Run(E.Step, s, first), rest), id)| <= 1 {
      RunConcat(E.Step, s, first, rest);
      assert |C.CreditedEvents(Run(E.Step, s, first + rest), id)| <= 1;
    }
  }

  lemma UnsafeCanBeCreditedTwice(
    cacheKey: (Symbol, Symbol) -> Symbol, lockKey: Symbol -> Symbol, actions: seq<E.Action>, id: Symbol,
    one: Symbol, other: Symbol)
    requires var s := E.Reach(cacheKey, lockKey, actions);
             && HasRoomTwice(s, id) && !Safe(s.pay, id)
             && Fresh(s.pay.db, one) && Fresh(s.pay.db, other) && one != other
    ensures !CreditedAtMostOnceForEver(E.Reach(cacheKey, lockKey, actions), id)
  {
    E.ReachableIsGood(cacheKey, lockKey, actions);
    var s := E.Reach(cacheKey, lockKey, actions);
    var first := UnsafeCanBeAnnouncedTwiceInAll(s, id, one, other);
    RunConcat(E.Step, E.Init(E.Wire, L.Validate, cacheKey, lockKey), actions, first);
    AnnouncedTwiceCanBeCreditedTwice(cacheKey, lockKey, actions + first, id);
    if CreditedAtMostOnceForEver(s, id) { LaterIsForEver(s, first, id); }
  }

  /** Over all continuations of the whole system a payment is credited at most once exactly when it is
      safe. (The balance must have room for it twice, since the database refuses a sum beyond BIGINT,
      and two ULIDs must be left to draw.) */
  lemma CreditedAtMostOnceForEverIff(
    cacheKey: (Symbol, Symbol) -> Symbol, lockKey: Symbol -> Symbol, actions: seq<E.Action>, id: Symbol,
    one: Symbol, other: Symbol)
    requires var s := E.Reach(cacheKey, lockKey, actions);
             HasRoomTwice(s, id) && Fresh(s.pay.db, one) && Fresh(s.pay.db, other) && one != other
    ensures var s := E.Reach(cacheKey, lockKey, actions);
            CreditedAtMostOnceForEver(s, id) <==> Safe(s.pay, id)
  {
    var s := E.Reach(cacheKey, lockKey, actions);
    E.ReachableIsGood(cacheKey, lockKey, actions);
    if Safe(s.pay, id) {
      forall after ensures |C.CreditedEvents(Run(E.Step, s, after), id)| <= 1 {
        SafeForEver(s, after, id);
        SafeIsCreditedOnce(Run(E.Step, s, after), id);
      }
    } else {
      UnsafeCanBeCreditedTwice(cacheKey, lockKey, actions, id, one, other);
    }
  }
}
