/** A payment whose request stopped before it saved an outcome. The recovery job looks only at settled
    rows, and the unique index keeps every later request with the same key away, so nobody else can
    settle it. This tells exactly which processing rows stay so for ever. */
module StuckPayments {
  import opened GoText
  import opened PaymentDomain
  import opened PaymentProtocol
  import opened PaymentInvariant
  import opened Runs
  import PS = PaymentSteps
  import PT = PaymentTheorems
  import R = RepublishedPayment

  /** The thread is on its way to save an outcome for this payment. */
  predicate Settles(d: Db, th: Thread, id: Symbol) {
    && th.payment.id == id
    && (th.pc.CallBank? || th.pc.SavePayment? || (th.pc.InsertRecord? && KeyIn(d, th.payment) !in d.records))
  }

  ghost predicate CanSettle(s: State, id: Symbol) {
    exists t :: t in s.threads && Settles(s.db, s.threads[t], id)
  }

  ghost predicate Stuck(s: State, id: Symbol) {
    id in s.db.payments && s.db.payments[id].status == Processing && !CanSettle(s, id)
  }

  // ---------- nobody else settles it ----------

  /** What a call of a thread does to a row. */
  lemma CallKeepsStatus(s: State, t: nat, a: Answer, id: Symbol)
    requires t in s.threads && id in s.db.payments
    requires s.threads[t].pc.SavePayment? ==> s.threads[t].payment.id != id
    ensures var s' := Advance(s, t, a); id in s'.db.payments && s'.db.payments[id].status == s.db.payments[id].status
  {
    var p, rows' := s.threads[t].payment, Advance(s, t, a).db.payments;
    match s.threads[t].pc
    case InsertPayment => assert rows' == Inserted(s.db.payments, p, a.outcome);
    case SavePayment(_) => assert rows' == Saved(s.db.payments, p, a.outcome);
    case MarkPublished => assert rows' == Flagged(s.db.payments, p.id, a.outcome);
    case _ => assert rows' == s.db.payments;
  }

  /** What it does to the records and to the threads. */
  lemma CallKeepsOthers(s: State, t: nat, a: Answer)
    requires t in s.threads
    ensures var s' := Advance(s, t, a);
            && s'.db.cacheKey == s.db.cacheKey && (forall k :: k in s.db.records ==> k in s'.db.records)
            && t in s'.threads && s'.threads == s.threads[t := s'.threads[t]]
            && s'.threads[t].payment.id == s.threads[t].payment.id
  {
    var key, p, s' := KeyIn(s.db, s.threads[t].payment), s.threads[t].payment, Advance(s, t, a);
    match s.threads[t].pc
    case InsertRecord => assert s'.db.records == RecordInserted(s.db.records, key, p, a.outcome);
    case UpdateRecord(_) => assert s'.db.records == RecordUpdated(s.db.records, key, p, a.outcome);
    case _ => assert s'.db.records == s.db.records;
  }

  lemma ComesToRecord(s: State, t: nat, a: Answer)
    requires t in s.threads
    ensures t in Advance(s, t, a).threads
    ensures Advance(s, t, a).threads[t].pc.InsertRecord? ==> s.threads[t].pc.InsertPayment?
  {
  }

  lemma ComesToBank(s: State, t: nat, a: Answer)
    requires t in s.threads
    ensures t in Advance(s, t, a).threads
    ensures Advance(s, t, a).threads[t].pc.CallBank? ==>
              s.threads[t].pc.InsertRecord? && KeyIn(s.db, s.threads[t].payment) !in s.db.records
  {
  }

  lemma ComesToSave(s: State, t: nat, a: Answer)
    requires t in s.threads
    ensures t in Advance(s, t, a).threads
    ensures Advance(s, t, a).threads[t].pc.SavePayment? ==> s.threads[t].pc.CallBank?
  {
  }

  /** A request comes to the record by its insert, to the bank by a free record, and to the save by the bank. */
  lemma ComesFrom(s: State, t: nat, a: Answer)
    requires t in s.threads
    ensures t in Advance(s, t, a).threads
    ensures var pc, pc' := s.threads[t].pc, Advance(s, t, a).threads[t].pc;
            && (pc'.InsertRecord? ==> pc.InsertPayment?)
            && (pc'.CallBank? ==> pc.InsertRecord? && KeyIn(s.db, s.threads[t].payment) !in s.db.records)
            && (pc'.SavePayment? ==> pc.CallBank?)
  {
    ComesToRecord(s, t, a);
    ComesToBank(s, t, a);
    ComesToSave(s, t, a);
  }

  /** A thread does not come to settle a row that it was not settling before. */
  lemma NoNewSettler(s: State, t: nat, a: Answer, id: Symbol)
    requires t in s.threads && ThreadOk(s.db, s.threads[t]) && id in s.db.payments && !Settles(s.db, s.threads[t], id)
    ensures t in Advance(s, t, a).threads && !Settles(Advance(s, t, a).db, Advance(s, t, a).threads[t], id)
  {
    CallKeepsOthers(s, t, a);
    ComesFrom(s, t, a);
  }

  lemma CallKeepsStuck(s: State, t: nat, a: Answer, id: Symbol)
    requires Inv(s) && Stuck(s, id) && t in s.threads
    ensures Stuck(Advance(s, t, a), id)
  {
    var s' := Advance(s, t, a);
    assert ThreadOk(s.db, s.threads[t]) && !Settles(s.db, s.threads[t], id);
    CallKeepsStatus(s, t, a, id);
    CallKeepsOthers(s, t, a);
    NoNewSettler(s, t, a, id);
    forall u | u in s'.threads ensures !Settles(s'.db, s'.threads[u], id) {
      if u != t { assert !Settles(s.db, s.threads[u], id); }
    }
  }

  lemma RecoveryKeepsStuck(s: State, r: nat, a: Answer, id: Symbol)
    requires Stuck(s, id) && r in s.recoveries && s.recoveries[r].queue != []
    ensures Stuck(RecoverNext(s, r, a), id)
  {
    var s' := RecoverNext(s, r, a);
    forall u | u in s'.threads ensures !Settles(s'.db, s'.threads[u], id) { assert !Settles(s.db, s.threads[u], id); }
  }

  lemma StepKeepsStuck(s: State, a: Action, id: Symbol)
    requires Inv(s) && Stuck(s, id)
    ensures Stuck(Step(s, a), id)
  {
    if a.Call? {
      if a.t in s.threads { CallKeepsStuck(s, a.t, a.answer, id); }
    } else if a.Recover? {
      if a.r in s.recoveries && s.recoveries[a.r].queue != [] { RecoveryKeepsStuck(s, a.r, a.answer, id); }
    } else {
      var s' := Step(s, a);
      assert RowOk(s.db, id);
      forall u | u in s'.threads ensures !Settles(s'.db, s'.threads[u], id) {
        if u in s.threads { assert !Settles(s.db, s.threads[u], id); }
      }
    }
  }

  lemma {:induction false} StuckStays(s: State, actions: seq<Action>, id: Symbol)
    requires Inv(s) && Stuck(s, id)
    ensures Stuck(Run(Step, s, actions), id)
    decreases |actions|
  {
    if actions != [] {
      var n := |actions| - 1;
      StuckStays(s, actions[..n], id);
      PT.RunsAreGood(s, actions[..n]);
      StepKeepsStuck(Run(Step, s, actions[..n]), actions[n], id);
    }
  }

  // ---------- its own thread can ----------

  const YES: Answer := Answer(Succeeds, Approved(0), 0, 1)

  /** The run completes the payment, and draws no event id for it. */
  ghost predicate Completes(s: State, actions: seq<Action>, id: Symbol) {
    var s' := Run(Step, s, actions);
    && id in s'.db.payments && s'.db.payments[id].status == Completed && !s'.db.payments[id].eventPublished
    && s'.db.used == s.db.used
  }

  lemma SavingCompletes(s: State, t: nat)
    requires t in s.threads && s.threads[t].pc.SavePayment?
    requires s.threads[t].payment.status == Completed && !s.threads[t].payment.eventPublished
    ensures Completes(s, [Call(t, YES)] + [], s.threads[t].payment.id)
  {
    RunCons(Step, s, Call(t, YES), []);
  }

  lemma CallingCompletes(s: State, t: nat)
    requires t in s.threads && s.threads[t].pc.CallBank? && !s.threads[t].payment.eventPublished
    ensures Completes(s, [Call(t, YES)] + ([Call(t, YES)] + []), s.threads[t].payment.id)
  {
    SavingCompletes(Step(s, Call(t, YES)), t);
    RunCons(Step, s, Call(t, YES), [Call(t, YES)] + []);
  }

  lemma ClaimingCompletes(s: State, t: nat)
    requires t in s.threads && s.threads[t].pc.InsertRecord? && KeyIn(s.db, s.threads[t].payment) !in s.db.records
    requires !s.threads[t].payment.eventPublished
    ensures Completes(s, [Call(t, YES)] + ([Call(t, YES)] + ([Call(t, YES)] + [])), s.threads[t].payment.id)
  {
    CallingCompletes(Step(s, Call(t, YES)), t);
    RunCons(Step, s, Call(t, YES), [Call(t, YES)] + ([Call(t, YES)] + []));
  }

  /** A thread at the save has its outcome in hand, whatever it is. */
  lemma SavingSettles(s: State, t: nat)
    requires t in s.threads && ThreadOk(s.db, s.threads[t]) && s.threads[t].pc.SavePayment?
    ensures var s', id := Run(Step, s, [Call(t, YES)] + []), s.threads[t].payment.id;
            id in s'.db.payments && s'.db.payments[id].status != Processing
  {
    RunCons(Step, s, Call(t, YES), []);
  }

  lemma SettlerSettles(s: State, id: Symbol) returns (actions: seq<Action>)
    requires Inv(s) && CanSettle(s, id)
    ensures var s' := Run(Step, s, actions); id in s'.db.payments && s'.db.payments[id].status != Processing
  {
    var t :| t in s.threads && Settles(s.db, s.threads[t], id);
    assert ThreadOk(s.db, s.threads[t]);
    if s.threads[t].pc.SavePayment? {
      SavingSettles(s, t);
      actions := [Call(t, YES)] + [];
    } else if s.threads[t].pc.CallBank? {
      CallingCompletes(s, t);
      actions := [Call(t, YES)] + ([Call(t, YES)] + []);
    } else {
      ClaimingCompletes(s, t);
      actions := [Call(t, YES)] + ([Call(t, YES)] + ([Call(t, YES)] + []));
    }
  }

  ghost predicate ProcessingForEver(s: State, id: Symbol) {
    forall after :: id in Run(Step, s, after).db.payments && Run(Step, s, after).db.payments[id].status == Processing
  }

  /** A processing row stays processing in every continuation exactly when no live request is between
      the insert of that row and the save of its outcome. */
  lemma ProcessingForEverIff(
    cacheKey: (Symbol, Symbol) -> Symbol, lockKey: Symbol -> Symbol, actions: seq<Action>, id: Symbol)
    requires var s := Reach(cacheKey, lockKey, actions); id in s.db.payments && s.db.payments[id].status == Processing
    ensures var s := Reach(cacheKey, lockKey, actions); ProcessingForEver(s, id) <==> !CanSettle(s, id)
  {
    var s := Reach(cacheKey, lockKey, actions);
    PT.ReachableIsGood(cacheKey, lockKey, actions);
    if CanSettle(s, id) {
      var after := SettlerSettles(s, id);
    } else {
      forall after ensures id in Run(Step, s, after).db.payments && Run(Step, s, after).db.payments[id].status == Processing {
        StuckStays(s, after, id);
      }
    }
  }

  // ---------- it happens ----------

  /** A request that stops right after its insert. */
  lemma Stops(x: R.Scenario, before: seq<Action>) returns (actions: seq<Action>)
    requires x.Plausible() && Run(Step, x.Start(), before) == x.Alone(x.Fresh(), x.Locked(), x.Asked(), InsertPayment)
    ensures Run(Step, x.Start(), actions)
            == x.Alone(x.Fresh().(payments := map[x.id := x.Asked()]), x.Locked(), x.Asked(), Finished(Errored(Crashed)))
  {
    RunSnoc(Step, x.Start(), before, R.Ok());
    RunSnoc(Step, x.Start(), before + [R.Ok()], Crash(0));
    actions := before + [R.Ok()] + [Crash(0)];
  }

  /** For every ordinary request there is a run that leaves its payment processing for ever. */
  lemma CanBeStuck(x: R.Scenario) returns (actions: seq<Action>)
    requires x.Plausible()
    ensures var s := Reach(x.cacheKey, x.lockKey, actions);
            && s.db.payments == map[x.id := x.Asked()] && Stuck(s, x.id) && ProcessingForEver(s, x.id)
  {
    actions := R.Asks(x);
    actions := R.Locks(x, actions);
    actions := Stops(x, actions);
    ProcessingForEverIff(x.cacheKey, x.lockKey, actions, x.id);
  }
}
