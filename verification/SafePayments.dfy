/** Which payments are safe: at most one event id announces their success, now and for ever. A payment is
    safe if it failed, if it is processing and nobody can complete it, or if it is completed, flagged as
    published, announced under at most one event id, and neither its request nor a recovery run is about
    to publish it once more. Every step keeps a payment safe, and one that is not safe can be announced
    twice. */
module SafePayments {
  import opened GoText
  import opened PaymentDomain
  import opened PaymentProtocol
  import opened PaymentInvariant
  import opened Runs
  import opened RecoveryRuns
  import opened Sums
  import PS = PaymentSteps
  import PT = PaymentTheorems
  import SP = StuckPayments
  import D = DoubleCredit

  // ---------- the condition ----------

  /** The thread can still complete the payment. */
  predicate CanComplete(d: Db, th: Thread, id: Symbol) {
    && th.payment.id == id
    && (|| th.pc.CallBank? || (th.pc.SavePayment? && th.payment.status == Completed)
        || (th.pc.InsertRecord? && KeyIn(d, th.payment) !in d.records))
  }

  /** The thread has saved the payment and has not announced it yet. */
  predicate AboutToPublish(th: Thread, id: Symbol) {
    th.payment.id == id && (th.pc.UpdateRecord? || th.pc.StoreResult? || th.pc.Publish?)
  }

  /** The recovery run has the payment at place k of its queue and has not published it yet. */
  predicate Holds(rec: Recovery, k: nat, id: Symbol) {
    k < |rec.queue| && rec.queue[k].id == id && (k > 0 || !rec.marking)
  }

  ghost predicate Quiet(s: State, id: Symbol) {
    && (forall t :: t in s.threads ==> !AboutToPublish(s.threads[t], id))
    && (forall r, k :: r in s.recoveries ==> !Holds(s.recoveries[r], k, id))
  }

  ghost predicate Incompletable(s: State, id: Symbol) {
    forall t :: t in s.threads ==> !CanComplete(s.db, s.threads[t], id)
  }

  ghost predicate AnnouncedOnce(s: State, id: Symbol)
    requires id in s.db.payments
  {
    s.db.payments[id].eventPublished && |D.IdsIn(s.db.kafka, id)| <= 1 && Quiet(s, id)
  }

  ghost predicate Safe(s: State, id: Symbol) {
    && id in s.db.payments
    && match s.db.payments[id].status
       case Failed => true
       case Processing => Incompletable(s, id)
       case Completed => AnnouncedOnce(s, id)
  }

  // ---------- a processing payment that nobody can complete ----------

  lemma NoNewCompleter(s: State, t: nat, a: Answer, id: Symbol)
    requires t in s.threads && ThreadOk(s.db, s.threads[t]) && id in s.db.payments && !CanComplete(s.db, s.threads[t], id)
    ensures t in Advance(s, t, a).threads && !CanComplete(Advance(s, t, a).db, Advance(s, t, a).threads[t], id)
  {
    SP.CallKeepsOthers(s, t, a);
    SP.ComesFrom(s, t, a);
  }

  /** The row of a payment that its thread cannot complete does not become completed. */
  lemma CallDoesNotComplete(s: State, t: nat, a: Answer, id: Symbol)
    requires t in s.threads && ThreadOk(s.db, s.threads[t]) && !CanComplete(s.db, s.threads[t], id)
    requires id in s.db.payments && s.db.payments[id].status == Processing
    ensures var s' := Advance(s, t, a); id in s'.db.payments && s'.db.payments[id].status != Completed
  {
    var th := s.threads[t];
    if th.pc.SavePayment? && th.payment.id == id {
      assert Advance(s, t, a).db.payments == Saved(s.db.payments, th.payment, a.outcome);
    } else {
      SP.CallKeepsStatus(s, t, a, id);
    }
  }

  lemma CallKeepsIncompletable(s: State, t: nat, a: Answer, id: Symbol)
    requires Inv(s) && t in s.threads && id in s.db.payments && s.db.payments[id].status == Processing && Incompletable(s, id)
    ensures Safe(Advance(s, t, a), id)
  {
    var s' := Advance(s, t, a);
    assert ThreadOk(s.db, s.threads[t]) && !CanComplete(s.db, s.threads[t], id);
    CallDoesNotComplete(s, t, a, id);
    SP.CallKeepsOthers(s, t, a);
    NoNewCompleter(s, t, a, id);
    forall u | u in s'.threads ensures !CanComplete(s'.db, s'.threads[u], id) {
      if u != t { assert !CanComplete(s.db, s.threads[u], id); }
    }
  }

  lemma RecoverKeepsIncompletable(s: State, r: nat, a: Answer, id: Symbol)
    requires id in s.db.payments && s.db.payments[id].status == Processing && Incompletable(s, id)
    requires r in s.recoveries && s.recoveries[r].queue != []
    ensures Safe(RecoverNext(s, r, a), id)
  {
    var s' := RecoverNext(s, r, a);
    forall u | u in s'.threads ensures !CanComplete(s'.db, s'.threads[u], id) {
      assert !CanComplete(s.db, s.threads[u], id);
    }
  }

  /** Other steps keep the rows and start no thread that can complete one. */
  lemma OthersKeepIncompletable(s: State, a: Action, id: Symbol)
    requires id in s.db.payments && s.db.payments[id].status == Processing && id in s.db.used && Incompletable(s, id)
    requires !a.Call? && !a.Recover?
    ensures Safe(Step(s, a), id)
  {
    var s' := Step(s, a);
    forall u | u in s'.threads ensures !CanComplete(s'.db, s'.threads[u], id) {
      if u in s.threads { assert !CanComplete(s.db, s.threads[u], id); }
    }
  }

  // ---------- a payment that is announced and that nobody publishes again ----------

  /** Events of other payments do not count. */
  lemma IdsOfAppended(log: seq<Event>, log': seq<Event>, p: Payment, a: Answer, id: Symbol)
    requires log' == Appended(log, p, a) && p.id != id
    ensures D.IdsIn(log', id) == D.IdsIn(log, id)
  {
    forall i | 0 <= i < |log'| && log'[i].paymentId == id ensures i < |log| {}
    forall x | x in D.IdsIn(log, id) ensures x in D.IdsIn(log', id) {
      var i :| 0 <= i < |log| && log[i].paymentId == id && log[i].eventType == PaymentSucceeded && log[i].id == x;
      assert log'[i] == log[i];
    }
    forall x | x in D.IdsIn(log', id) ensures x in D.IdsIn(log, id) {
      var i :| 0 <= i < |log'| && log'[i].paymentId == id && log'[i].eventType == PaymentSucceeded && log'[i].id == x;
      assert log'[i] == log[i];
    }
  }

  lemma CallKeepsIds(s: State, t: nat, a: Answer, id: Symbol)
    requires t in s.threads && !AboutToPublish(s.threads[t], id)
    ensures D.IdsIn(Advance(s, t, a).db.kafka, id) == D.IdsIn(s.db.kafka, id)
  {
    if s.threads[t].pc.Publish? && Fresh(s.db, a.eventId) {
      IdsOfAppended(s.db.kafka, Advance(s, t, a).db.kafka, s.threads[t].payment, a, id);
    }
  }

  lemma RecoverKeepsIds(s: State, r: nat, a: Answer, id: Symbol)
    requires r in s.recoveries && s.recoveries[r].queue != [] && !Holds(s.recoveries[r], 0, id)
    ensures D.IdsIn(RecoverNext(s, r, a).db.kafka, id) == D.IdsIn(s.db.kafka, id)
  {
    if !s.recoveries[r].marking && Fresh(s.db, a.eventId) {
      IdsOfAppended(s.db.kafka, RecoverNext(s, r, a).db.kafka, s.recoveries[r].queue[0], a, id);
    }
  }

  /** A thread whose row is settled does not come to publish it unless it was about to. */
  lemma CallKeepsQuiet(s: State, t: nat, a: Answer, id: Symbol)
    requires t in s.threads && ThreadOk(s.db, s.threads[t]) && Quiet(s, id)
    requires id in s.db.payments && s.db.payments[id].status != Processing
    ensures Quiet(Advance(s, t, a), id)
  {
    var s' := Advance(s, t, a);
    SP.CallKeepsOthers(s, t, a);
    if s.threads[t].payment.id == id {
      assert !s.threads[t].pc.SavePayment? && !AboutToPublish(s.threads[t], id);
      assert !AboutToPublish(s'.threads[t], id);
    }
    forall u | u in s'.threads ensures !AboutToPublish(s'.threads[u], id) {
      if u != t { assert s'.threads[u] == s.threads[u]; }
    }
    CallKeepsRecoveries(s, t, a);
  }

  lemma CallKeepsRecoveries(s: State, t: nat, a: Answer)
    requires t in s.threads
    ensures Advance(s, t, a).recoveries == s.recoveries
  {
  }

  lemma RecoverKeepsQuiet(s: State, r: nat, a: Answer, id: Symbol)
    requires r in s.recoveries && s.recoveries[r].queue != [] && Quiet(s, id)
    ensures Quiet(RecoverNext(s, r, a), id)
  {
    var s', rec := RecoverNext(s, r, a), s.recoveries[r];
    forall q, k: nat | q in s'.recoveries ensures !Holds(s'.recoveries[q], k, id) {
      assert !Holds(s.recoveries[q], k, id) && !Holds(rec, k + 1, id);
    }
  }

  /** A scan does not find a flagged row. */
  lemma ScanKeepsQuiet(s: State, r: nat, order: seq<Symbol>, id: Symbol)
    requires Inv(s) && id in s.db.payments && s.db.payments[id].eventPublished && Quiet(s, id)
    ensures Quiet(Step(s, Scan(r, order)), id)
  {
    var s' := Step(s, Scan(r, order));
    forall q, k: nat | q in s'.recoveries ensures !Holds(s'.recoveries[q], k, id) {
      if q in s.recoveries {
        assert !Holds(s.recoveries[q], k, id);
      } else if k < |order| {
        assert RowOk(s.db, order[k]);
      }
    }
  }

  lemma OthersKeepQuiet(s: State, a: Action, id: Symbol)
    requires Quiet(s, id) && (a.Arrive? || a.Crash? || a.Evict? || a.RecoveryCrash?)
    ensures Quiet(Step(s, a), id) && Step(s, a).db.kafka == s.db.kafka
  {
    var s' := Step(s, a);
    forall u | u in s'.threads ensures !AboutToPublish(s'.threads[u], id) {
      if u in s.threads { assert !AboutToPublish(s.threads[u], id); }
    }
    forall q, k: nat | q in s'.recoveries ensures !Holds(s'.recoveries[q], k, id) {
      assert !Holds(s.recoveries[q], k, id);
    }
  }

  /** Its announcements stay as they are. */
  lemma StepKeepsAnnounced(s: State, a: Action, id: Symbol)
    requires Inv(s) && id in s.db.payments && s.db.payments[id].status == Completed && AnnouncedOnce(s, id)
    ensures Quiet(Step(s, a), id) && D.IdsIn(Step(s, a).db.kafka, id) == D.IdsIn(s.db.kafka, id)
  {
    match a
    case Call(t, answer) =>
      if t in s.threads {
        assert ThreadOk(s.db, s.threads[t]);
        CallKeepsQuiet(s, t, answer, id);
        CallKeepsIds(s, t, answer, id);
      }
    case Recover(r, answer) =>
      if r in s.recoveries && s.recoveries[r].queue != [] {
        RecoverKeepsQuiet(s, r, answer, id);
        RecoverKeepsIds(s, r, answer, id);
      }
    case Scan(r, order) => ScanKeepsQuiet(s, r, order, id);
    case _ => OthersKeepQuiet(s, a, id);
  }

  lemma StepKeepsSafe(s: State, a: Action, id: Symbol)
    requires Inv(s) && Safe(s, id)
    ensures Safe(Step(s, a), id)
  {
    PS.StepKeepsInvariant(s, a);
    assert RowEvolves(s.db.payments[id], Step(s, a).db.payments[id]);
    match s.db.payments[id].status
    case Failed => SameStatus(s.db.payments[id], Step(s, a).db.payments[id]);
    case Completed =>
      SameStatus(s.db.payments[id], Step(s, a).db.payments[id]);
      StepKeepsAnnounced(s, a, id);
    case Processing =>
      assert RowOk(s.db, id);
      if a.Call? {
        if a.t in s.threads { CallKeepsIncompletable(s, a.t, a.answer, id); }
      } else if a.Recover? {
        if a.r in s.recoveries && s.recoveries[a.r].queue != [] { RecoverKeepsIncompletable(s, a.r, a.answer, id); }
      } else {
        OthersKeepIncompletable(s, a, id);
      }
  }

  lemma SameStatus(p: Payment, q: Payment)
    requires RowEvolves(p, q) && p.status != Processing
    ensures q.status == p.status
  {
    SameBodySameEvent(0, p, q);
  }

  /** In a safe state at most one event id announces that the payment succeeded. */
  lemma SafeIsAnnouncedOnce(s: State, id: Symbol)
    requires Inv(s) && Safe(s, id)
    ensures |D.IdsIn(s.db.kafka, id)| <= 1
  {
    if s.db.payments[id].status != Completed {
      forall i | 0 <= i < |s.db.kafka| && s.db.kafka[i].paymentId == id ensures s.db.kafka[i].eventType != PaymentSucceeded {
        assert EventOk(s.db, s.db.kafka[i]);
      }
      assert D.IdsIn(s.db.kafka, id) == {};
    }
  }

  // ---------- an unsafe payment can be announced twice ----------

  ghost predicate Announces(s: State, actions: seq<Action>, id: Symbol, event: Symbol) {
    event in D.IdsIn(Run(Step, s, actions).db.kafka, id)
  }

  lemma LastIsAnnounced(log: seq<Event>, p: Payment, a: Answer)
    requires a.outcome.TakesEffect() && p.status == Completed
    ensures a.eventId in D.IdsIn(Appended(log, p, a), p.id)
  {
    assert Appended(log, p, a)[|log|] == EventFor(a.eventId, p);
  }

  /** The publish whose answer is lost. */
  function Lost(event: Symbol): Answer { Answer(FailsAfter, Unreachable, event, 1) }

  lemma PublishingAnnounces(s: State, t: nat, event: Symbol)
    requires t in s.threads && s.threads[t].pc.Publish? && s.threads[t].payment.status == Completed && Fresh(s.db, event)
    ensures Announces(s, [Call(t, Lost(event))] + [], s.threads[t].payment.id, event)
  {
    LastIsAnnounced(s.db.kafka, s.threads[t].payment, Lost(event));
    RunCons(Step, s, Call(t, Lost(event)), []);
  }

  lemma StoringAnnounces(s: State, t: nat, event: Symbol)
    requires t in s.threads && s.threads[t].payment.status == Completed && Fresh(s.db, event)
    requires s.threads[t].pc.StoreResult? && s.threads[t].pc.reply.Approved?
    ensures Announces(s, [Call(t, SP.YES)] + ([Call(t, Lost(event))] + []), s.threads[t].payment.id, event)
  {
    PublishingAnnounces(Step(s, Call(t, SP.YES)), t, event);
    RunCons(Step, s, Call(t, SP.YES), [Call(t, Lost(event))] + []);
  }

  lemma UpdatingAnnounces(s: State, t: nat, event: Symbol)
    requires t in s.threads && s.threads[t].payment.status == Completed && Fresh(s.db, event)
    requires s.threads[t].pc.UpdateRecord? && s.threads[t].pc.reply.Approved?
    ensures Announces(s, [Call(t, SP.YES)] + ([Call(t, SP.YES)] + ([Call(t, Lost(event))] + [])), s.threads[t].payment.id, event)
  {
    StoringAnnounces(Step(s, Call(t, SP.YES)), t, event);
    RunCons(Step, s, Call(t, SP.YES), [Call(t, SP.YES)] + ([Call(t, Lost(event))] + []));
  }

  /** A saved copy of a completed row is completed, and so is the reply behind it. */
  lemma SavedIsCompleted(d: Db, p: Payment)
    requires SavedAs(d, p) && d.payments[p.id].status == Completed
    ensures p.status == Completed && forall reply :: Reflects(p, reply) ==> reply.Approved?
  {
    SameBodySameEvent(0, p, d.payments[p.id]);
  }

  lemma RequestAnnounces(s: State, t: nat, id: Symbol, event: Symbol) returns (actions: seq<Action>)
    requires Inv(s) && t in s.threads && AboutToPublish(s.threads[t], id) && Fresh(s.db, event)
    requires id in s.db.payments && s.db.payments[id].status == Completed
    ensures Announces(s, actions, id, event)
  {
    assert ThreadOk(s.db, s.threads[t]);
    SavedIsCompleted(s.db, s.threads[t].payment);
    match s.threads[t].pc
    case UpdateRecord(_) =>
      UpdatingAnnounces(s, t, event);
      actions := [Call(t, SP.YES)] + ([Call(t, SP.YES)] + ([Call(t, Lost(event))] + []));
    case StoreResult(_) =>
      StoringAnnounces(s, t, event);
      actions := [Call(t, SP.YES)] + ([Call(t, Lost(event))] + []);
    case Publish =>
      PublishingAnnounces(s, t, event);
      actions := [Call(t, Lost(event))] + [];
  }

  /** The head of the queue is published under the new id; the row is not flagged. */
  lemma RecoveringAnnounces(s: State, r: nat, event: Symbol)
    requires r in s.recoveries && s.recoveries[r].queue != [] && !s.recoveries[r].marking
    requires s.recoveries[r].queue[0].status == Completed && Fresh(s.db, event)
    ensures Announces(s, [Recover(r, Lost(event))] + [], s.recoveries[r].queue[0].id, event)
    ensures var s' := Run(Step, s, [Recover(r, Lost(event))] + []);
            s'.db.payments == s.db.payments && s'.db.used == s.db.used + {event}
  {
    LastIsAnnounced(s.db.kafka, s.recoveries[r].queue[0], Lost(event));
    RunCons(Step, s, Recover(r, Lost(event)), []);
  }

  /** A recovery run comes to the payment by failing at what is before it in the queue. */
  lemma {:induction false} RecoveryAnnounces(s: State, r: nat, k: nat, id: Symbol, event: Symbol) returns (actions: seq<Action>)
    requires id in s.db.used && Fresh(s.db, event)
    requires r in s.recoveries && Holds(s.recoveries[r], k, id) && s.recoveries[r].queue[k].status == Completed
    ensures Announces(s, actions, id, event)
    decreases k
  {
    if k == 0 {
      RecoveringAnnounces(s, r, event);
      actions := [Recover(r, Lost(event))] + [];
    } else {
      var skip := Recover(r, Answer(FailsBefore, Unreachable, id, 0));
      var rec := s.recoveries[r];
      assert Step(s, skip) == s.(recoveries := s.recoveries[r := Recovery(rec.queue[1..], false)]);
      assert rec.queue[1..][k - 1] == rec.queue[k];
      var rest := RecoveryAnnounces(Step(s, skip), r, k - 1, id, event);
      RunCons(Step, s, skip, rest);
      actions := [skip] + rest;
    }
  }

  /** A scan finds a completed row that is not flagged, and publishes it; and the row stays unflagged. */
  lemma UnflaggedCanBeAnnounced(s: State, id: Symbol, event: Symbol) returns (actions: seq<Action>)
    requires id in s.db.payments && s.db.payments[id].id == id && s.db.payments[id].status == Completed
    requires !s.db.payments[id].eventPublished && Fresh(s.db, event)
    ensures Announces(s, actions, id, event)
    ensures Run(Step, s, actions).db.payments == s.db.payments && Run(Step, s, actions).db.used == s.db.used + {event}
  {
    var r := AboveAll(s.recoveries.Keys);
    var order := ScanWithHead(s.db.payments, id);
    var s' := Step(s, Scan(r, order));
    assert s' == s.(recoveries := s.recoveries[r := Recovery(Rows(s.db.payments, order), false)]);
    RecoveringAnnounces(s', r, event);
    RunCons(Step, s, Scan(r, order), [Recover(r, Lost(event))] + []);
    actions := [Scan(r, order)] + ([Recover(r, Lost(event))] + []);
  }

  lemma IdsGrow(log: seq<Event>, log': seq<Event>, id: Symbol)
    requires log <= log'
    ensures D.IdsIn(log, id) <= D.IdsIn(log', id)
  {
    forall x | x in D.IdsIn(log, id) ensures x in D.IdsIn(log', id) {
      var i :| 0 <= i < |log| && log[i].paymentId == id && log[i].eventType == PaymentSucceeded && log[i].id == x;
      assert log'[i] == log[i];
    }
  }

  /** The run leads to a state in which two ids announce the payment. */
  ghost predicate AnnouncesTwo(s: State, actions: seq<Action>, id: Symbol) {
    |D.IdsIn(Run(Step, s, actions).db.kafka, id)| > 1
  }

  lemma TwoAreMore(log: seq<Event>, id: Symbol, one: Symbol, other: Symbol)
    requires one in D.IdsIn(log, id) && other in D.IdsIn(log, id) && one != other
    ensures |D.IdsIn(log, id)| > 1
  {
    D.SubsetIsSmaller({one, other}, D.IdsIn(log, id));
  }

  lemma UnflaggedCanBeAnnouncedTwice(s: State, id: Symbol, one: Symbol, other: Symbol) returns (actions: seq<Action>)
    requires Inv(s) && id in s.db.payments && s.db.payments[id].status == Completed && !s.db.payments[id].eventPublished
    requires Fresh(s.db, one) && Fresh(s.db, other) && one != other
    ensures AnnouncesTwo(s, actions, id)
  {
    assert RowOk(s.db, id);
    var first := UnflaggedCanBeAnnounced(s, id, one);
    PT.RunsAreGood(s, first);
    var mid := Run(Step, s, first);
    var second := UnflaggedCanBeAnnounced(mid, id, other);
    PT.RunsAreGood(mid, second);
    IdsGrow(mid.db.kafka, Run(Step, mid, second).db.kafka, id);
    TwoAreMore(Run(Step, mid, second).db.kafka, id, one, other);
    RunConcat(Step, s, first, second);
    actions := first + second;
  }

  /** A run that announces the payment under a new id adds it to the one there was. */
  lemma AnotherAnnouncement(s: State, actions: seq<Action>, id: Symbol, event: Symbol)
    requires Inv(s) && id in s.db.payments && s.db.payments[id].status == Completed && s.db.payments[id].eventPublished
    requires event !in s.db.used && Announces(s, actions, id, event)
    ensures AnnouncesTwo(s, actions, id)
  {
    assert RowOk(s.db, id);
    var i :| 0 <= i < |s.db.kafka| && s.db.kafka[i].paymentId == id;
    assert EventOk(s.db, s.db.kafka[i]);
    assert s.db.kafka[i].id in D.IdsIn(s.db.kafka, id);
    PT.RunsAreGood(s, actions);
    IdsGrow(s.db.kafka, Run(Step, s, actions).db.kafka, id);
    TwoAreMore(Run(Step, s, actions).db.kafka, id, s.db.kafka[i].id, event);
  }

  lemma CompletableCanComplete(s: State, t: nat, id: Symbol) returns (actions: seq<Action>)
    requires Inv(s) && t in s.threads && CanComplete(s.db, s.threads[t], id)
    ensures SP.Completes(s, actions, id)
  {
    assert ThreadOk(s.db, s.threads[t]);
    if s.threads[t].pc.SavePayment? {
      SP.SavingCompletes(s, t);
      actions := [Call(t, SP.YES)] + [];
    } else if s.threads[t].pc.CallBank? {
      SP.CallingCompletes(s, t);
      actions := [Call(t, SP.YES)] + ([Call(t, SP.YES)] + []);
    } else {
      SP.ClaimingCompletes(s, t);
      actions := [Call(t, SP.YES)] + ([Call(t, SP.YES)] + ([Call(t, SP.YES)] + []));
    }
  }

  lemma CompletableCanBeAnnouncedTwice(s: State, t: nat, id: Symbol, one: Symbol, other: Symbol) returns (actions: seq<Action>)
    requires Inv(s) && t in s.threads && CanComplete(s.db, s.threads[t], id)
    requires Fresh(s.db, one) && Fresh(s.db, other) && one != other
    ensures AnnouncesTwo(s, actions, id)
  {
    var first := CompletableCanComplete(s, t, id);
    PT.RunsAreGood(s, first);
    var second := UnflaggedCanBeAnnouncedTwice(Run(Step, s, first), id, one, other);
    RunConcat(Step, s, first, second);
    actions := first + second;
  }

  lemma UnsafeCanBeAnnouncedTwice(s: State, id: Symbol, one: Symbol, other: Symbol) returns (actions: seq<Action>)
    requires Inv(s) && id in s.db.payments && !Safe(s, id)
    requires Fresh(s.db, one) && Fresh(s.db, other) && one != other
    ensures AnnouncesTwo(s, actions, id)
  {
    if s.db.payments[id].status == Processing {
      var t :| t in s.threads && CanComplete(s.db, s.threads[t], id);
      actions := CompletableCanBeAnnouncedTwice(s, t, id, one, other);
    } else if !s.db.payments[id].eventPublished {
      actions := UnflaggedCanBeAnnouncedTwice(s, id, one, other);
    } else if |D.IdsIn(s.db.kafka, id)| > 1 {
      actions := [];
    } else if t :| t in s.threads && AboutToPublish(s.threads[t], id) {
      actions := RequestAnnounces(s, t, id, one);
      AnotherAnnouncement(s, actions, id, one);
    } else {
      var r, k: nat :| r in s.recoveries && Holds(s.recoveries[r], k, id);
      assert RecoveryOk(s.db, s.recoveries[r]) && RowOk(s.db, id);
      SavedIsCompleted(s.db, s.recoveries[r].queue[k]);
      actions := RecoveryAnnounces(s, r, k, id, one);
      AnotherAnnouncement(s, actions, id, one);
    }
  }
}
