/** Every step of the webhook protocol keeps the invariant, and nothing goes back. A worker's step is
    a write followed by a move of the worker, and both are taken one at a time. */
module WebhookSteps {
  import opened GoText
  import opened WebhookProtocol
  import opened WebhookInvariant

  lemma StageEvolvesTransitive(a: Stage, b: Stage, c: Stage)
    requires StageEvolves(a, b) && StageEvolves(b, c)
    ensures StageEvolves(a, c)
  {
  }

  lemma GrowsTransitive(x: State, y: State, z: State)
    requires Grows(x, y) && Grows(y, z)
    ensures Grows(x, z)
  {
    forall d | d in x.dispatches
      ensures d in z.dispatches && StageEvolves(x.dispatches[d].stage, z.dispatches[d].stage)
    {
      StageEvolvesTransitive(x.dispatches[d].stage, y.dispatches[d].stage, z.dispatches[d].stage);
    }
  }

  lemma GrowsReflexive(s: State)
    ensures Grows(s, s)
  {
  }

  lemma Then(x: State, y: State, z: State)
    requires Good(x, y) && Good(y, z)
    ensures Good(x, z)
  {
    GrowsTransitive(x, y, z);
  }

  // ---------- endpoints ----------

  lemma EndpointStep(s: State, s': State)
    requires Inv(s) && s' == s.(endpoints := s'.endpoints)
    requires forall id :: id in s.deliveries ==> s.deliveries[id].endpointId in s'.endpoints
    ensures Good(s, s')
  {
    assert Grows(s, s');
    AllRowsCarry(s, s');
    AllWorkersCarry(s, s');
    DispatchesCarry(s, s');
  }

  // ---------- fan-out ----------

  /** One dispatch moves on. */
  lemma DispatchMoves(s: State, d: nat, dispatch: FanOut)
    requires Inv(s) && DispatchOk(s, dispatch)
    requires d in s.dispatches ==>
               s.dispatches[d].event == dispatch.event && StageEvolves(s.dispatches[d].stage, dispatch.stage)
    ensures Good(s, s.(dispatches := s.dispatches[d := dispatch]))
  {
    var s' := s.(dispatches := s.dispatches[d := dispatch]);
    assert Grows(s, s');
    AllRowsCarry(s, s');
    AllWorkersCarry(s, s');
    DispatchesCarry(s, s');
    CallsCarry(s, s', dispatch);
  }

  lemma CallsCarry(s: State, s': State, dispatch: FanOut)
    requires DispatchOk(s, dispatch) && Grows(s, s')
    ensures DispatchOk(s', dispatch)
  {
    forall event, e, pc | CallOk(s, event, e, pc) ensures CallOk(s', event, e, pc) {
      CallCarries(s, s', event, e, pc);
    }
  }

  lemma SelectStep(s: State, d: nat, o: Outcome)
    requires Inv(s) && d in s.dispatches && s.dispatches[d].stage.Selecting?
    ensures Good(s, Step(s, Select(d, o)))
  {
    DispatchMoves(s, d, Step(s, Select(d, o)).dispatches[d]);
  }

  lemma JoinStep(s: State, d: nat)
    requires Inv(s) && d in s.dispatches && s.dispatches[d].stage.Enqueuing? && AllSettled(s.dispatches[d].stage.calls)
    ensures Good(s, Step(s, Join(d)))
  {
    assert DispatchOk(s, s.dispatches[d]);
    DispatchMoves(s, d, Step(s, Join(d)).dispatches[d]);
  }

  lemma CallMoves(s: State, d: nat, e: Symbol, pc: EnqueuePc)
    requires Inv(s) && d in s.dispatches && s.dispatches[d].stage.Enqueuing? && e in s.dispatches[d].stage.calls
    requires CallOk(s, s.dispatches[d].event, e, pc)
    ensures Good(s, WithCall(s, d, e, pc))
  {
    var dispatch := s.dispatches[d];
    var stage := Enqueuing(dispatch.stage.calls[e := pc]);
    assert DispatchOk(s, dispatch);
    assert stage.calls.Keys == dispatch.stage.calls.Keys;
    DispatchMoves(s, d, dispatch.(stage := stage));
  }

  lemma RowAdded(s: State, e: Symbol, event: Event)
    requires Inv(s) && e in s.endpoints && s.owner(e) == event.merchantId != 0 && s.deliveryId(e, event.id) !in s.deliveries
    ensures var id := s.deliveryId(e, event.id);
            Good(s, s.(deliveries := s.deliveries[id := NewDelivery(id, e, event)]))
  {
    var id := s.deliveryId(e, event.id);
    var s' := s.(deliveries := s.deliveries[id := NewDelivery(id, e, event)]);
    assert Grows(s, s');
    RowsCarry(s, s', id);
    LettersCarry(s, s');
    AllWorkersCarry(s, s');
    DispatchesCarry(s, s');
  }

  lemma JobAddedGrows(s: State, j: JobId)
    requires j !in s.jobs
    ensures Grows(s, s.(jobs := s.jobs[j := Job(Waiting, 0, 0, 0)]))
  {
  }

  lemma JobAdded(s: State, j: JobId)
    requires Inv(s) && j !in s.jobs && j.deliveryId in s.deliveries
    ensures Good(s, s.(jobs := s.jobs[j := Job(Waiting, 0, 0, 0)]))
  {
    var s' := s.(jobs := s.jobs[j := Job(Waiting, 0, 0, 0)]);
    JobAddedGrows(s, j);
    AllRowsCarry(s, s');
    AllWorkersCarry(s, s');
    DispatchesCarry(s, s');
    forall i | i in s'.jobs ensures i.deliveryId in s.deliveries && JobOk(s'.jobs[i]) && Held(s.workers, i, s'.jobs[i]) {
      if i != j { assert JobOk(s.jobs[i]) && Held(s.workers, i, s.jobs[i]); }
    }
  }

  lemma CreateRowStep(s: State, d: nat, e: Symbol, o: Outcome)
    requires Inv(s) && d in s.dispatches && s.dispatches[d].stage.Enqueuing? && e in s.dispatches[d].stage.calls
    requires s.dispatches[d].stage.calls[e] == ToCreate
    ensures Good(s, EnqueueNext(s, d, e, o))
  {
    var event := s.dispatches[d].event;
    var id := s.deliveryId(e, event.id);
    var rows := Upserted(s, id, e, event, o);
    var s' := s.(deliveries := rows);
    assert DispatchOk(s, s.dispatches[d]);
    assert CallOk(s, event, e, ToCreate);
    GrowsReflexive(s);
    if rows != s.deliveries { RowAdded(s, e, event); }
    assert Good(s, s');
    if id in rows && rows[id].status.Terminal() { assert RowOk(s', id); }
    CallMoves(s', d, e, AfterCreate(rows, id, o));
    Then(s, s', EnqueueNext(s, d, e, o));
  }

  lemma AddJobStep(s: State, d: nat, e: Symbol, o: Outcome)
    requires Inv(s) && d in s.dispatches && s.dispatches[d].stage.Enqueuing? && e in s.dispatches[d].stage.calls
    requires s.dispatches[d].stage.calls[e] == ToAdd
    ensures Good(s, EnqueueNext(s, d, e, o))
  {
    var event := s.dispatches[d].event;
    var id := s.deliveryId(e, event.id);
    var s' := s.(jobs := Added(s.jobs, Automatic(id), o));
    assert DispatchOk(s, s.dispatches[d]);
    assert CallOk(s, event, e, ToAdd);
    GrowsReflexive(s);
    if s'.jobs != s.jobs { JobAdded(s, Automatic(id)); }
    assert Good(s, s');
    if o == Succeeds { assert Automatic(id) in s'.jobs; }
    CallMoves(s', d, e, Settled(o == Succeeds));
    Then(s, s', EnqueueNext(s, d, e, o));
  }

  lemma EnqueueStep(s: State, d: nat, e: Symbol, o: Outcome)
    requires Inv(s) && d in s.dispatches && s.dispatches[d].stage.Enqueuing? && e in s.dispatches[d].stage.calls
    ensures Good(s, EnqueueNext(s, d, e, o))
  {
    match s.dispatches[d].stage.calls[e]
    case ToCreate => CreateRowStep(s, d, e, o);
    case ToAdd => AddJobStep(s, d, e, o);
    case Settled(_) => GrowsReflexive(s);
  }

  // ---------- the queue ----------

  lemma TakenGrows(s: State, w: nat, j: JobId)
    requires j in s.jobs && s.jobs[j].state == Waiting
    ensures Grows(s, Taken(s, w, j))
  {
  }

  lemma TakeStep(s: State, w: nat, j: JobId)
    requires Inv(s) && w !in s.workers && j in s.jobs && s.jobs[j].state == Waiting
    ensures Good(s, Taken(s, w, j))
  {
    var s' := Taken(s, w, j);
    TakenGrows(s, w, j);
    AllRowsCarry(s, s');
    forall v | v in s.workers ensures s.workers[v].job != j { assert WorkerOk(s, v, s.workers[v]); }
    WorkersCarry(s, s', j);
    DispatchesCarry(s, s');
    forall i | i in s'.jobs ensures i.deliveryId in s.deliveries && JobOk(s'.jobs[i]) && Held(s'.workers, i, s'.jobs[i]) {
      if i != j { assert JobOk(s.jobs[i]) && Held(s.workers, i, s.jobs[i]); }
    }
  }

  lemma DecidedGrows(s: State, w: nat, v: Verdict)
    requires Busy(s, w) && s.jobs[s.workers[w].job].state == Active(w)
    ensures Grows(s, Decided(s, w, v))
  {
  }

  /** A worker is done with its job for now. */
  lemma LeaveStep(s: State, w: nat, v: Verdict)
    requires Inv(s) && Busy(s, w) && !v.GoOn? && v != Return(NotFound)
    ensures Good(s, Decided(s, w, v))
  {
    var s', j := Decided(s, w, v), s.workers[w].job;
    assert WorkerOk(s, w, s.workers[w]) && JobOk(s.jobs[j]);
    DecidedGrows(s, w, v);
    AllRowsCarry(s, s');
    WorkersCarry(s, s', j);
    DispatchesCarry(s, s');
    forall i | i in s'.jobs ensures i.deliveryId in s.deliveries && JobOk(s'.jobs[i]) && Held(s'.workers, i, s'.jobs[i]) {
      if i != j { assert JobOk(s.jobs[i]) && Held(s.workers, i, s.jobs[i]); }
    }
  }

  /** A worker goes on to its next call. */
  lemma MoveStep(s: State, w: nat, pc: WorkerPc)
    requires Inv(s) && Busy(s, w) && WorkerOk(s, w, s.workers[w].(pc := pc))
    ensures Good(s, Decided(s, w, GoOn(pc)))
  {
    var s' := Decided(s, w, GoOn(pc));
    DecidedGrows(s, w, GoOn(pc));
    AllRowsCarry(s, s');
    forall v | v in s.workers ensures WorkerOk(s', v, s'.workers[v]) {
      if v != w { WorkerCarries(s, s', v); }
    }
    DispatchesCarry(s, s');
  }

  // ---------- what a worker writes ----------

  lemma PostedStep(s: State, id: Symbol)
    requires Inv(s)
    ensures Good(s, s.(posted := s.posted + {id}))
  {
    var s' := s.(posted := s.posted + {id});
    assert Grows(s, s');
    AllRowsCarry(s, s');
    AllWorkersCarry(s, s');
    DispatchesCarry(s, s');
  }

  /** A row changes its status, its counter and its note, for which its job is the reason. */
  lemma RowWritten(s: State, id: Symbol, row: Delivery)
    requires Inv(s) && id in s.deliveries && Parcel(row) == Parcel(s.deliveries[id]) && HasJob(s.jobs, id)
    requires row.status == Delivered ==> id in s.posted
    requires row.status == Dead ==> HasLetter(s.letters, id)
    ensures Good(s, s.(deliveries := s.deliveries[id := row]))
  {
    var s' := s.(deliveries := s.deliveries[id := row]);
    var was := s.deliveries[id];
    assert Parcel(row).id == row.id && Parcel(row).endpointId == row.endpointId
           && Parcel(row).eventId == row.eventId && Parcel(row).merchantId == row.merchantId;
    assert Parcel(was).id == was.id && Parcel(was).endpointId == was.endpointId
           && Parcel(was).eventId == was.eventId && Parcel(was).merchantId == was.merchantId;
    assert Grows(s, s');
    assert RowOk(s, id);
    RowsCarry(s, s', id);
    LettersCarry(s, s');
    AllWorkersCarry(s, s');
    DispatchesCarry(s, s');
  }

  lemma MarkedStep(s: State, w: nat, row: Delivery, status: Status, note: Note, o: Outcome)
    requires Inv(s) && Busy(s, w) && Read(s, s.workers[w].job, row) && status != Dead
    requires status == Delivered ==> row.id in s.posted
    ensures var s' := s.(deliveries := Marked(s.deliveries, row.id, status, note, o));
            Good(s, s') && Read(s', s.workers[w].job, row)
  {
    GrowsReflexive(s);
    if o.TakesEffect() {
      var was := s.deliveries[row.id];
      var now := was.(status := status, note := note, attemptCount := was.attemptCount + 1);
      assert s.workers[w].job in s.jobs;
      assert Marked(s.deliveries, row.id, status, note, o) == s.deliveries[row.id := now];
      RowWritten(s, row.id, now);
    }
  }

  /** The upsert of a letter loses none and changes none but for its log. */
  lemma LetterUpsertedStep(s: State, row: Delivery, attempt: nat, cause: Note, letterId: Symbol)
    requires Inv(s) && row.id in s.deliveries && Parcel(row) == Parcel(s.deliveries[row.id])
    requires LetterFits(s.letters, row, letterId)
    ensures var s' := s.(letters := LetterUpserted(s.letters, row, attempt, cause, letterId));
            Good(s, s') && HasLetter(s'.letters, row.id)
  {
    var s' := s.(letters := LetterUpserted(s.letters, row, attempt, cause, letterId));
    assert Grows(s, s');
    var was := s.deliveries[row.id];
    assert Parcel(row).endpointId == row.endpointId && Parcel(row).merchantId == row.merchantId
           && Parcel(row).eventType == row.eventType && Parcel(row).payload == row.payload;
    assert Parcel(was).endpointId == was.endpointId && Parcel(was).merchantId == was.merchantId
           && Parcel(was).eventType == was.eventType && Parcel(was).payload == was.payload;
    forall l | l in s'.letters ensures LetterOk(s'.deliveries, s'.letters[l]) {
      if l in s.letters { assert LetterOk(s.deliveries, s.letters[l]); }
    }
    if HasLetter(s.letters, row.id) {
      var l :| l in s.letters && s.letters[l].deliveryId == row.id;
      assert s'.letters[l].deliveryId == row.id;
    } else {
      assert s'.letters[letterId].deliveryId == row.id;
    }
    LetterUpsertedUnique(s.letters, row, attempt, cause, letterId);
    AllRowsCarry(s, s');
    AllWorkersCarry(s, s');
    DispatchesCarry(s, s');
  }

  lemma LetterUpsertedUnique(letters: map<Symbol, Letter>, row: Delivery, attempt: nat, cause: Note, letterId: Symbol)
    requires UniqueLetters(letters) && LetterFits(letters, row, letterId)
    ensures UniqueLetters(LetterUpserted(letters, row, attempt, cause, letterId))
  {
  }

  lemma BuriedStep(s: State, w: nat, row: Delivery, attempt: nat, cause: Note, a: Answer)
    requires Inv(s) && Busy(s, w) && Read(s, s.workers[w].job, row)
    ensures Good(s, Buried(s, row, attempt, cause, a))
  {
    GrowsReflexive(s);
    if a.outcome.TakesEffect() && LetterFits(s.letters, row, a.letterId) {
      var mid := s.(letters := LetterUpserted(s.letters, row, attempt, cause, a.letterId));
      LetterUpsertedStep(s, row, attempt, cause, a.letterId);
      assert s.workers[w].job in mid.jobs;
      var dead := mid.deliveries[row.id].(status := Dead);
      RowWritten(mid, row.id, dead);
      Then(s, mid, mid.(deliveries := mid.deliveries[row.id := dead]));
    }
  }

  // ---------- steps of a worker ----------

  lemma WrittenStep(s: State, w: nat, a: Answer)
    requires Inv(s) && Busy(s, w)
    ensures Good(s, Written(s, w, a))
  {
    assert WorkerOk(s, w, s.workers[w]);
    GrowsReflexive(s);
    match s.workers[w].pc
    case LoadDelivery =>
    case LoadEndpoint(_) =>
    case MarkInactive(row) => MarkedStep(s, w, row, Failed, EndpointInactive, a.outcome);
    case Post(row) => if a.outcome == Succeeds { PostedStep(s, row.id); }
    case MarkDelivered(row, response) => MarkedStep(s, w, row, Delivered, response, a.outcome);
    case MarkFailed(row, cause) => MarkedStep(s, w, row, Failed, cause, a.outcome);
    case MarkDead(row, cause) => BuriedStep(s, w, row, s.jobs[s.workers[w].job].attemptsMade + 1, cause, a);
  }

  /** What a call writes is not what the queue and the workers keep. */
  lemma WrittenLeaves(s: State, w: nat, a: Answer)
    requires Busy(s, w)
    ensures var s' := Written(s, w, a); s'.jobs == s.jobs && s'.workers == s.workers && s'.dispatches == s.dispatches
    ensures s.workers[w].pc.Post? && a.outcome == Succeeds ==> s.workers[w].pc.row.id in Written(s, w, a).posted
  {
  }

  /** The next call finds what it needs. */
  lemma VerdictIsSound(s: State, s': State, w: nat, a: Answer)
    requires Inv(s) && Busy(s, w) && s' == Written(s, w, a) && Grows(s, s') && s'.jobs == s.jobs
    requires s.workers[w].pc.Post? && a.outcome == Succeeds ==> s.workers[w].pc.row.id in s'.posted
    ensures var v := VerdictOf(s, w, a);
            v != Return(NotFound) && (v.GoOn? ==> WorkerOk(s', w, s.workers[w].(pc := v.pc)))
  {
    assert WorkerOk(s, w, s.workers[w]);
    WorkerCarries(s, s', w);
    var id := s.workers[w].job.deliveryId;
    assert RowOk(s, id);
  }

  lemma WorkStep(s: State, w: nat, a: Answer)
    requires Inv(s) && Busy(s, w)
    ensures Good(s, WorkNext(s, w, a))
  {
    var s', v := Written(s, w, a), VerdictOf(s, w, a);
    WrittenStep(s, w, a);
    WrittenLeaves(s, w, a);
    VerdictIsSound(s, s', w, a);
    if v.GoOn? { MoveStep(s', w, v.pc); } else { LeaveStep(s', w, v); }
    Then(s, s', WorkNext(s, w, a));
  }

  lemma StepKeepsInvariant(s: State, a: Action)
    requires Inv(s)
    ensures Good(s, Step(s, a))
  {
    GrowsReflexive(s);
    match a
    case SetEndpoint(e, endpoint) =>
      forall id | id in s.deliveries ensures s.deliveries[id].endpointId in s.endpoints { assert RowOk(s, id); }
      EndpointStep(s, Step(s, a));
    case DeleteEndpoint(e) =>
      forall id | id in s.deliveries ensures s.deliveries[id].endpointId in s.endpoints { assert RowOk(s, id); }
      if Step(s, a) != s { EndpointStep(s, Step(s, a)); }
    case Receive(d, event) => if d !in s.dispatches { DispatchMoves(s, d, Step(s, a).dispatches[d]); }
    case Select(d, o) => if d in s.dispatches && s.dispatches[d].stage.Selecting? { SelectStep(s, d, o); }
    case Enqueue(d, e, o) =>
      if d in s.dispatches && s.dispatches[d].stage.Enqueuing? && e in s.dispatches[d].stage.calls {
        EnqueueStep(s, d, e, o);
      }
    case Join(d) =>
      if d in s.dispatches && s.dispatches[d].stage.Enqueuing? && AllSettled(s.dispatches[d].stage.calls) {
        JoinStep(s, d);
      }
    case Retry(id, _, at, o) =>
      if Step(s, a) != s { JobAdded(s, Manual(id, at)); }
    case Take(w, j) =>
      if w !in s.workers && j in s.jobs && s.jobs[j].state == Waiting { TakeStep(s, w, j); }
    case Work(w, answer) => if Busy(s, w) { WorkStep(s, w, answer); }
    case Die(w) => if Busy(s, w) { LeaveStep(s, w, Vanish); }
  }
}
