/** The inductive invariant of the webhook protocol, what never goes back, and the proof that every
    step keeps both. */
module WebhookInvariant {
  import opened GoText
  import opened WebhookProtocol

  /** The part of a delivery that no step may change. */
  function Parcel(d: Delivery): Delivery {
    d.(status := Pending, attemptCount := 0, note := NeverTried)
  }

  function Envelope(l: Letter): Letter {
    l.(attempt := 0, cause := NeverTried)
  }

  predicate HasJob(jobs: map<JobId, Job>, id: Symbol) {
    exists j :: j in jobs && j.deliveryId == id
  }

  // ---------- what never goes back ----------

  /** A job that ended stays as it is. */
  predicate JobEvolves(a: Job, b: Job) {
    a.attemptsMade <= b.attemptsMade && a.starts <= b.starts && a.losses <= b.losses && (a.Finished() ==> b == a)
  }

  predicate StageEvolves(a: Stage, b: Stage) {
    match a
    case Selecting => true
    case Enqueuing(calls) =>
      (b.Enqueuing? && b.calls.Keys == calls.Keys) || (b.Over? && b.selected == calls.Keys)
    case Over(_, _) => b == a
  }

  ghost predicate Grows(s: State, s': State) {
    && s'.deliveryId == s.deliveryId && s'.owner == s.owner
    && s.posted <= s'.posted
    && (forall id :: id in s.deliveries ==> id in s'.deliveries && Parcel(s'.deliveries[id]) == Parcel(s.deliveries[id]))
    && (forall l :: l in s.letters ==> l in s'.letters && Envelope(s'.letters[l]) == Envelope(s.letters[l]))
    && (forall j :: j in s.jobs ==> j in s'.jobs && JobEvolves(s.jobs[j], s'.jobs[j]))
    && (forall d :: d in s.dispatches ==> d in s'.dispatches && s'.dispatches[d].event == s.dispatches[d].event
                                          && StageEvolves(s.dispatches[d].stage, s'.dispatches[d].stage))
  }

  // ---------- the invariant ----------

  ghost predicate RowOk(s: State, id: Symbol)
    requires id in s.deliveries
  {
    var row := s.deliveries[id];
    && row.id == id == s.deliveryId(row.endpointId, row.eventId)
    && row.endpointId in s.endpoints && s.owner(row.endpointId) == row.merchantId != 0
    && (row.status == Delivered ==> id in s.posted)
    && (row.status == Dead ==> HasLetter(s.letters, id))
    && (row.status != Pending ==> HasJob(s.jobs, id))
  }

  /** The letter agrees with its delivery. */
  predicate LetterOk(deliveries: map<Symbol, Delivery>, l: Letter) {
    && l.deliveryId in deliveries
    && var row := deliveries[l.deliveryId];
       && l.endpointId == row.endpointId && l.merchantId == row.merchantId
       && l.eventType == row.eventType && l.payload == row.payload
  }

  ghost predicate UniqueLetters(letters: map<Symbol, Letter>) {
    forall l, m :: l in letters && m in letters && letters[l].deliveryId == letters[m].deliveryId ==> l == m
  }

  predicate JobOk(job: Job) {
    match job.state
    case Waiting => job.starts == job.attemptsMade + job.losses && job.attemptsMade < ATTEMPTS
    case Active(_) => job.starts == job.attemptsMade + job.losses + 1 && job.attemptsMade < ATTEMPTS
    case Completed(r) => r != NotFound && job.starts == job.attemptsMade + job.losses + 1 && job.attemptsMade < ATTEMPTS
    case Exhausted => job.starts == job.attemptsMade + job.losses && job.attemptsMade == ATTEMPTS
  }

  /** An active job is in the hands of the worker that holds its lock. */
  predicate Held(workers: map<nat, Worker>, j: JobId, job: Job) {
    job.state.Active? ==> job.state.worker in workers && workers[job.state.worker].job == j
  }

  /** What a worker read is the row of its job. */
  predicate Read(s: State, j: JobId, row: Delivery) {
    row.id == j.deliveryId && row.id in s.deliveries && Parcel(row) == Parcel(s.deliveries[row.id])
  }

  predicate WorkerOk(s: State, w: nat, worker: Worker) {
    && worker.job in s.jobs && s.jobs[worker.job].state == Active(w)
    && match worker.pc
       case LoadDelivery => true
       case LoadEndpoint(row) => Read(s, worker.job, row)
       case MarkInactive(row) => Read(s, worker.job, row)
       case Post(row) => Read(s, worker.job, row)
       case MarkDelivered(row, _) => Read(s, worker.job, row) && row.id in s.posted
       case MarkFailed(row, _) => Read(s, worker.job, row) && !IsLastAttempt(s.jobs[worker.job])
       case MarkDead(row, _) => Read(s, worker.job, row) && IsLastAttempt(s.jobs[worker.job])
  }

  /** The enqueue call for endpoint e stands where its row and job say. */
  predicate CallOk(s: State, event: Event, e: Symbol, pc: EnqueuePc) {
    var id := s.deliveryId(e, event.id);
    && s.owner(e) == event.merchantId != 0
    && (pc == ToAdd ==> id in s.deliveries)
    && (pc == Settled(true) ==> id in s.deliveries && HasJob(s.jobs, id))
  }

  ghost predicate DispatchOk(s: State, dispatch: FanOut) {
    match dispatch.stage
    case Selecting => dispatch.event.merchantId != 0
    case Enqueuing(calls) => forall e :: e in calls ==> CallOk(s, dispatch.event, e, calls[e])
    case Over(ok, selected) => ok ==> forall e :: e in selected ==> CallOk(s, dispatch.event, e, Settled(true))
  }

  ghost predicate Inv(s: State) {
    && (forall id :: id in s.deliveries ==> RowOk(s, id))
    && (forall l :: l in s.letters ==> LetterOk(s.deliveries, s.letters[l]))
    && UniqueLetters(s.letters)
    && (forall j :: j in s.jobs ==> j.deliveryId in s.deliveries && JobOk(s.jobs[j]) && Held(s.workers, j, s.jobs[j]))
    && (forall w :: w in s.workers ==> WorkerOk(s, w, s.workers[w]))
    && (forall d :: d in s.dispatches ==> DispatchOk(s, s.dispatches[d]))
  }

  ghost predicate Good(s: State, s': State) {
    Inv(s') && Grows(s, s')
  }

  // ---------- what a step leaves alone carries over ----------

  lemma HasJobCarries(s: State, s': State, id: Symbol)
    requires Grows(s, s') && HasJob(s.jobs, id)
    ensures HasJob(s'.jobs, id)
  {
    var j :| j in s.jobs && j.deliveryId == id;
    assert j in s'.jobs;
  }

  lemma HasLetterCarries(s: State, s': State, id: Symbol)
    requires Grows(s, s') && HasLetter(s.letters, id)
    ensures HasLetter(s'.letters, id)
  {
    var l :| l in s.letters && s.letters[l].deliveryId == id;
    assert Envelope(s'.letters[l]).deliveryId == Envelope(s.letters[l]).deliveryId;
  }

  lemma RowCarries(s: State, s': State, id: Symbol)
    requires Grows(s, s') && id in s.deliveries && RowOk(s, id) && s'.deliveries[id] == s.deliveries[id]
    requires s.deliveries[id].endpointId in s'.endpoints
    ensures RowOk(s', id)
  {
    if HasJob(s.jobs, id) { HasJobCarries(s, s', id); }
    if HasLetter(s.letters, id) { HasLetterCarries(s, s', id); }
  }

  lemma LetterCarries(s: State, s': State, l: Letter)
    requires Grows(s, s') && LetterOk(s.deliveries, l)
    ensures LetterOk(s'.deliveries, l)
  {
    var a, b := s.deliveries[l.deliveryId], s'.deliveries[l.deliveryId];
    assert Parcel(a) == Parcel(b);
    assert Parcel(a).endpointId == a.endpointId && Parcel(a).merchantId == a.merchantId
           && Parcel(a).eventType == a.eventType && Parcel(a).payload == a.payload;
  }

  lemma WorkerCarries(s: State, s': State, w: nat)
    requires Grows(s, s') && w in s.workers && WorkerOk(s, w, s.workers[w])
    requires s'.jobs[s.workers[w].job] == s.jobs[s.workers[w].job]
    ensures WorkerOk(s', w, s.workers[w])
  {
    var pc := s.workers[w].pc;
    if !pc.LoadDelivery? {
      assert Parcel(s'.deliveries[pc.row.id]) == Parcel(s.deliveries[pc.row.id]);
    }
  }

  lemma CallCarries(s: State, s': State, event: Event, e: Symbol, pc: EnqueuePc)
    requires Grows(s, s') && CallOk(s, event, e, pc)
    ensures CallOk(s', event, e, pc)
  {
    var id := s.deliveryId(e, event.id);
    if HasJob(s.jobs, id) { HasJobCarries(s, s', id); }
  }

  lemma DispatchesCarry(s: State, s': State)
    requires Inv(s) && Grows(s, s')
    ensures forall d :: d in s.dispatches ==> DispatchOk(s', s.dispatches[d])
  {
    forall event, e, pc | CallOk(s, event, e, pc) ensures CallOk(s', event, e, pc) {
      CallCarries(s, s', event, e, pc);
    }
    forall d | d in s.dispatches ensures DispatchOk(s', s.dispatches[d]) {
      assert DispatchOk(s, s.dispatches[d]);
    }
  }

  /** Rows the step did not write. */
  lemma RowsCarry(s: State, s': State, own: Symbol)
    requires Inv(s) && Grows(s, s')
    requires forall id :: id in s'.deliveries && id != own ==> id in s.deliveries && s'.deliveries[id] == s.deliveries[id]
    requires forall e :: e in s.endpoints ==> e in s'.endpoints
    ensures forall id :: id in s'.deliveries && id != own ==> RowOk(s', id)
  {
    forall id | id in s'.deliveries && id != own ensures RowOk(s', id) {
      RowCarries(s, s', id);
    }
  }

  lemma LettersCarry(s: State, s': State)
    requires Inv(s) && Grows(s, s')
    ensures forall l :: l in s.letters ==> LetterOk(s'.deliveries, s.letters[l])
  {
    forall l | l in s.letters ensures LetterOk(s'.deliveries, s.letters[l]) {
      LetterCarries(s, s', s.letters[l]);
    }
  }

  /** The step wrote no row. */
  lemma AllRowsCarry(s: State, s': State)
    requires Inv(s) && Grows(s, s') && s'.deliveries == s.deliveries
    requires forall id :: id in s.deliveries ==> s.deliveries[id].endpointId in s'.endpoints
    ensures forall id :: id in s.deliveries ==> RowOk(s', id)
  {
    forall id | id in s.deliveries ensures RowOk(s', id) {
      RowCarries(s, s', id);
    }
  }

  /** The step wrote no job that exists. */
  lemma AllWorkersCarry(s: State, s': State)
    requires Inv(s) && Grows(s, s')
    requires forall j :: j in s.jobs ==> s'.jobs[j] == s.jobs[j]
    ensures forall w :: w in s.workers ==> WorkerOk(s', w, s.workers[w])
  {
    forall w | w in s.workers ensures WorkerOk(s', w, s.workers[w]) {
      WorkerCarries(s, s', w);
    }
  }

  /** Workers whose job the step did not write. */
  lemma WorkersCarry(s: State, s': State, own: JobId)
    requires Inv(s) && Grows(s, s')
    requires forall j :: j in s.jobs && j != own ==> s'.jobs[j] == s.jobs[j]
    ensures forall w :: w in s.workers && s.workers[w].job != own ==> WorkerOk(s', w, s.workers[w])
  {
    forall w | w in s.workers && s.workers[w].job != own ensures WorkerOk(s', w, s.workers[w]) {
      assert WorkerOk(s, w, s.workers[w]);
      WorkerCarries(s, s', w);
    }
  }
}
