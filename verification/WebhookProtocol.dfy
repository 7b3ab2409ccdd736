/** The webhook service as a transition system: consumers fan events out to endpoints, the queue
    hands jobs to workers, and workers post and record the result. One action is one call; calls may
    fail before or after they took effect, consumers may stop anywhere, and a worker may die, in
    which case the queue hands its job out again without counting the attempt. The hash that makes
    delivery ids and the owner of an endpoint are parameters. */
module WebhookProtocol {
  import opened GoText
  import opened Runs

  datatype Status = Pending | Delivered | Failed | Dead {
    /** What enqueue takes as settled. */
    predicate Terminal() { this == Delivered || this == Dead }
  }

  /** The last status code and response of a row. */
  datatype Note = NeverTried | EndpointInactive | Response(code: int, body: Symbol) | Error(error: Symbol)

  datatype Delivery = Delivery(
    id: Symbol,
    endpointId: Symbol,
    merchantId: Symbol,
    eventId: Symbol,
    eventType: Symbol,
    payload: Symbol,
    status: Status,
    attemptCount: nat,
    note: Note)

  datatype Letter = Letter(
    deliveryId: Symbol,
    endpointId: Symbol,
    merchantId: Symbol,
    eventType: Symbol,
    payload: Symbol,
    attempt: nat,
    cause: Note)

  datatype Endpoint = Endpoint(isActive: bool, events: set<Symbol>)

  datatype Event = Event(id: Symbol, merchantId: Symbol, eventType: Symbol, payload: Symbol)

  // ---------- the queue ----------

  /** The job ids of enqueue and of retryDelivery. A job's data is its delivery id. */
  datatype JobId = Automatic(deliveryId: Symbol) | Manual(deliveryId: Symbol, at: int)

  datatype Result = NotFound | Discarded | Posted | DeadLettered

  datatype JobState = Waiting | Active(worker: nat) | Completed(result: Result) | Exhausted

  /** An active job is locked by its worker. `starts` counts how often a worker took the job, `losses` how often a worker died with it. */
  datatype Job = Job(state: JobState, attemptsMade: nat, starts: nat, losses: nat) {
    predicate Finished() { state.Completed? || state.Exhausted? }
  }

  const ATTEMPTS: nat := 5

  predicate IsLastAttempt(job: Job) { job.attemptsMade >= ATTEMPTS - 1 }

  function Added(jobs: map<JobId, Job>, id: JobId, o: Outcome): map<JobId, Job> {
    if o.TakesEffect() && id !in jobs then jobs[id := Job(Waiting, 0, 0, 0)] else jobs
  }

  // ---------- actors ----------

  datatype Outcome = Succeeds | FailsBefore | FailsAfter | DiesAfter {
    predicate TakesEffect() { this != FailsBefore }
  }

  /** How the environment answers a worker's call. `note` is the response or the error. */
  datatype Answer = Answer(outcome: Outcome, note: Note, letterId: Symbol)

  /** One enqueue call of a dispatch. */
  datatype EnqueuePc = ToCreate | ToAdd | Settled(ok: bool)

  datatype Stage = Selecting | Enqueuing(calls: map<Symbol, EnqueuePc>) | Over(ok: bool, selected: set<Symbol>)

  datatype FanOut = FanOut(event: Event, stage: Stage)

  datatype WorkerPc =
    | LoadDelivery
    | LoadEndpoint(row: Delivery)
    | MarkInactive(row: Delivery)
    | Post(row: Delivery)
    | MarkDelivered(row: Delivery, response: Note)
    | MarkFailed(row: Delivery, cause: Note)
    | MarkDead(row: Delivery, cause: Note)

  datatype Worker = Worker(job: JobId, pc: WorkerPc)

  /** `posted` holds the deliveries that some post of was answered with success. */
  datatype State = State(
    deliveryId: (Symbol, Symbol) -> Symbol,
    owner: Symbol -> Symbol,
    endpoints: map<Symbol, Endpoint>,
    deliveries: map<Symbol, Delivery>,
    letters: map<Symbol, Letter>,
    posted: set<Symbol>,
    jobs: map<JobId, Job>,
    dispatches: map<nat, FanOut>,
    workers: map<nat, Worker>)

  function Init(deliveryId: (Symbol, Symbol) -> Symbol, owner: Symbol -> Symbol): State {
    State(deliveryId, owner, map[], map[], map[], {}, map[], map[], map[])
  }

  datatype Action =
    | SetEndpoint(e: Symbol, endpoint: Endpoint)
    | DeleteEndpoint(e: Symbol)
    | Receive(d: nat, event: Event)
    | Select(d: nat, outcome: Outcome)
    | Enqueue(d: nat, e: Symbol, outcome: Outcome)
    | Join(d: nat)
    | Retry(id: Symbol, merchantId: Symbol, at: int, outcome: Outcome)
    | Take(w: nat, job: JobId)
    | Work(w: nat, answer: Answer)
    | Die(w: nat)

  // ---------- fan-out ----------

  function Subscribed(s: State, event: Event): set<Symbol> {
    set e | e in s.endpoints && s.owner(e) == event.merchantId
            && s.endpoints[e].isActive && event.eventType in s.endpoints[e].events
  }

  function NewDelivery(id: Symbol, e: Symbol, event: Event): Delivery {
    Delivery(id, e, event.merchantId, event.id, event.eventType, event.payload, Pending, 0, NeverTried)
  }

  /** The upsert of DeliveriesRepository.create. A new row needs its endpoint. */
  function Upserted(s: State, id: Symbol, e: Symbol, event: Event, o: Outcome): map<Symbol, Delivery> {
    if o.TakesEffect() && id !in s.deliveries && e in s.endpoints
    then s.deliveries[id := NewDelivery(id, e, event)] else s.deliveries
  }

  function WithCall(s: State, d: nat, e: Symbol, pc: EnqueuePc): State
    requires d in s.dispatches && s.dispatches[d].stage.Enqueuing?
  {
    var calls := s.dispatches[d].stage.calls;
    s.(dispatches := s.dispatches[d := s.dispatches[d].(stage := Enqueuing(calls[e := pc]))])
  }

  function AfterCreate(rows: map<Symbol, Delivery>, id: Symbol, o: Outcome): EnqueuePc {
    if o != Succeeds || id !in rows then Settled(false)
    else if rows[id].status.Terminal() then Settled(true)
    else ToAdd
  }

  function EnqueueNext(s: State, d: nat, e: Symbol, o: Outcome): State
    requires d in s.dispatches && s.dispatches[d].stage.Enqueuing? && e in s.dispatches[d].stage.calls
  {
    var event := s.dispatches[d].event;
    var id := s.deliveryId(e, event.id);
    match s.dispatches[d].stage.calls[e]
    case ToCreate =>
      var rows := Upserted(s, id, e, event, o);
      WithCall(s.(deliveries := rows), d, e, AfterCreate(rows, id, o))
    case ToAdd =>
      WithCall(s.(jobs := Added(s.jobs, Automatic(id), o)), d, e, Settled(o == Succeeds))
    case Settled(_) => s
  }

  predicate AllSettled(calls: map<Symbol, EnqueuePc>) {
    forall e | e in calls :: calls[e].Settled?
  }

  predicate AllOk(calls: map<Symbol, EnqueuePc>) {
    forall e | e in calls :: calls[e] == Settled(true)
  }

  function DispatchStep(s: State, a: Action): State
    requires a.Select? || a.Enqueue? || a.Join?
  {
    if a.d !in s.dispatches then s
    else
      var dispatch := s.dispatches[a.d];
      match a
      case Select(d, o) =>
        if !dispatch.stage.Selecting? then s
        else
          var selected := Subscribed(s, dispatch.event);
          var stage :=
            if o != Succeeds then Over(false, {})
            else if selected == {} then Over(true, {})
            else Enqueuing(map e | e in selected :: ToCreate);
          s.(dispatches := s.dispatches[d := dispatch.(stage := stage)])
      case Enqueue(d, e, o) =>
        if !dispatch.stage.Enqueuing? || e !in dispatch.stage.calls then s else EnqueueNext(s, d, e, o)
      case Join(d) =>
        if !dispatch.stage.Enqueuing? || !AllSettled(dispatch.stage.calls) then s
        else
          var calls := dispatch.stage.calls;
          s.(dispatches := s.dispatches[d := dispatch.(stage := Over(AllOk(calls), calls.Keys))])
  }

  // ---------- delivery ----------

  predicate Busy(s: State, w: nat) {
    w in s.workers && s.workers[w].job in s.jobs
  }

  /** The queue hands a job to a worker. */
  function Taken(s: State, w: nat, j: JobId): State
    requires j in s.jobs
  {
    s.(jobs := s.jobs[j := s.jobs[j].(state := Active(w), starts := s.jobs[j].starts + 1)],
       workers := s.workers[w := Worker(j, LoadDelivery)])
  }

  /** How process goes on after a call: with another call, by returning, by throwing, or not at all
      because its worker died. */
  datatype Verdict = GoOn(pc: WorkerPc) | Return(result: Result) | Raise | Vanish

  /** What the verdict does to the job. A throw counts as an attempt, and the job is retried while
      attempts are left; an attempt that vanished does not count. */
  function JobAfter(job: Job, v: Verdict): Job {
    match v
    case GoOn(_) => job
    case Return(result) => job.(state := Completed(result))
    case Raise =>
      job.(attemptsMade := job.attemptsMade + 1, state := if job.attemptsMade + 1 < ATTEMPTS then Waiting else Exhausted)
    case Vanish => job.(state := Waiting, losses := job.losses + 1)
  }

  function Decided(s: State, w: nat, v: Verdict): State
    requires Busy(s, w)
  {
    var j := s.workers[w].job;
    if v.GoOn? then s.(workers := s.workers[w := Worker(j, v.pc)])
    else s.(jobs := s.jobs[j := JobAfter(s.jobs[j], v)], workers := s.workers - {w})
  }

  /** The catch block: dead letter on the last attempt, otherwise failed and retried. */
  function Catch(job: Job, row: Delivery, cause: Note): WorkerPc {
    if IsLastAttempt(job) then MarkDead(row, cause) else MarkFailed(row, cause)
  }

  function Marked(rows: map<Symbol, Delivery>, id: Symbol, status: Status, note: Note, o: Outcome): map<Symbol, Delivery> {
    if o.TakesEffect() && id in rows
    then rows[id := rows[id].(status := status, note := note, attemptCount := rows[id].attemptCount + 1)]
    else rows
  }

  predicate HasLetter(letters: map<Symbol, Letter>, id: Symbol) {
    exists l :: l in letters && letters[l].deliveryId == id
  }

  /** Whether the transaction of markDeadWithLetter can commit. */
  predicate LetterFits(letters: map<Symbol, Letter>, row: Delivery, letterId: Symbol) {
    HasLetter(letters, row.id) || letterId !in letters
  }

  /** The upsert on the unique delivery id. */
  function LetterUpserted(letters: map<Symbol, Letter>, row: Delivery, attempt: nat, cause: Note, letterId: Symbol): map<Symbol, Letter> {
    if HasLetter(letters, row.id)
    then map l | l in letters ::
           if letters[l].deliveryId == row.id then letters[l].(attempt := attempt, cause := cause) else letters[l]
    else letters[letterId := Letter(row.id, row.endpointId, row.merchantId, row.eventType, row.payload, attempt, cause)]
  }

  /** The transaction of markDeadWithLetter: both writes or none. */
  function Buried(s: State, row: Delivery, attempt: nat, cause: Note, a: Answer): State {
    if a.outcome.TakesEffect() && LetterFits(s.letters, row, a.letterId) && row.id in s.deliveries
    then s.(deliveries := s.deliveries[row.id := s.deliveries[row.id].(status := Dead)],
            letters := LetterUpserted(s.letters, row, attempt, cause, a.letterId))
    else s
  }

  /** What the next call of process writes. */
  function Written(s: State, w: nat, a: Answer): State
    requires Busy(s, w)
  {
    match s.workers[w].pc
    case LoadDelivery => s
    case LoadEndpoint(_) => s
    case MarkInactive(row) => s.(deliveries := Marked(s.deliveries, row.id, Failed, EndpointInactive, a.outcome))
    case Post(row) => s.(posted := if a.outcome == Succeeds then s.posted + {row.id} else s.posted)
    case MarkDelivered(row, response) => s.(deliveries := Marked(s.deliveries, row.id, Delivered, response, a.outcome))
    case MarkFailed(row, cause) => s.(deliveries := Marked(s.deliveries, row.id, Failed, cause, a.outcome))
    case MarkDead(row, cause) => Buried(s, row, s.jobs[s.workers[w].job].attemptsMade + 1, cause, a)
  }

  /** Where process stands after that call. */
  function VerdictOf(s: State, w: nat, a: Answer): Verdict
    requires Busy(s, w)
  {
    var j := s.workers[w].job;
    var ok := a.outcome == Succeeds;
    if a.outcome == DiesAfter then Vanish
    else
      match s.workers[w].pc
      case LoadDelivery =>
        if !ok then Raise
        else if j.deliveryId in s.deliveries then GoOn(LoadEndpoint(s.deliveries[j.deliveryId]))
        else Return(NotFound)
      case LoadEndpoint(row) =>
        if !ok then Raise
        else if row.endpointId in s.endpoints && s.endpoints[row.endpointId].isActive then GoOn(Post(row))
        else GoOn(MarkInactive(row))
      case MarkInactive(_) => if ok then Return(Discarded) else Raise
      case Post(row) => GoOn(if ok then MarkDelivered(row, a.note) else Catch(s.jobs[j], row, a.note))
      case MarkDelivered(row, _) => if ok then Return(Posted) else GoOn(Catch(s.jobs[j], row, a.note))
      case MarkFailed(_, _) => Raise
      case MarkDead(row, _) => if ok && LetterFits(s.letters, row, a.letterId) then Return(DeadLettered) else Raise
  }

  function WorkNext(s: State, w: nat, a: Answer): State
    requires Busy(s, w)
  {
    Decided(Written(s, w, a), w, VerdictOf(s, w, a))
  }

  // ---------- one step ----------

  function Step(s: State, a: Action): State {
    match a
    case SetEndpoint(e, endpoint) => s.(endpoints := s.endpoints[e := endpoint])
    case DeleteEndpoint(e) =>
      if exists id :: id in s.deliveries && s.deliveries[id].endpointId == e then s
      else s.(endpoints := s.endpoints - {e})
    case Receive(d, event) =>
      // An event without a merchant is dropped. The empty string is symbol 0.
      if d in s.dispatches then s
      else s.(dispatches := s.dispatches[d := FanOut(event, if event.merchantId == 0 then Over(true, {}) else Selecting)])
    case Select(_, _) => DispatchStep(s, a)
    case Enqueue(_, _, _) => DispatchStep(s, a)
    case Join(_) => DispatchStep(s, a)
    case Retry(id, merchantId, at, o) =>
      if id !in s.deliveries || s.deliveries[id].merchantId != merchantId then s
      else s.(jobs := Added(s.jobs, Manual(id, at), o))
    case Take(w, job) =>
      if w in s.workers || job !in s.jobs || s.jobs[job].state != Waiting then s
      else Taken(s, w, job)
    case Work(w, answer) => if Busy(s, w) then WorkNext(s, w, answer) else s
    case Die(w) => if Busy(s, w) then Decided(s, w, Vanish) else s
  }

  ghost function Reach(deliveryId: (Symbol, Symbol) -> Symbol, owner: Symbol -> Symbol, actions: seq<Action>): State {
    Run(Step, Init(deliveryId, owner), actions)
  }
}
