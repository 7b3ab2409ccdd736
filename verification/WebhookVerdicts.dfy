/** What counts as a failed attempt, and how a job ends: exact conditions on the calls of its workers, and
    the attempts of a job over every run. */
module WebhookVerdicts {
  import opened GoText
  import opened WebhookProtocol
  import opened WebhookInvariant
  import opened WebhookSteps
  import opened WebhookTheorems
  import opened Runs

  /** The call of worker w makes its attempt fail: a lookup or the mark for an inactive endpoint failed, or
      the attempt was marked failed, or the last one could not be buried. A failed post alone does not. */
  predicate FailsAttempt(s: State, w: nat, a: Answer)
    requires Busy(s, w)
  {
    && a.outcome != DiesAfter
    && match s.workers[w].pc
       case LoadDelivery => a.outcome != Succeeds
       case LoadEndpoint(_) => a.outcome != Succeeds
       case MarkInactive(_) => a.outcome != Succeeds
       case Post(_) => false
       case MarkDelivered(_, _) => false
       case MarkFailed(_, _) => true
       case MarkDead(row, _) => a.outcome != Succeeds || (!HasLetter(s.letters, row.id) && a.letterId in s.letters)
  }

  /** The call of worker w ends its job with this result. */
  predicate EndsJob(s: State, w: nat, a: Answer, r: Result)
    requires Busy(s, w)
  {
    && a.outcome == Succeeds
    && match s.workers[w].pc
       case LoadDelivery => r == NotFound && s.workers[w].job.deliveryId !in s.deliveries
       case MarkInactive(_) => r == Discarded
       case MarkDelivered(_, _) => r == Posted
       case MarkDead(row, _) => r == DeadLettered && (HasLetter(s.letters, row.id) || a.letterId !in s.letters)
       case _ => false
  }

  /** Where a worker goes on: an active endpoint gets the post, an inactive one is marked; a post that is
      answered with success is recorded, any other, and a record that fails, goes to the catch block: to the
      dead letters in the fifth attempt, to a retry before. */
  predicate GoesOn(s: State, w: nat, a: Answer, pc: WorkerPc)
    requires Busy(s, w)
  {
    var j, ok := s.workers[w].job, a.outcome == Succeeds;
    && a.outcome != DiesAfter
    && match s.workers[w].pc
       case LoadDelivery => ok && j.deliveryId in s.deliveries && pc == LoadEndpoint(s.deliveries[j.deliveryId])
       case LoadEndpoint(row) =>
         ok && pc == if row.endpointId in s.endpoints && s.endpoints[row.endpointId].isActive then Post(row) else MarkInactive(row)
       case Post(row) =>
         pc == if ok then MarkDelivered(row, a.note)
               else if s.jobs[j].attemptsMade + 1 < 5 then MarkFailed(row, a.note) else MarkDead(row, a.note)
       case MarkDelivered(row, _) =>
         !ok && pc == if s.jobs[j].attemptsMade + 1 < 5 then MarkFailed(row, a.note) else MarkDead(row, a.note)
       case _ => false
  }

  /** What a call of a worker does to its job. */
  lemma CallDecides(s: State, w: nat, a: Answer)
    requires w in s.workers && WorkerOk(s, w, s.workers[w]) && JobOk(s.jobs[s.workers[w].job])
    ensures var j, s' := s.workers[w].job, WorkNext(s, w, a);
            var job, job' := s.jobs[j], s'.jobs[j];
            && job'.losses == job.losses + (if a.outcome == DiesAfter then 1 else 0)
            && job'.attemptsMade == job.attemptsMade + (if FailsAttempt(s, w, a) then 1 else 0)
            && (forall r :: job'.state == Completed(r) <==> EndsJob(s, w, a, r))
            && (w in s'.workers <==> a.outcome != DiesAfter && !FailsAttempt(s, w, a) && !job'.state.Completed?)
            && (w in s'.workers ==> s'.workers[w].job == j && GoesOn(s, w, a, s'.workers[w].pc))
            && (FailsAttempt(s, w, a) ==> job'.state == if job.attemptsMade + 1 < 5 then Waiting else Exhausted)
            && (a.outcome == DiesAfter ==> job'.state == Waiting)
  {
    WrittenLeaves(s, w, a);
  }

  // ---------- what a call writes ----------

  /** The row has this status and note and one attempt more, if the update took effect and there is a row;
      no other row, no letter and no post changes. */
  ghost predicate RowMarked(s: State, next: State, id: Symbol, status: Status, note: Note, o: Outcome) {
    && next.letters == s.letters && next.posted == s.posted
    && (o == FailsBefore || id !in s.deliveries ==> next.deliveries == s.deliveries)
    && (o != FailsBefore && id in s.deliveries ==>
          next.deliveries == s.deliveries[id :=
            s.deliveries[id].(status := status, note := note, attemptCount := s.deliveries[id].attemptCount + 1)])
  }

  /** What the marking calls of process write, and what its other calls do not. */
  lemma MarkingCall(s: State, w: nat, a: Answer)
    requires Busy(s, w)
    ensures var s' := WorkNext(s, w, a);
            match s.workers[w].pc
            case LoadDelivery => s'.deliveries == s.deliveries && s'.letters == s.letters && s'.posted == s.posted
            case LoadEndpoint(_) => s'.deliveries == s.deliveries && s'.letters == s.letters && s'.posted == s.posted
            case MarkInactive(row) => RowMarked(s, s', row.id, Failed, EndpointInactive, a.outcome)
            case Post(row) =>
              && s'.deliveries == s.deliveries && s'.letters == s.letters
              && s'.posted == if a.outcome == Succeeds then s.posted + {row.id} else s.posted
            case MarkDelivered(row, response) => RowMarked(s, s', row.id, Delivered, response, a.outcome)
            case MarkFailed(row, cause) => RowMarked(s, s', row.id, Failed, cause, a.outcome)
            case MarkDead(_, _) => s'.posted == s.posted
  {
  }

  /** The letters of other deliveries stay as they are, and no delivery but this one gets a new one. */
  predicate OtherLettersStay(letters: map<Symbol, Letter>, after: map<Symbol, Letter>, id: Symbol) {
    && (forall l | l in letters :: l in after && (letters[l].deliveryId != id ==> after[l] == letters[l]))
    && (forall l | l in after :: l !in letters ==> after[l].deliveryId == id)
  }

  /** The row is dead and has a letter of this attempt, or nothing has changed; and if the job returns,
      it is the former. */
  ghost predicate LetterKept(s: State, next: State, row: Delivery, attempt: nat, cause: Note, v: Verdict) {
    || (v != Return(DeadLettered) && next.deliveries == s.deliveries && next.letters == s.letters)
    || (&& row.id in s.deliveries && next.deliveries == s.deliveries[row.id := s.deliveries[row.id].(status := Dead)]
        && OtherLettersStay(s.letters, next.letters, row.id)
        && exists l :: && l in next.letters && next.letters[l].deliveryId == row.id
                       && next.letters[l].attempt == attempt && next.letters[l].cause == cause)
  }

  lemma LetterIsOfAttempt(letters: map<Symbol, Letter>, row: Delivery, attempt: nat, cause: Note, letterId: Symbol)
    requires LetterFits(letters, row, letterId)
    ensures var after := LetterUpserted(letters, row, attempt, cause, letterId);
            && OtherLettersStay(letters, after, row.id)
            && exists l :: l in after && after[l].deliveryId == row.id && after[l].attempt == attempt && after[l].cause == cause
  {
    var after := LetterUpserted(letters, row, attempt, cause, letterId);
    if HasLetter(letters, row.id) {
      var l :| l in letters && letters[l].deliveryId == row.id;
      assert l in after && after[l].deliveryId == row.id;
    } else {
      assert letterId in after && after[letterId].deliveryId == row.id;
    }
  }

  lemma BuryingCallWrites(s: State, w: nat, row: Delivery, cause: Note, a: Answer)
    requires Busy(s, w) && s.workers[w].pc == MarkDead(row, cause)
    ensures Written(s, w, a) == Buried(s, row, s.jobs[s.workers[w].job].attemptsMade + 1, cause, a)
  {
  }

  lemma BuryingCall(s: State, w: nat, row: Delivery, cause: Note, a: Answer)
    requires Inv(s) && Busy(s, w) && s.workers[w].pc == MarkDead(row, cause)
    ensures LetterKept(s, WorkNext(s, w, a), row, s.jobs[s.workers[w].job].attemptsMade + 1, cause, VerdictOf(s, w, a))
  {
    assert WorkerOk(s, w, s.workers[w]);
    if LetterFits(s.letters, row, a.letterId) {
      LetterIsOfAttempt(s.letters, row, s.jobs[s.workers[w].job].attemptsMade + 1, cause, a.letterId);
    }
  }

  // ---------- attempts ----------

  /** The step is a call that makes an attempt of job j fail. */
  predicate FailsAttemptOf(s: State, a: Action, j: JobId) {
    a.Work? && Busy(s, a.w) && s.workers[a.w].job == j && FailsAttempt(s, a.w, a.answer)
  }

  function FailuresOf(s: State, actions: seq<Action>, j: JobId): nat
    decreases |actions|
  {
    if actions == [] then 0
    else
      var n := |actions| - 1;
      FailuresOf(s, actions[..n], j) + (if FailsAttemptOf(Run(Step, s, actions[..n]), actions[n], j) then 1 else 0)
  }

  lemma OtherWorkersJob(s: State, w: nat, a: Answer, j: JobId)
    requires w in s.workers && WorkerOk(s, w, s.workers[w]) && j in s.jobs && s.workers[w].job != j
    ensures j in WorkNext(s, w, a).jobs && WorkNext(s, w, a).jobs[j] == s.jobs[j]
  {
    WrittenLeaves(s, w, a);
  }

  lemma StepCounts(s: State, a: Action, j: JobId)
    requires Inv(s) && j in s.jobs
    ensures var s' := Step(s, a);
            j in s'.jobs && s'.jobs[j].attemptsMade == s.jobs[j].attemptsMade + (if FailsAttemptOf(s, a, j) then 1 else 0)
  {
    if a.Work? && Busy(s, a.w) {
      assert WorkerOk(s, a.w, s.workers[a.w]) && JobOk(s.jobs[s.workers[a.w].job]);
      if s.workers[a.w].job == j { CallDecides(s, a.w, a.answer); } else { OtherWorkersJob(s, a.w, a.answer, j); }
    } else if a.Die? || a.Take? {
      DeathAndTakeCountNothing(s, a, j);
    } else {
      QuietWrites(s, a, j);
    }
  }

  lemma DeathAndTakeCountNothing(s: State, a: Action, j: JobId)
    requires j in s.jobs && (a.Die? || a.Take?)
    ensures j in Step(s, a).jobs && Step(s, a).jobs[j].attemptsMade == s.jobs[j].attemptsMade
    ensures (forall r :: Step(s, a).jobs[j].state == Completed(r) ==> s.jobs[j].state == Completed(r))
  {
  }

  lemma NewJobIsFresh(s: State, a: Action, j: JobId)
    requires j !in s.jobs && j in Step(s, a).jobs
    ensures Step(s, a).jobs[j].attemptsMade == 0 && !FailsAttemptOf(s, a, j)
  {
    if a.Work? && Busy(s, a.w) { WrittenLeaves(s, a.w, a.answer); }
  }

  lemma JobsStay(s: State, a: Action, j: JobId)
    requires j in s.jobs
    ensures j in Step(s, a).jobs
  {
    if a.Work? && Busy(s, a.w) { WrittenLeaves(s, a.w, a.answer); }
  }

  lemma {:induction false} NoFailuresOfNoJob(s: State, actions: seq<Action>, j: JobId)
    requires j !in Run(Step, s, actions).jobs
    ensures FailuresOf(s, actions, j) == 0
    decreases |actions|
  {
    if actions != [] {
      var n := |actions| - 1;
      var mid := Run(Step, s, actions[..n]);
      if j in mid.jobs { JobsStay(mid, actions[n], j); }
      NoFailuresOfNoJob(s, actions[..n], j);
    }
  }

  /** Over every run a job's attempts are exactly its failed ones, counted call by call. */
  lemma {:induction false} AttemptsAreFailures(
    deliveryId: (Symbol, Symbol) -> Symbol, owner: Symbol -> Symbol, actions: seq<Action>, j: JobId)
    requires j in Reach(deliveryId, owner, actions).jobs
    ensures Reach(deliveryId, owner, actions).jobs[j].attemptsMade == FailuresOf(Init(deliveryId, owner), actions, j)
    decreases |actions|
  {
    var n := |actions| - 1;
    var s := Reach(deliveryId, owner, actions[..n]);
    ReachableIsGood(deliveryId, owner, actions[..n]);
    if j in s.jobs {
      AttemptsAreFailures(deliveryId, owner, actions[..n], j);
      StepCounts(s, actions[n], j);
    } else {
      NoFailuresOfNoJob(Init(deliveryId, owner), actions[..n], j);
      NewJobIsFresh(s, actions[n], j);
    }
  }

  /** The step is a call that ends job j with this result. */
  predicate EndsIt(s: State, a: Action, j: JobId, r: Result) {
    a.Work? && Busy(s, a.w) && s.workers[a.w].job == j && EndsJob(s, a.w, a.answer, r)
  }

  predicate HasEnded(s: State, j: JobId, r: Result) {
    j in s.jobs && s.jobs[j].state == Completed(r)
  }

  lemma NewJobIsNotEnded(s: State, a: Action, j: JobId)
    requires j !in s.jobs && j in Step(s, a).jobs
    ensures !Step(s, a).jobs[j].state.Completed?
  {
    if a.Work? && Busy(s, a.w) { WrittenLeaves(s, a.w, a.answer); }
  }

  lemma EndingStep(s: State, a: Action, j: JobId, r: Result)
    requires Inv(s) && !HasEnded(s, j, r) && HasEnded(Step(s, a), j, r)
    ensures EndsIt(s, a, j, r)
  {
    if a.Work? && Busy(s, a.w) {
      assert WorkerOk(s, a.w, s.workers[a.w]) && JobOk(s.jobs[s.workers[a.w].job]);
      if s.workers[a.w].job == j {
        CallDecides(s, a.w, a.answer);
      } else if j in s.jobs {
        OtherWorkersJob(s, a.w, a.answer, j);
      } else {
        WrittenLeaves(s, a.w, a.answer);
      }
    } else if j in s.jobs {
      if a.Die? || a.Take? { DeathAndTakeCountNothing(s, a, j); } else { QuietWrites(s, a, j); }
    } else {
      NewJobIsNotEnded(s, a, j);
    }
  }

  ghost predicate EndedAt(
    deliveryId: (Symbol, Symbol) -> Symbol, owner: Symbol -> Symbol, actions: seq<Action>, j: JobId, r: Result, i: int)
  {
    0 <= i < |actions| && EndsIt(Reach(deliveryId, owner, actions[..i]), actions[i], j, r)
  }

  /** A job that ended with a result was ended by the call that this result reports. */
  lemma {:induction false} EndHasReason(
    deliveryId: (Symbol, Symbol) -> Symbol, owner: Symbol -> Symbol, actions: seq<Action>, j: JobId, r: Result)
    returns (i: nat)
    requires HasEnded(Reach(deliveryId, owner, actions), j, r)
    ensures EndedAt(deliveryId, owner, actions, j, r, i)
    decreases |actions|
  {
    var n := |actions| - 1;
    var before := actions[..n];
    if HasEnded(Reach(deliveryId, owner, before), j, r) {
      i := EndHasReason(deliveryId, owner, before, j, r);
      assert before[..i] == actions[..i];
    } else {
      i := n;
      ReachableIsGood(deliveryId, owner, before);
      EndingStep(Reach(deliveryId, owner, before), actions[n], j, r);
    }
  }

  // ---------- manual retries ----------

  /** A retry brings a new job to a delivery of the merchant who asks, and does nothing else; with
      somebody else's delivery, or one that is not there, it does nothing. */
  lemma RetryAddsOneJob(s: State, id: Symbol, merchantId: Symbol, at: int, o: Outcome)
    ensures var s' := Step(s, Retry(id, merchantId, at, o));
            && s' == s.(jobs := s'.jobs)
            && if id in s.deliveries && s.deliveries[id].merchantId == merchantId && o != FailsBefore && Manual(id, at) !in s.jobs
               then s'.jobs == s.jobs[Manual(id, at) := Job(Waiting, 0, 0, 0)]
               else s'.jobs == s.jobs
  {
  }
}
