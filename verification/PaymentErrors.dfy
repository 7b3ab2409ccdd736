/** Why a request is answered with an error: over every run each error has its own reason, a call of the
    request itself, made in the state in which it was made. */
module PaymentErrors {
  import opened GoText
  import opened PaymentDomain
  import opened PaymentProtocol
  import opened PaymentStores
  import opened Runs
  import PT = PaymentTheorems
  import RP = Replays

  /** The call by which a request ends with this error: all of them, and no others. */
  predicate Reason(s: State, a: Action, t: nat, error: Error) {
    && a.Call? && a.t == t && t in s.threads
    && var p, pc, failed := s.threads[t].payment, s.threads[t].pc, a.answer.outcome != Succeeds;
       match error
       // A call failed, a lookup met a lock value under the cache key, or an insert found its key taken.
       case Internal =>
         || (failed && (pc.InsertPayment? || pc.InsertRecord? || (pc.ReadRecord? && !pc.site.Polling?)))
         || (failed && (pc.SavePayment? || pc.UpdateRecord?) && !pc.reply.Unreachable?)
         || (!failed && pc.ReadCache? && !pc.site.Polling? && RP.LockUnder(s, KeyIn(s.db, p)))
         || (pc.InsertPayment? && Taken(s.db.payments, p))
         || (pc.InsertRecord? && KeyIn(s.db, p) in s.db.records)
       // The outcome of an unreachable bank could not be saved.
       case PersistenceFailed => failed && (pc.SavePayment? || pc.UpdateRecord?) && pc.reply.Unreachable?
       case ProviderFailed => pc.StoreResult? && pc.reply.Unreachable?
       case PaymentDeclined(message) => pc.StoreResult? && pc.reply == Declined(message)
       // The last lookup found nothing, or failed.
       case InProgress =>
         || (pc.ReadRecord? && pc.site == Polling(5) && (failed || KeyIn(s.db, p) !in s.db.records))
         || (!failed && pc.ReadCache? && pc.site == Polling(5) && RP.LockUnder(s, KeyIn(s.db, p)))
       case Cancelled => failed && pc.PollWait?
       case Crashed => false
  }

  predicate HasError(s: State, t: nat, error: Error) {
    t in s.threads && s.threads[t].pc == Finished(Errored(error))
  }

  lemma OwnCallErrs(s: State, t: nat, a: Answer, error: Error, polls: nat)
    requires t in s.threads && !HasError(s, t, error) && HasError(Advance(s, t, a), t, error)
    requires polls <= 6 && PT.PollsFit(s.threads[t].pc, polls)
    ensures Reason(s, Call(t, a), t, error)
  {
    var p := s.threads[t].payment;
    var pc' := Advance(s, t, a).threads[t].pc;
    match s.threads[t].pc
    case ReadCache(site) => assert pc' == AfterRead(s.redis, KeyIn(s.db, p), site, a.outcome);
    case ReadRecord(site) => assert pc' == AfterRecordRead(s.db.records, KeyIn(s.db, p), site, a.outcome);
    case _ =>
  }

  lemma ErringStep(s: State, a: Action, t: nat, error: Error, polls: nat)
    requires !HasError(s, t, error) && HasError(Step(s, a), t, error) && error != Crashed
    requires polls <= 6 && (t in s.threads ==> PT.PollsFit(s.threads[t].pc, polls))
    ensures Reason(s, a, t, error)
  {
    if a.Call? && a.t == t && t in s.threads {
      OwnCallErrs(s, t, a.answer, error, polls);
    } else if t in s.threads {
      RP.OtherStepThread(s, a, t);
    }
  }

  /** And whenever there is such a call, the request does end with that error. */
  lemma ReasonErrs(s: State, a: Action, t: nat, error: Error)
    requires Reason(s, a, t, error)
    ensures HasError(Step(s, a), t, error)
  {
    var p := s.threads[t].payment;
    var pc' := Advance(s, t, a.answer).threads[t].pc;
    match s.threads[t].pc
    case ReadCache(site) => assert pc' == AfterRead(s.redis, KeyIn(s.db, p), site, a.answer.outcome);
    case ReadRecord(site) => assert pc' == AfterRecordRead(s.db.records, KeyIn(s.db, p), site, a.answer.outcome);
    case _ =>
  }

  ghost predicate ReasonAt(
    cacheKey: (Symbol, Symbol) -> Symbol, lockKey: Symbol -> Symbol, actions: seq<Action>, t: nat, error: Error, i: int)
  {
    0 <= i < |actions| && Reason(Reach(cacheKey, lockKey, actions[..i]), actions[i], t, error)
  }

  /** Every error answer has its reason in the run, but for a crash. */
  lemma {:induction false} ErrorHasReason(
    cacheKey: (Symbol, Symbol) -> Symbol, lockKey: Symbol -> Symbol, actions: seq<Action>, t: nat, error: Error)
    returns (i: nat)
    requires HasError(Reach(cacheKey, lockKey, actions), t, error) && error != Crashed
    ensures ReasonAt(cacheKey, lockKey, actions, t, error, i)
    decreases |actions|
  {
    var n := |actions| - 1;
    var before := actions[..n];
    if HasError(Reach(cacheKey, lockKey, before), t, error) {
      i := ErrorHasReason(cacheKey, lockKey, before, t, error);
      assert before[..i] == actions[..i];
    } else {
      i := n;
      PT.PollsAreBounded(cacheKey, lockKey, before, t);
      ErringStep(Reach(cacheKey, lockKey, before), actions[n], t, error, PT.PollsOf(cacheKey, lockKey, before, t));
    }
  }
}
