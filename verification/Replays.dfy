/** A retry of a request that is known gets the payment: a lookup that can see a copy finds it. */
module Replays {
  import opened GoText
  import opened PaymentDomain
  import opened PaymentProtocol
  import opened PaymentInvariant
  import opened Runs
  import PS = PaymentSteps
  import PT = PaymentTheorems

  /** There is a record for this cache key, or a cached copy. */
  predicate Known(s: State, k: Symbol) {
    k in s.db.records || (k in s.redis && s.redis[k].Cached?)
  }

  predicate LockUnder(s: State, k: Symbol) {
    k in s.redis && s.redis[k] == LockHeld
  }

  /** The request has a lookup under way, or was answered with a payment. */
  predicate Looking(pc: Pc) {
    pc.ReadCache? || pc.ReadRecord? || pc.FillCache? || (pc.Finished? && pc.response.Returned?)
  }

  predicate LooksFor(s: State, t: nat, k: Symbol) {
    && t in s.threads && KeyIn(s.db, s.threads[t].payment) == k && k in s.db.records
    && (Looking(s.threads[t].pc) || s.threads[t].pc == Finished(Errored(Crashed)))
  }

  /** The step is no failing call of the request, and no read of a lock value under its cache key. */
  predicate Clean(s: State, a: Action, t: nat, k: Symbol) {
    a.Call? && a.t == t && t in s.threads && !s.threads[t].pc.Finished? ==>
      a.answer.outcome == Succeeds && !LockUnder(s, k)
  }

  /** How many calls a lookup still has to make. */
  function Left(pc: Pc): nat {
    match pc
    case ReadCache(_) => 3
    case ReadRecord(_) => 2
    case FillCache(_, _) => 1
    case _ => 0
  }

  lemma OwnCallFinds(s: State, t: nat, a: Answer, k: Symbol)
    requires Inv(s) && LooksFor(s, t, k) && Clean(s, Call(t, a), t, k)
    ensures LooksFor(Advance(s, t, a), t, k)
    ensures var pc := s.threads[t].pc; pc.Finished? || Left(Advance(s, t, a).threads[t].pc) < Left(pc)
    ensures Looking(s.threads[t].pc) ==> Looking(Advance(s, t, a).threads[t].pc)
  {
    var s', p := Advance(s, t, a), s.threads[t].payment;
    match s.threads[t].pc
    case ReadCache(site) =>
      assert s'.threads[t] == Thread(p, AfterRead(s.redis, k, site, a.outcome)) && s'.db == s.db;
    case ReadRecord(site) =>
      assert s'.threads[t] == Thread(p, AfterRecordRead(s.db.records, k, site, a.outcome)) && s'.db == s.db;
    case FillCache(_, found) =>
      assert s'.threads[t] == Thread(p, Finished(Returned(found))) && s'.db == s.db;
    case Finished(_) =>
  }

  lemma OtherStepThread(s: State, a: Action, t: nat)
    requires t in s.threads && !(a.Call? && a.t == t)
    ensures t in Step(s, a).threads && Step(s, a).threads[t].payment == s.threads[t].payment
    ensures Step(s, a).threads[t].pc == s.threads[t].pc || (a == Crash(t) && Step(s, a).threads[t].pc == Finished(Errored(Crashed)))
  {
    if a.Call? && a.t in s.threads { PT.OtherCallKeepsThread(s, a.t, a.answer, t); }
  }

  lemma OtherStepKeeps(s: State, a: Action, t: nat, k: Symbol)
    requires Inv(s) && LooksFor(s, t, k) && !(a.Call? && a.t == t)
    ensures LooksFor(Step(s, a), t, k)
    ensures Left(Step(s, a).threads[t].pc) <= Left(s.threads[t].pc)
    ensures a != Crash(t) && Looking(s.threads[t].pc) ==> Looking(Step(s, a).threads[t].pc)
  {
    OtherStepThread(s, a, t);
    assert Grows(s.db, Step(s, a).db) by { PS.StepKeepsInvariant(s, a); }
  }

  function Minus(n: nat, calls: nat): nat { if calls <= n then n - calls else 0 }

  lemma StepGoesOn(s: State, a: Action, t: nat, k: Symbol)
    requires Inv(s) && LooksFor(s, t, k) && Clean(s, a, t, k)
    ensures Inv(Step(s, a)) && LooksFor(Step(s, a), t, k)
    ensures a != Crash(t) && Looking(s.threads[t].pc) ==> Looking(Step(s, a).threads[t].pc)
    ensures Left(Step(s, a).threads[t].pc) <= Minus(Left(s.threads[t].pc), if a.Call? && a.t == t then 1 else 0)
  {
    PS.StepKeepsInvariant(s, a);
    if a.Call? && a.t == t { OwnCallFinds(s, t, a.answer, k); } else { OtherStepKeeps(s, a, t, k); }
  }

  function OwnCalls(actions: seq<Action>, t: nat): nat {
    if actions == [] then 0
    else
      var last := actions[|actions| - 1];
      OwnCalls(actions[..|actions| - 1], t) + (if last.Call? && last.t == t then 1 else 0)
  }

  ghost predicate CleanRun(s: State, actions: seq<Action>, t: nat, k: Symbol) {
    forall i :: 0 <= i < |actions| ==> Clean(Run(Step, s, actions[..i]), actions[i], t, k)
  }

  lemma {:induction false} LookupGoesOn(s: State, actions: seq<Action>, t: nat, k: Symbol)
    requires Inv(s) && LooksFor(s, t, k) && CleanRun(s, actions, t, k)
    ensures var s' := Run(Step, s, actions);
            && Inv(s') && LooksFor(s', t, k)
            && Left(s'.threads[t].pc) <= Minus(3, OwnCalls(actions, t))
            && (Crash(t) !in actions && Looking(s.threads[t].pc) ==> Looking(s'.threads[t].pc))
    decreases |actions|
  {
    if actions != [] {
      var n := |actions| - 1;
      forall i | 0 <= i < n ensures Clean(Run(Step, s, actions[..n][..i]), actions[..n][i], t, k) {
        assert actions[..n][..i] == actions[..i];
      }
      LookupGoesOn(s, actions[..n], t, k);
      StepGoesOn(Run(Step, s, actions[..n]), actions[n], t, k);
    }
  }

  lemma KnownIsRecorded(s: State, k: Symbol)
    requires Inv(s) && Known(s, k)
    ensures k in s.db.records
  {
    if k in s.redis { assert RedisOk(s.db, k, s.redis[k]); }
  }

  /** A request that looks up a cache key with a record or a cached copy, and whose own calls do not fail
      and never meet a lock value under that key, is answered with the payment of that key after three
      calls at most, whatever anybody else does meanwhile; unless it crashes. */
  lemma KnownIsReturned(
    cacheKey: (Symbol, Symbol) -> Symbol, lockKey: Symbol -> Symbol, before: seq<Action>, after: seq<Action>, t: nat)
    requires var s := Reach(cacheKey, lockKey, before);
             && t in s.threads && s.threads[t].pc.ReadCache?
             && Known(s, KeyIn(s.db, s.threads[t].payment))
             && CleanRun(s, after, t, KeyIn(s.db, s.threads[t].payment))
    ensures var s, s' := Reach(cacheKey, lockKey, before), Reach(cacheKey, lockKey, before + after);
            var k := KeyIn(s.db, s.threads[t].payment);
            && t in s'.threads && (s'.threads[t].pc.Finished? || OwnCalls(after, t) < 3)
            && match s'.threads[t].pc
               case Finished(Returned(e)) =>
                 k in s'.db.records && e.id == s'.db.records[k].id && e.id in s'.db.payments
                 && Identity(e) == Identity(s'.db.payments[e.id])
               case Finished(Errored(error)) => error == Crashed && Crash(t) in after
               case _ => true
  {
    var s := Reach(cacheKey, lockKey, before);
    var k := KeyIn(s.db, s.threads[t].payment);
    PT.ReachableIsGood(cacheKey, lockKey, before);
    KnownIsRecorded(s, k);
    LookupGoesOn(s, after, t, k);
    RunConcat(Step, Init(cacheKey, lockKey), before, after);
    assert ThreadOk(Run(Step, s, after).db, Run(Step, s, after).threads[t]);
  }

  /** The same of a run and an earlier part of it: the only error such a request can end with is a crash. */
  lemma KnownIsNotAnError(
    cacheKey: (Symbol, Symbol) -> Symbol, lockKey: Symbol -> Symbol, start: seq<Action>, trace: seq<Action>, t: nat,
    error: Error)
    requires start <= trace
    requires var s := Reach(cacheKey, lockKey, start);
             && t in s.threads && s.threads[t].pc.ReadCache?
             && Known(s, KeyIn(s.db, s.threads[t].payment))
             && CleanRun(s, trace[|start|..], t, KeyIn(s.db, s.threads[t].payment))
    requires var s' := Reach(cacheKey, lockKey, trace);
             t in s'.threads && s'.threads[t].pc == Finished(Errored(error))
    ensures error == Crashed
  {
    assert start + trace[|start|..] == trace;
    KnownIsReturned(cacheKey, lockKey, start, trace[|start|..], t);
  }

  // ---------- lock values ----------

  /** No lock key is a cache key. */
  ghost predicate Apart(cacheKey: (Symbol, Symbol) -> Symbol, lockKey: Symbol -> Symbol) {
    forall m, i, k :: lockKey(k) != cacheKey(m, i)
  }

  ghost predicate LocksAreLocks(s: State, lockKey: Symbol -> Symbol) {
    s.db.lockKey == lockKey && forall x :: LockUnder(s, x) ==> exists k :: x == lockKey(k)
  }

  lemma CallKeepsLocks(s: State, t: nat, a: Answer, lockKey: Symbol -> Symbol)
    requires t in s.threads && LocksAreLocks(s, lockKey)
    ensures LocksAreLocks(Advance(s, t, a), lockKey)
  {
    var s' := Advance(s, t, a);
    var key := KeyIn(s.db, s.threads[t].payment);
    forall x | LockUnder(s', x) ensures exists k :: x == lockKey(k) {
      if !LockUnder(s, x) { assert x == lockKey(key); }
    }
  }

  lemma StepKeepsLocks(s: State, a: Action, lockKey: Symbol -> Symbol)
    requires LocksAreLocks(s, lockKey)
    ensures LocksAreLocks(Step(s, a), lockKey)
  {
    if a.Call? {
      if a.t in s.threads { CallKeepsLocks(s, a.t, a.answer, lockKey); }
    } else {
      var s' := Step(s, a);
      forall x | LockUnder(s', x) ensures exists k :: x == lockKey(k) { assert LockUnder(s, x); }
    }
  }

  /** While no lock key is a cache key, no lookup ever meets a lock value. */
  lemma NoLockUnderCacheKey(
    cacheKey: (Symbol, Symbol) -> Symbol, lockKey: Symbol -> Symbol, actions: seq<Action>, m: Symbol, i: Symbol)
    requires Apart(cacheKey, lockKey)
    ensures !LockUnder(Reach(cacheKey, lockKey, actions), cacheKey(m, i))
  {
    var inv := (s: State) => LocksAreLocks(s, lockKey);
    forall s: State, a: Action | inv(s) ensures inv(Step(s, a)) { StepKeepsLocks(s, a, lockKey); }
    InvariantOfRun(Step, inv, Init(cacheKey, lockKey), actions);
  }
}
